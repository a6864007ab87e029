/**
 * The pieces of Python's string handling that the engine's messages and the
 * rule-code extractor rely on: str.isspace, str.strip, str.split with a
 * one-character separator and with no argument, str.join, the ordering that
 * sorted() uses on strings, and the decimal and fixed-point ("%.2f") rendering
 * of numbers.
 */
module Strings {

  /** Python's str.isspace on one character (the whitespace of str.split() and str.strip()). */
  predicate IsSpace(c: char)
  {
    c == ' ' || ('\t' <= c <= '\r') || ('\U{1c}' <= c <= '\U{1f}') || c == '\U{85}' || c == '\U{a0}'
    || c == '\U{1680}' || ('\U{2000}' <= c <= '\U{200a}') || c == '\U{2028}' || c == '\U{2029}'
    || c == '\U{202f}' || c == '\U{205f}' || c == '\U{3000}'
  }

  predicate NoSpace(s: string)
  {
    forall k :: 0 <= k < |s| ==> !IsSpace(s[k])
  }

  /** s.lstrip(): drops the leading whitespace and nothing else. */
  function LStrip(s: string): (r: string)
    ensures |r| <= |s| && r == s[|s| - |r|..]
    ensures r == [] || !IsSpace(r[0])
    ensures forall k :: 0 <= k < |s| - |r| ==> IsSpace(s[k])
  {
    if s != [] && IsSpace(s[0]) then LStrip(s[1..]) else s
  }

  /** s.rstrip(): drops the trailing whitespace and nothing else. */
  function RStrip(s: string): (r: string)
    ensures |r| <= |s| && r == s[..|r|]
    ensures r == [] || !IsSpace(r[|r| - 1])
    ensures forall k :: |r| <= k < |s| ==> IsSpace(s[k])
  {
    if s != [] && IsSpace(s[|s| - 1]) then RStrip(s[..|s| - 1]) else s
  }

  /** s.strip() */
  function Strip(s: string): (r: string)
    ensures r == [] || (!IsSpace(r[0]) && !IsSpace(r[|r| - 1]))
  {
    RStrip(LStrip(s))
  }

  /** A string strips to nothing exactly when it is all whitespace. */
  lemma StripBlank(s: string)
    ensures Strip(s) == [] <==> forall k :: 0 <= k < |s| ==> IsSpace(s[k])
  {
    var t := LStrip(s);
    if t != [] {
      assert s[|s| - |t|] == t[0];
    }
  }

  /** A string that starts and ends with a non-space character is its own strip. */
  lemma {:induction false} StripTrimmed(s: string)
    requires s != [] && !IsSpace(s[0]) && !IsSpace(s[|s| - 1])
    ensures Strip(s) == s && Strip(" " + s) == s
  {
    assert (" " + s)[1..] == s;
  }

  /** The position of the first occurrence of `c` (s.index(c)). */
  function IndexOf<T(==)>(s: seq<T>, c: T): (k: nat)
    requires c in s
    ensures k < |s| && s[k] == c && c !in s[..k]
  {
    if s[0] == c then 0 else 1 + IndexOf(s[1..], c)
  }

  /** The first occurrence of an element that a prefix lacks is where the rest begins with it. */
  lemma {:induction false} IndexOfAfter<T>(a: seq<T>, b: seq<T>, c: T)
    requires c !in a && b != [] && b[0] == c
    ensures c in a + b && IndexOf(a + b, c) == |a|
  {
    assert (a + b)[|a|] == c;
    if a != [] {
      assert (a + b)[1..] == a[1..] + b;
      IndexOfAfter(a[1..], b, c);
    }
  }

  /** An element of a prefix is first found within that prefix, whatever follows it. */
  lemma {:induction false} IndexOfPrefix<T>(a: seq<T>, b: seq<T>, c: T)
    requires c in a
    ensures c in a + b && IndexOf(a + b, c) == IndexOf(a, c)
  {
    if a[0] != c {
      assert (a + b)[1..] == a[1..] + b;
      IndexOfPrefix(a[1..], b, c);
    }
  }

  /** sep.join(parts) */
  function Join(parts: seq<string>, sep: string): (r: string)
  {
    if |parts| == 0 then ""
    else if |parts| == 1 then parts[0]
    else parts[0] + sep + Join(parts[1..], sep)
  }

  /** s.split(sep) for a one-character separator: the pieces between separators, empty ones included. */
  function Split(s: string, sep: char): (parts: seq<string>)
    ensures |parts| >= 1
    ensures forall p :: p in parts ==> sep !in p
    ensures forall p, c :: p in parts && c in p ==> c in s
    decreases |s|
  {
    if sep !in s then [s]
    else
      var k := IndexOf(s, sep);
      [s[..k]] + Split(s[k + 1..], sep)
  }

  /** Joining the pieces of a split with the separator gives the string back. */
  lemma {:induction false} JoinSplit(s: string, sep: char)
    ensures Join(Split(s, sep), [sep]) == s
    decreases |s|
  {
    if sep in s {
      var k := IndexOf(s, sep);
      var rest := Split(s[k + 1..], sep);
      JoinSplit(s[k + 1..], sep);
      var parts := Split(s, sep);
      assert parts == [s[..k]] + rest && parts[1..] == rest;
      assert Join(parts, [sep]) == s[..k] + [sep] + Join(rest, [sep]);
      assert s == s[..k] + [sep] + s[k + 1..];
    }
  }

  /**
   * Splitting a "; "-joined list of separator-free messages on ';' gives the
   * first message and each later one behind the space of the separator.
   */
  lemma {:induction false} SplitJoined(ms: seq<string>)
    requires |ms| >= 1
    requires forall m :: m in ms ==> ';' !in m
    ensures Split(Join(ms, "; "), ';') == [ms[0]] + Spaced(ms[1..])
  {
    if |ms| > 1 {
      var s := Join(ms, "; ");
      var tail := Join(ms[1..], "; ");
      assert s == ms[0] + ("; " + tail);
      IndexOfAfter(ms[0], "; " + tail, ';');
      var k := IndexOf(s, ';');
      assert s[..k] == ms[0];
      assert s[k + 1..] == " " + tail;
      SplitJoinedSpaced(ms[1..]);
    }
  }

  /** The messages with a space in front of each. */
  function Spaced(ms: seq<string>): (r: seq<string>)
    ensures |r| == |ms| && forall k :: 0 <= k < |ms| ==> r[k] == " " + ms[k]
  {
    if ms == [] then [] else [" " + ms[0]] + Spaced(ms[1..])
  }

  lemma {:induction false} SplitJoinedSpaced(ms: seq<string>)
    requires |ms| >= 1
    requires forall m :: m in ms ==> ';' !in m
    ensures Split(" " + Join(ms, "; "), ';') == Spaced(ms)
  {
    var s := " " + Join(ms, "; ");
    if |ms| == 1 {
      assert s == " " + ms[0];
      assert ';' !in s by { assert ';' !in " "; }
    } else {
      var head, tail := " " + ms[0], Join(ms[1..], "; ");
      assert ';' !in head by { assert ms[0] in ms; }
      assert s == head + ("; " + tail);
      IndexOfAfter(head, "; " + tail, ';');
      var k := IndexOf(s, ';');
      assert k == |head| && s[..k] == head && s[k + 1..] == " " + tail;
      assert Split(s, ';') == [head] + Split(" " + tail, ';');
      assert forall m :: m in ms[1..] ==> m in ms;
      SplitJoinedSpaced(ms[1..]);
      assert Spaced(ms) == [head] + Spaced(ms[1..]);
    }
  }

  /** part.split()[0] for a stripped, non-empty part: its leading run of non-space characters. */
  function FirstToken(s: string): (t: string)
    ensures t <= s && NoSpace(t)
    ensures |t| < |s| ==> IsSpace(s[|t|])
  {
    if s == [] || IsSpace(s[0]) then [] else [s[0]] + FirstToken(s[1..])
  }

  /** The first token of a space-free word followed by a space and anything is the word. */
  lemma {:induction false} FirstTokenOf(w: string, rest: string)
    requires NoSpace(w)
    ensures FirstToken(w + " " + rest) == w
  {
    if w != [] {
      assert !IsSpace(w[0]);
      assert (w + " " + rest)[1..] == w[1..] + " " + rest;
      FirstTokenOf(w[1..], rest);
    }
  }

  // ---------------------------------------------------------------------
  // The order sorted() puts strings in: code point by code point, with a
  // proper prefix first.

  predicate LexLess(a: string, b: string)
  {
    if |b| == 0 then false
    else if |a| == 0 then true
    else if a[0] != b[0] then a[0] < b[0]
    else LexLess(a[1..], b[1..])
  }

  lemma {:induction false} LexIrreflexive(a: string)
    ensures !LexLess(a, a)
  {
    if |a| > 0 { LexIrreflexive(a[1..]); }
  }

  lemma {:induction false} LexTransitive(a: string, b: string, c: string)
    requires LexLess(a, b) && LexLess(b, c)
    ensures LexLess(a, c)
  {
    if |a| > 0 && a[0] == b[0] && b[0] == c[0] {
      LexTransitive(a[1..], b[1..], c[1..]);
    }
  }

  lemma {:induction false} LexTotal(a: string, b: string)
    requires a != b
    ensures LexLess(a, b) != LexLess(b, a)
  {
    if |a| > 0 && |b| > 0 && a[0] == b[0] {
      assert a == [a[0]] + a[1..] && b == [b[0]] + b[1..];
      LexTotal(a[1..], b[1..]);
    }
  }

  predicate StrictlySorted(s: seq<string>)
  {
    forall i, j :: 0 <= i < j < |s| ==> LexLess(s[i], s[j])
  }

  function Elements(s: seq<string>): set<string>
  {
    set x | x in s
  }

  /** m is the least member of S. */
  predicate IsLeast(m: string, S: set<string>)
  {
    m in S && forall x :: x in S && x != m ==> LexLess(m, x)
  }

  /** Adding y to a set with least member m leaves m or y least. */
  lemma LeastInsert(m: string, rest: set<string>, y: string)
    requires IsLeast(m, rest)
    ensures IsLeast(m, rest + {y}) || IsLeast(y, rest + {y})
  {
    if LexLess(y, m) {
      forall x | x in rest + {y} && x != y ensures LexLess(y, x) {
        if x != m { LexTransitive(y, m, x); }
      }
    } else if y != m {
      LexTotal(y, m);
    }
  }

  /** A non-empty set of strings has a least member. */
  lemma {:induction false} LeastExists(S: set<string>)
    requires S != {}
    ensures exists m :: IsLeast(m, S)
    decreases |S|
  {
    var y :| y in S;
    if S == {y} {
      assert IsLeast(y, S);
    } else {
      var rest := S - {y};
      LeastExists(rest);
      var m :| IsLeast(m, rest);
      LeastInsert(m, rest, y);
      assert rest + {y} == S;
    }
  }

  ghost function Least(S: set<string>): (m: string)
    requires S != {}
    ensures IsLeast(m, S)
  {
    LeastExists(S);
    var m :| IsLeast(m, S); m
  }

  /** A set has at most one least member. */
  lemma LeastUnique(m1: string, m2: string, S: set<string>)
    requires IsLeast(m1, S) && IsLeast(m2, S)
    ensures m1 == m2
  {
    if m1 != m2 {
      assert LexLess(m1, m2) && LexLess(m2, m1);
      LexTotal(m1, m2);
    }
  }

  /** sorted(S) for a set of strings: its least member, then the rest sorted (see SortedOfSorted). */
  ghost function SortedOf(S: set<string>): seq<string>
    decreases |S|
  {
    if S == {} then []
    else
      var m := Least(S);
      [m] + SortedOf(S - {m})
  }

  /** sorted(S) lists every member of S once, in increasing order. */
  lemma {:induction false} SortedOfSorted(S: set<string>)
    ensures StrictlySorted(SortedOf(S)) && Elements(SortedOf(S)) == S && |SortedOf(S)| == |S|
    decreases |S|
  {
    if S != {} {
      var m := Least(S);
      SortedOfSorted(S - {m});
      LeastFirst(m, S, SortedOf(S - {m}));
    }
  }

  /** The entries of sorted(S) are the members of S, and each member is an entry. */
  lemma SortedOfMembers(S: set<string>)
    ensures forall k :: 0 <= k < |SortedOf(S)| ==> SortedOf(S)[k] in S
    ensures forall x :: x in S ==> x in SortedOf(S)
  {
    SortedOfSorted(S);
  }

  /** The least member of S in front of the sorted rest is sorted S. */
  lemma LeastFirst(m: string, S: set<string>, rest: seq<string>)
    requires IsLeast(m, S)
    requires StrictlySorted(rest) && Elements(rest) == S - {m} && |rest| == |S - {m}|
    ensures StrictlySorted([m] + rest) && Elements([m] + rest) == S && |[m] + rest| == |S|
  {
    forall k | 0 <= k < |rest| ensures LexLess(m, rest[k]) {
      assert rest[k] in Elements(rest);
    }
    assert forall k :: 0 < k <= |rest| ==> ([m] + rest)[k] == rest[k - 1];
    assert Elements([m] + rest) == Elements(rest) + {m};
    assert S == (S - {m}) + {m};
  }

  /** Sorting a set starts with its least member. */
  lemma SortedOfStep(S: set<string>, m: string)
    requires IsLeast(m, S)
    ensures SortedOf(S) == [m] + SortedOf(S - {m})
  {
    LeastUnique(m, Least(S), S);
  }

  /** The least element of a non-empty set, found by one pass over it. */
  method PickLeast(S: set<string>) returns (m: string)
    requires S != {}
    ensures IsLeast(m, S)
  {
    m :| m in S;
    var unseen := S - {m};
    while unseen != {}
      invariant unseen <= S - {m} && IsLeast(m, S - unseen)
      decreases |unseen|
    {
      var x :| x in unseen;
      LeastInsert(m, S - unseen, x);
      assert (S - unseen) + {x} == S - (unseen - {x});
      LexTotal(x, m);
      if LexLess(x, m) {
        m := x;
      }
      unseen := unseen - {x};
    }
  }

  /** sorted() on a set of strings, as a repeated selection of the least remaining element. */
  method Sort(S: set<string>) returns (r: seq<string>)
    ensures r == SortedOf(S)
  {
    r := [];
    var rest := S;
    while rest != {}
      invariant r + SortedOf(rest) == SortedOf(S)
      decreases |rest|
    {
      var m := PickLeast(rest);
      SortedOfStep(rest, m);
      assert r + SortedOf(rest) == (r + [m]) + SortedOf(rest - {m});
      r := r + [m];
      rest := rest - {m};
    }
  }

  // ---------------------------------------------------------------------
  // Numbers as text.

  function DigitChar(d: nat): (c: char)
    requires d < 10
    ensures '0' <= c <= '9' && c as int - '0' as int == d
  {
    ('0' as int + d) as char
  }

  predicate AllDigits(s: string)
  {
    forall k :: 0 <= k < |s| ==> '0' <= s[k] <= '9'
  }

  /** str(n) for a natural number. */
  function NatToString(n: nat): (s: string)
    ensures s != [] && AllDigits(s)
  {
    if n < 10 then [DigitChar(n)] else NatToString(n / 10) + [DigitChar(n % 10)]
  }

  /** The number a string of decimal digits denotes (int(s) for a digit string). */
  function DigitsValue(s: string): nat
    requires AllDigits(s)
  {
    if s == [] then 0 else DigitsValue(s[..|s| - 1]) * 10 + (s[|s| - 1] as int - '0' as int)
  }

  /** str(n) denotes n, and has no leading zero unless it is "0": int(str(n)) == n. */
  lemma {:induction false} NatToStringValue(n: nat)
    ensures DigitsValue(NatToString(n)) == n
    ensures NatToString(n)[0] == '0' ==> NatToString(n) == "0"
  {
    var s := NatToString(n);
    if n >= 10 {
      NatToStringValue(n / 10);
      assert s[..|s| - 1] == NatToString(n / 10);
      assert s[0] == NatToString(n / 10)[0];
    }
  }

  /** Different numbers have different decimal texts. */
  lemma NatToStringInjective(m: nat, n: nat)
    requires NatToString(m) == NatToString(n)
    ensures m == n
  {
    NatToStringValue(m);
    NatToStringValue(n);
  }

  /** Round to the nearest integer, ties to the even one (the rounding of Python's float formatting). */
  function RoundHalfEven(x: real): (n: int)
    ensures -0.5 <= n as real - x <= 0.5
    ensures (n as real - x == 0.5 || x - n as real == 0.5) ==> n % 2 == 0
    ensures x >= 0.0 ==> n >= 0
  {
    var f := x.Floor;
    var d := x - f as real;
    if d > 0.5 then f + 1
    else if d < 0.5 then f
    else if f % 2 == 0 then f
    else f + 1
  }

  /** f"{z:.2f}": sign, integer part, point and two decimals of z rounded half-to-even at the hundredths. */
  function Fixed2(z: real): (s: string)
    ensures s != [] && ';' !in s && NoSpace(s)
  {
    var a := if z < 0.0 then -z else z;
    var m: nat := RoundHalfEven(a * 100.0);
    var s := (if z < 0.0 then "-" else "") + NatToString(m / 100) + "." + [DigitChar(m % 100 / 10), DigitChar(m % 10)];
    assert forall k :: 0 <= k < |s| ==> s[k] == '-' || s[k] == '.' || '0' <= s[k] <= '9';
    s
  }
}
