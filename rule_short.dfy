/**
 * extract_rule_short (qc_core.py): the short rule names of a "; "-joined
 * violation text, each once, in order of first appearance, ", "-joined. It
 * labels the violating points of the Levey-Jennings chart.
 */
module RuleShort {
  import opened Wrappers
  import opened Strings

  /** The first word of every non-blank part, in order (part.strip().split()[0]). */
  function Tokens(parts: seq<string>): (ts: seq<string>)
    ensures |ts| <= |parts|
    ensures forall k :: 0 <= k < |ts| ==> ts[k] != [] && NoSpace(ts[k])
  {
    if parts == [] then []
    else
      var last := Strip(parts[|parts| - 1]);
      Tokens(parts[..|parts| - 1]) + (if last == [] then [] else [FirstToken(last)])
  }

  /** The first occurrence of every element, in order (the `if token not in codes` list). */
  function Distinct(ts: seq<string>): (ds: seq<string>)
    ensures forall a, b :: 0 <= a < b < |ds| ==> ds[a] != ds[b]
    ensures forall t :: t in ds <==> t in ts
  {
    if ts == [] then []
    else
      var ds := Distinct(ts[..|ts| - 1]);
      var t := ts[|ts| - 1];
      assert forall x :: x in ts <==> x in ts[..|ts| - 1] || x == t by { assert ts == ts[..|ts| - 1] + [t]; }
      if t in ds then ds else ds + [t]
  }

  /** Distinct of a list with one more element at the end. */
  lemma DistinctSnoc(ts: seq<string>, t: string)
    ensures Distinct(ts + [t]) == if t in Distinct(ts) then Distinct(ts) else Distinct(ts) + [t]
  {
    assert (ts + [t])[..|ts|] == ts;
  }

  /** The distinct list keeps first-occurrence order: an earlier entry first appears earlier in the input. */
  lemma {:induction false} DistinctKeepsFirstOrder(ts: seq<string>)
    ensures forall a, b :: 0 <= a < b < |Distinct(ts)| ==> IndexOf(ts, Distinct(ts)[a]) < IndexOf(ts, Distinct(ts)[b])
  {
    if ts != [] {
      var n := |ts| - 1;
      var p, t := ts[..n], ts[n];
      assert ts == p + [t];
      DistinctKeepsFirstOrder(p);
      var dp := Distinct(p);
      forall x | x in p
        ensures IndexOf(ts, x) == IndexOf(p, x) < n
      {
        IndexOfPrefix(p, [t], x);
      }
      if t !in dp {
        IndexOfAfter(p, [t], t);
        assert Distinct(ts) == dp + [t];
      }
    }
  }

  /** The stripped parts that are not blank, in order: the parts the loop does not skip. */
  function NonBlank(parts: seq<string>): (ms: seq<string>)
    ensures |ms| <= |parts|
    ensures forall k :: 0 <= k < |ms| ==> ms[k] != []
  {
    if parts == [] then []
    else
      var last := Strip(parts[|parts| - 1]);
      NonBlank(parts[..|parts| - 1]) + (if last == [] then [] else [last])
  }

  /** The tokens are the first words of the non-blank parts, whatever mix of blank and non-blank parts there is. */
  lemma {:induction false} TokensAreFirstWords(parts: seq<string>)
    ensures Tokens(parts) == FirstWords(NonBlank(parts))
  {
    if parts != [] {
      var init, last := parts[..|parts| - 1], parts[|parts| - 1];
      TokensAreFirstWords(init);
      if Strip(last) != [] {
        var ms := NonBlank(init);
        assert (ms + [Strip(last)])[..|ms|] == ms;
      }
    }
  }

  /** One more part: its first word joins the distinct list unless blank or already there. */
  lemma DistinctTokensStep(parts: seq<string>, k: nat)
    requires k < |parts|
    ensures var codes, part := Distinct(Tokens(parts[..k])), Strip(parts[k]);
      Distinct(Tokens(parts[..k + 1]))
      == if part == [] || FirstToken(part) in codes then codes else codes + [FirstToken(part)]
  {
    var before := Tokens(parts[..k]);
    assert parts[..k + 1][..k] == parts[..k];
    var part := Strip(parts[k]);
    if part == [] {
      assert Tokens(parts[..k + 1]) == before;
    } else {
      assert Tokens(parts[..k + 1]) == before + [FirstToken(part)];
      DistinctSnoc(before, FirstToken(part));
    }
  }

  /** The value extract_rule_short returns: nothing for a non-string or blank text. */
  function RuleShortOf(text: Option<string>): string
  {
    if text.None? || Strip(text.value) == [] then ""
    else Join(Distinct(Tokens(Split(text.value, ';'))), ", ")
  }

  /** extract_rule_short: one pass over the ';'-separated parts, collecting new first words. */
  method ExtractRuleShort(text: Option<string>) returns (r: string)
    ensures r == RuleShortOf(text)
  {
    if text.None? || Strip(text.value) == "" {
      return "";
    }
    var parts := Split(text.value, ';');
    var codes: seq<string> := [];
    var k := 0;
    while k < |parts|
      invariant 0 <= k <= |parts| && codes == Distinct(Tokens(parts[..k]))
    {
      DistinctTokensStep(parts, k);
      var part := Strip(parts[k]);
      if part != "" {
        var token := FirstToken(part);
        if token !in codes {
          codes := codes + [token];
        }
      }
      k := k + 1;
    }
    assert parts[..k] == parts;
    r := Join(codes, ", ");
  }

  // -----------------------------------------------------------------------
  // Properties

  /** A part made of whitespace only contributes no token. */
  lemma {:induction false} TokensOfBlank(parts: seq<string>)
    requires forall p, c :: p in parts && c in p ==> IsSpace(c)
    ensures Tokens(parts) == []
  {
    if parts != [] {
      var last := parts[|parts| - 1];
      assert forall p :: p in parts[..|parts| - 1] ==> p in parts;
      TokensOfBlank(parts[..|parts| - 1]);
      StripBlank(last);
      assert forall k :: 0 <= k < |last| ==> last[k] in last;
    }
  }

  /**
   * The blank-text guard of extract_rule_short changes nothing for a string:
   * a text that strips to nothing has no token anyway.
   */
  lemma BlankGuardRedundant(s: string)
    requires Strip(s) == []
    ensures Join(Distinct(Tokens(Split(s, ';'))), ", ") == RuleShortOf(Some(s)) == ""
  {
    StripBlank(s);
    forall p, c | p in Split(s, ';') && c in p ensures IsSpace(c) {
      var k :| 0 <= k < |s| && s[k] == c;
    }
    TokensOfBlank(Split(s, ';'));
  }

  /** The first word of every message. */
  function FirstWords(ms: seq<string>): (ws: seq<string>)
    ensures |ws| == |ms| && forall k :: 0 <= k < |ms| ==> ws[k] == FirstToken(ms[k])
  {
    if ms == [] then [] else FirstWords(ms[..|ms| - 1]) + [FirstToken(ms[|ms| - 1])]
  }

  /** Parts that strip to non-blank texts yield the first word of each. */
  lemma {:induction false} TokensOfTrimmed(parts: seq<string>, ms: seq<string>)
    requires |parts| == |ms| && forall k :: 0 <= k < |ms| ==> Strip(parts[k]) == ms[k] && ms[k] != []
    ensures Tokens(parts) == FirstWords(ms)
  {
    if parts != [] {
      var n := |parts| - 1;
      assert forall k :: 0 <= k < n ==> parts[..n][k] == parts[k] && ms[..n][k] == ms[k];
      TokensOfTrimmed(parts[..n], ms[..n]);
      assert Strip(parts[n]) == ms[n] != [];
      assert Tokens(parts) == Tokens(parts[..n]) + [FirstToken(ms[n])];
    }
  }

  /** A message that starts and ends with a non-space character. */
  predicate Trimmed(m: string)
  {
    m != [] && !IsSpace(m[0]) && !IsSpace(m[|m| - 1])
  }

  /** A join of messages, the first of them trimmed, is not blank. */
  lemma JoinedNotBlank(ms: seq<string>)
    requires ms != [] && Trimmed(ms[0])
    ensures Strip(Join(ms, "; ")) != []
  {
    var s := Join(ms, "; ");
    if |ms| > 1 {
      assert s == ms[0] + ("; " + Join(ms[1..], "; "));
    }
    assert s[0] == ms[0][0];
    StripBlank(s);
  }

  /** Splitting a "; "-join of trimmed, ';'-free messages on ';' gives parts that strip to the messages. */
  lemma JoinedPartsStrip(ms: seq<string>)
    requires ms != [] && forall k :: 0 <= k < |ms| ==> Trimmed(ms[k]) && ';' !in ms[k]
    ensures var parts := Split(Join(ms, "; "), ';');
      |parts| == |ms| && forall k :: 0 <= k < |ms| ==> Strip(parts[k]) == ms[k]
  {
    forall m | m in ms ensures ';' !in m { }
    SplitJoined(ms);
    var parts := Split(Join(ms, "; "), ';');
    var spaced := Spaced(ms[1..]);
    assert parts == [ms[0]] + spaced;
    forall k | 0 <= k < |ms| ensures Strip(parts[k]) == ms[k] {
      StripTrimmed(ms[k]);
      if k > 0 {
        assert parts[k] == spaced[k - 1] == " " + ms[1..][k - 1];
      }
    }
  }

  /**
   * extract_rule_short of a "; "-joined list of trimmed, ';'-free messages:
   * the first word of each message, each once, in order of first appearance.
   */
  lemma RuleShortOfJoined(ms: seq<string>)
    requires forall k :: 0 <= k < |ms| ==> Trimmed(ms[k]) && ';' !in ms[k]
    ensures RuleShortOf(Some(Join(ms, "; "))) == Join(Distinct(FirstWords(ms)), ", ")
  {
    if ms == [] {
      assert Strip("") == "";
    } else {
      JoinedNotBlank(ms);
      JoinedPartsStrip(ms);
      TokensOfTrimmed(Split(Join(ms, "; "), ';'), ms);
    }
  }

  /** A list without repeats is its own distinct list. */
  lemma {:induction false} DistinctOfDistinct(ts: seq<string>)
    requires forall a, b :: 0 <= a < b < |ts| ==> ts[a] != ts[b]
    ensures Distinct(ts) == ts
  {
    if ts != [] {
      var n := |ts| - 1;
      DistinctOfDistinct(ts[..n]);
      assert ts[n] !in ts[..n];
      assert ts == ts[..n] + [ts[n]];
    }
  }
}
