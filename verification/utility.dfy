/**
 * The word splitter shared by the startup-file loader and the operator console
 * (VU.Server/Utility.cs). It returns the successive matches of the regular
 * expression `["].+?["]|[^ ]+`, scanned left to right: at each position either a
 * double-quoted span (lazy, so it ends at the first usable closing quote) or,
 * failing that, a maximal run of characters other than the space ' '.
 */
module Utility {
  import opened Wrappers

  /** A match of the pattern: the characters s[start..end]. */
  datatype Span = Span(start: nat, end: nat)

  predicate InSpan(sp: Span, k: int)
  {
    sp.start <= k < sp.end
  }

  /** Character k of `s` lies inside one of the spans. */
  predicate Covered(spans: seq<Span>, k: int)
  {
    exists i :: 0 <= i < |spans| && InSpan(spans[i], k)
  }

  /**
   * `q` can close a quoted match opened at `open`: `.+?` consumed at least one
   * character, none of them a line feed (`.` does not match '\n'), and s[q] is '"'.
   */
  predicate ClosesAt(s: string, open: nat, q: int)
  {
    open + 2 <= q < |s| && s[q] == '"' && forall j :: open < j < q ==> s[j] != '\n'
  }

  /** The lazy `.+?`: the least position at or after `q` that closes the quote opened at `open`. */
  function ClosingQuote(s: string, open: nat, q: nat): (r: Option<nat>)
    requires open + 2 <= q <= |s| + 1
    requires forall j :: open < j < q - 1 ==> s[j] != '\n'
    decreases |s| - q
    ensures r.Some? ==> q <= r.value && ClosesAt(s, open, r.value)
    ensures r.Some? ==> forall k :: q <= k < r.value ==> !ClosesAt(s, open, k)
    ensures r.None? ==> forall k :: q <= k ==> !ClosesAt(s, open, k)
  {
    if q >= |s| then None
    else if s[q - 1] == '\n' then
      assert forall k :: q <= k ==> !ClosesAt(s, open, k) by {
        forall k | q <= k ensures !ClosesAt(s, open, k) {
          if k < |s| { assert open < q - 1 < k && s[q - 1] == '\n'; }
        }
      }
      None
    else if s[q] == '"' then Some(q)
    else ClosingQuote(s, open, q + 1)
  }

  /** The greedy `[^ ]+`: the end of the run of non-space characters that starts at `i`. */
  function RunEnd(s: string, i: nat): (r: nat)
    requires i <= |s|
    decreases |s| - i
    ensures i <= r <= |s|
    ensures forall j :: i <= j < r ==> s[j] != ' '
    ensures r == |s| || s[r] == ' '
  {
    if i == |s| || s[i] == ' ' then i else RunEnd(s, i + 1)
  }

  /** A match that the quoted alternative produced. */
  predicate IsQuoted(s: string, sp: Span)
  {
    sp.start + 3 <= sp.end <= |s| && s[sp.start] == '"' && s[sp.end - 1] == '"'
  }

  /** A match that the run alternative produced. */
  predicate IsRun(s: string, sp: Span)
  {
    sp.end <= |s| && forall j :: sp.start <= j < sp.end ==> s[j] != ' '
  }

  /** What the quoted alternative matches: an opening '"' up to the first '"' that can close it. */
  ghost predicate IsFirstQuote(s: string, sp: Span)
  {
    && sp.start < |s| && s[sp.start] == '"' && ClosesAt(s, sp.start, sp.end - 1)
    && forall k :: sp.start <= k < sp.end - 1 ==> !ClosesAt(s, sp.start, k)
  }

  /** What the run alternative matches: non-spaces up to the next space or the end of the input. */
  predicate IsLongestRun(s: string, sp: Span)
  {
    IsRun(s, sp) && (sp.end == |s| || s[sp.end] == ' ')
  }

  /**
   * The end of the match that starts at a non-space position p: the first closing quote, or
   * the end of the run; a match that does not start with '"' is always the whole run.
   */
  function MatchEnd(s: string, p: nat): (e: nat)
    requires p < |s| && s[p] != ' '
    ensures p < e <= |s|
    ensures IsQuoted(s, Span(p, e)) || IsRun(s, Span(p, e))
    ensures IsFirstQuote(s, Span(p, e)) || IsLongestRun(s, Span(p, e))
    ensures s[p] != '"' ==> IsLongestRun(s, Span(p, e))
  {
    if s[p] == '"' then
      match ClosingQuote(s, p, p + 2)
      case Some(q) => q + 1
      case None => RunEnd(s, p)
    else RunEnd(s, p)
  }

  /** The matches found by scanning `s` from position p: a space matches neither alternative and is skipped. */
  function MatchSpans(s: string, p: nat): (r: seq<Span>)
    requires p <= |s|
    decreases |s| - p
    ensures forall i :: 0 <= i < |r| ==> p <= r[i].start < r[i].end <= |s|
    ensures forall i, j :: 0 <= i < j < |r| ==> r[i].end <= r[j].start
    ensures forall i :: 0 <= i < |r| ==> IsQuoted(s, r[i]) || IsRun(s, r[i])
    ensures forall i :: 0 <= i < |r| ==> r[i].start < |s| && s[r[i].start] != ' ' && r[i].end == MatchEnd(s, r[i].start)
  {
    if p == |s| then []
    else if s[p] == ' ' then MatchSpans(s, p + 1)
    else
      var e := MatchEnd(s, p);
      [Span(p, e)] + MatchSpans(s, e)
  }

  /** `Utility.SplitStringBySpace`: the text of every match, in order. */
  function SplitStringBySpace(s: string): (r: seq<string>)
    ensures |r| == |MatchSpans(s, 0)|
    ensures forall i :: 0 <= i < |r| ==> r[i] != []
    ensures forall i :: 0 <= i < |r| && ' ' in r[i] ==>
              |r[i]| >= 3 && r[i][0] == '"' && r[i][|r[i]| - 1] == '"'
  {
    var spans := MatchSpans(s, 0);
    seq(|spans|, i requires 0 <= i < |spans| => s[spans[i].start..spans[i].end])
  }

  /** Every token is the text of its match. */
  lemma TokensAreSubstrings(s: string)
    ensures var spans, r := MatchSpans(s, 0), SplitStringBySpace(s);
      forall i :: 0 <= i < |r| ==> r[i] == s[spans[i].start..spans[i].end]
  {
  }

  /** Putting a span in front keeps every covered character covered and covers the span's own characters. */
  lemma CoveredCons(sp: Span, rest: seq<Span>, k: int)
    requires InSpan(sp, k) || Covered(rest, k)
    ensures Covered([sp] + rest, k)
  {
    var r := [sp] + rest;
    if InSpan(sp, k) {
      assert InSpan(r[0], k);
    } else {
      var i :| 0 <= i < |rest| && InSpan(rest[i], k);
      assert InSpan(r[i + 1], k);
    }
  }

  /** Every character other than ' ' from position p on lies in a match. */
  lemma {:induction false} MatchesCover(s: string, p: nat)
    requires p <= |s|
    ensures forall k :: p <= k < |s| && s[k] != ' ' ==> Covered(MatchSpans(s, p), k)
    decreases |s| - p
  {
    if p < |s| && s[p] == ' ' {
      MatchesCover(s, p + 1);
      var r := MatchSpans(s, p);
      assert r == MatchSpans(s, p + 1);
      forall k | p <= k < |s| && s[k] != ' ' ensures Covered(r, k) {
        assert p + 1 <= k;
      }
    } else if p < |s| {
      var e := MatchEnd(s, p);
      var rest := MatchSpans(s, e);
      MatchesCover(s, e);
      var r := MatchSpans(s, p);
      assert r == [Span(p, e)] + rest;
      forall k | p <= k < |s| && s[k] != ' ' ensures Covered(r, k) {
        CoveredCons(Span(p, e), rest, k);
      }
    }
  }

  /** No character lies in two matches. */
  lemma MatchesDisjoint(s: string, p: nat)
    requires p <= |s|
    ensures var r := MatchSpans(s, p);
      forall i, j, k :: 0 <= i < |r| && 0 <= j < |r| && InSpan(r[i], k) && InSpan(r[j], k) ==> i == j
  {
  }

  /**
   * Every character that is not ' ' lies in a match, every character outside the matches
   * is ' ' (a tab or line feed is a token character), and no character lies in two matches.
   */
  lemma MatchesCoverNonSpaces(s: string, p: nat)
    requires p <= |s|
    ensures var r := MatchSpans(s, p);
      forall k :: p <= k < |s| ==> (s[k] != ' ' ==> Covered(r, k)) && (!Covered(r, k) ==> s[k] == ' ')
    ensures var r := MatchSpans(s, p);
      forall i, j, k :: 0 <= i < |r| && 0 <= j < |r| && InSpan(r[i], k) && InSpan(r[j], k) ==> i == j
  {
    MatchesCover(s, p);
    MatchesDisjoint(s, p);
  }

  /** The input yields no token exactly when it is empty or made of spaces only. */
  lemma {:induction false} NoTokensIffBlank(s: string, p: nat)
    requires p <= |s|
    ensures MatchSpans(s, p) == [] <==> forall k :: p <= k < |s| ==> s[k] == ' '
    decreases |s| - p
  {
    if p < |s| && s[p] == ' ' {
      NoTokensIffBlank(s, p + 1);
    }
  }

  lemma EmptyTokenListIffBlank(s: string)
    ensures SplitStringBySpace(s) == [] <==> forall k :: 0 <= k < |s| ==> s[k] == ' '
  {
    NoTokensIffBlank(s, 0);
  }

  /**
   * At a '"' the quoted alternative wins when some later '"' can close it, and the match then
   * ends at the FIRST such quote; otherwise the '"' begins an ordinary run.
   */
  lemma QuotedMatchIsLazy(s: string, p: nat)
    requires p < |s| && s[p] == '"'
    ensures var e := MatchEnd(s, p);
      (exists q :: ClosesAt(s, p, q)) ==>
        ClosesAt(s, p, e - 1) && forall k :: k < e - 1 ==> !ClosesAt(s, p, k)
    ensures (forall q :: !ClosesAt(s, p, q)) ==> MatchEnd(s, p) == RunEnd(s, p)
  {
  }

  /** A quoted argument is one token and keeps its quotes. */
  lemma QuotedArgumentExample(s: string)
    requires s == "admin.say \"hello world\" now"
    ensures SplitStringBySpace(s) == ["admin.say", "\"hello world\"", "now"]
  {
    QuotedArgumentSpans(s);
    var r := SplitStringBySpace(s);
    TokensAreSubstrings(s);
    assert r[0] == "admin.say" by { assert s[0..9] == "admin.say"; }
    assert r[1] == "\"hello world\"" by { assert s[10..23] == "\"hello world\""; }
    assert r[2] == "now" by { assert s[24..27] == "now"; }
  }

  lemma QuotedArgumentEnds(s: string)
    requires s == "admin.say \"hello world\" now"
    ensures s[0] != ' ' && s[10] != ' ' && s[24] != ' '
    ensures MatchEnd(s, 0) == 9 && MatchEnd(s, 10) == 23 && MatchEnd(s, 24) == 27
  {
    RunEndIs(s, 0, 9);
    assert forall k :: k < 22 ==> !ClosesAt(s, 10, k) by {
      assert forall k :: 12 <= k < 22 ==> s[k] != '"';
    }
    ClosingQuoteIs(s, 10, 22);
    RunEndIs(s, 24, 27);
  }

  lemma QuotedArgumentSpans(s: string)
    requires s == "admin.say \"hello world\" now"
    ensures MatchSpans(s, 0) == [Span(0, 9), Span(10, 23), Span(24, 27)]
  {
    QuotedArgumentEnds(s);
    assert MatchSpans(s, 24) == [Span(24, 27)] + MatchSpans(s, 27);
    assert MatchSpans(s, 23) == MatchSpans(s, 24);
    assert MatchSpans(s, 10) == [Span(10, 23)] + MatchSpans(s, 23);
    assert MatchSpans(s, 9) == MatchSpans(s, 10);
    assert MatchSpans(s, 0) == [Span(0, 9)] + MatchSpans(s, 9);
  }

  /** An unclosed quote does not join words. */
  lemma UnclosedQuoteExample(s: string)
    requires s == "\"abc def"
    ensures SplitStringBySpace(s) == ["\"abc", "def"]
  {
    assert forall q :: !ClosesAt(s, 0, q);
    RunEndIs(s, 0, 4);
    RunEndIs(s, 5, 8);
    assert MatchSpans(s, 5) == [Span(5, 8)];
    assert MatchSpans(s, 0) == [Span(0, 4), Span(5, 8)];
    TokensAreSubstrings(s);
    assert s[0..4] == "\"abc";
    assert s[5..8] == "def";
  }

  lemma RunEndIs(s: string, i: nat, e: nat)
    requires i <= e <= |s|
    requires forall j :: i <= j < e ==> s[j] != ' '
    requires e == |s| || s[e] == ' '
    ensures RunEnd(s, i) == e
  {
  }

  lemma ClosingQuoteIs(s: string, open: nat, q: nat)
    requires open < |s| && ClosesAt(s, open, q)
    requires forall k :: k < q ==> !ClosesAt(s, open, k)
    ensures ClosingQuote(s, open, open + 2) == Some(q)
  {
  }
}
