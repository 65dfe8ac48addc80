/** Issue bodies as the migration reads them: text with source-marker comments
    that open and close a generated region. */
module IssueBody {
  /** `Open(m)` and `Close(m)` are the comments `<!-- optimus-source: m -->` and `<!-- /optimus-source: m -->`. */
  datatype Token = Open(marker: string) | Close(marker: string) | Text(c: char)

  type Body = seq<Token>

  function Count(b: Body, t: Token): nat {
    multiset(b)[t]
  }

  /** The markers of the opening comments, in order. */
  function Opens(b: Body): seq<string> {
    if b == [] then []
    else Opens(b[..|b| - 1]) + (if b[|b| - 1].Open? then [b[|b| - 1].marker] else [])
  }

  function Closes(b: Body): seq<string> {
    if b == [] then []
    else Closes(b[..|b| - 1]) + (if b[|b| - 1].Close? then [b[|b| - 1].marker] else [])
  }

  /** The number of characters a body takes. */
  function Length(b: Body): nat {
    if b == [] then 0
    else Length(b[..|b| - 1]) + match b[|b| - 1]
      case Open(m) => |"<!-- optimus-source: "| + |m| + |" -->"|
      case Close(m) => |"<!-- /optimus-source: "| + |m| + |" -->"|
      case Text(_) => 1
  }

  lemma CountAppend<T>(s: seq<T>, x: T, y: T)
    ensures multiset(s + [x])[y] == multiset(s)[y] + if x == y then 1 else 0
  {
    assert multiset(s + [x]) == multiset(s) + multiset{x};
  }

  lemma {:induction false} OpensCount(b: Body, m: string)
    ensures multiset(Opens(b))[m] == Count(b, Open(m))
  {
    if b != [] {
      var front, last := b[..|b| - 1], b[|b| - 1];
      OpensCount(front, m);
      assert b == front + [last];
      CountAppend(front, last, Open(m));
      if last.Open? { CountAppend(Opens(front), last.marker, m); }
    }
  }

  lemma {:induction false} ClosesCount(b: Body, m: string)
    ensures multiset(Closes(b))[m] == Count(b, Close(m))
  {
    if b != [] {
      var front, last := b[..|b| - 1], b[|b| - 1];
      ClosesCount(front, m);
      assert b == front + [last];
      CountAppend(front, last, Close(m));
      if last.Close? { CountAppend(Closes(front), last.marker, m); }
    }
  }

  function IndexOf(b: Body, t: Token): (i: nat)
    requires t in b
    ensures i < |b| && b[i] == t && t !in b[..i]
  {
    if b[0] == t then 0 else 1 + IndexOf(b[1..], t)
  }

  datatype Region = Span(start: nat, end: nat) | MarkerCopies(copies: nat) | NoRegionEnd | Malformed

  /** The span of the one well-formed generated region for `m`, or why there is none. */
  function GeneratedRegion(b: Body, m: string): (r: Region)
    ensures r.Span? ==> r.start < r.end <= |b|
  {
    if Count(b, Open(m)) != 1 then MarkerCopies(Count(b, Open(m)))
    else if Count(b, Close(m)) == 0 then NoRegionEnd
    else if Count(b, Close(m)) != 1 || IndexOf(b, Close(m)) < IndexOf(b, Open(m)) then Malformed
    else Span(IndexOf(b, Open(m)), IndexOf(b, Close(m)) + 1)
  }

  predicate Clean(b: Body, m: string) {
    Open(m) !in b && Close(m) !in b
  }

  /** `b` is `before`, an opening comment, `inner`, a closing comment and `after`, with no other comment for `m`. */
  ghost predicate Framed(b: Body, m: string, before: Body, inner: Body, after: Body) {
    && b == before + [Open(m)] + inner + [Close(m)] + after
    && Clean(before, m) && Clean(inner, m) && Clean(after, m)
  }

  lemma CountOne(before: Body, t: Token, after: Body)
    requires t !in before && t !in after
    ensures Count(before + [t] + after, t) == 1
    ensures IndexOf(before + [t] + after, t) == |before|
  {
    var b := before + [t] + after;
    assert b[|before|] == t;
    assert forall i :: 0 <= i < |before| ==> b[i] == before[i];
    assert forall i :: |before| < i <= |b| ==> b[..i][|before|] == t;
  }

  lemma FramedRegion(b: Body, m: string, before: Body, inner: Body, after: Body)
    requires Framed(b, m, before, inner, after)
    ensures GeneratedRegion(b, m) == Span(|before|, |before| + |inner| + 2)
  {
    var rest := inner + [Close(m)] + after;
    assert Open(m) !in rest;
    assert b == before + [Open(m)] + rest;
    CountOne(before, Open(m), rest);
    var front := before + [Open(m)] + inner;
    assert Close(m) !in front;
    assert b == front + [Close(m)] + after;
    CountOne(front, Close(m), after);
  }

  lemma FiveParts(b: Body, s: nat, e: nat)
    requires s + 2 <= e <= |b|
    ensures b == b[..s] + [b[s]] + b[s + 1..e - 1] + [b[e - 1]] + b[e..]
  {
  }

  lemma OnceEach(before: Body, x: Token, inner: Body, y: Token, after: Body, b: Body)
    requires b == before + [x] + inner + [y] + after && x != y && Count(b, x) == 1 && Count(b, y) == 1
    ensures x !in before && x !in inner && x !in after && y !in before && y !in inner && y !in after
  {
    assert multiset(b) == multiset(before) + multiset{x} + multiset(inner) + multiset{y} + multiset(after);
  }

  /** A found region splits its body into what is before it, its inner text and what is after it. */
  lemma RegionSplits(b: Body, m: string, s: nat, e: nat)
    requires GeneratedRegion(b, m) == Span(s, e)
    ensures s + 2 <= e <= |b| && Framed(b, m, b[..s], b[s + 1..e - 1], b[e..])
  {
    assert b[s] == Open(m) && b[e - 1] == Close(m) && s < e - 1;
    FiveParts(b, s, e);
    OnceEach(b[..s], Open(m), b[s + 1..e - 1], Close(m), b[e..], b);
  }

  /** The region is found exactly when the body is framed, and then it is the framed part. */
  lemma RegionIsFramed(b: Body, m: string)
    ensures GeneratedRegion(b, m).Span? <==> exists before, inner, after :: Framed(b, m, before, inner, after)
  {
    if GeneratedRegion(b, m).Span? {
      RegionSplits(b, m, GeneratedRegion(b, m).start, GeneratedRegion(b, m).end);
    }
    forall before, inner, after | Framed(b, m, before, inner, after) ensures GeneratedRegion(b, m).Span? {
      FramedRegion(b, m, before, inner, after);
    }
  }

  /** The text a rewrite leaves alone, on both sides of the region. */
  function Rewritten(b: Body, m: string, region: Body): Body
    requires GeneratedRegion(b, m).Span?
  {
    var Span(s, e) := GeneratedRegion(b, m);
    b[..s] + region + b[e..]
  }

  function RegionText(m: string, inner: Body): Body {
    [Open(m)] + inner + [Close(m)]
  }

  lemma AroundRegion(b: Body, m: string, before: Body, prior: Body, after: Body)
    requires b == before + [Open(m)] + prior + [Close(m)] + after
    ensures |before| + |prior| + 2 <= |b| && b[..|before|] == before && b[|before| + |prior| + 2..] == after
  {
  }

  lemma Regrouped(before: Body, m: string, inner: Body, after: Body)
    ensures before + RegionText(m, inner) + after == before + [Open(m)] + inner + [Close(m)] + after
  {
  }

  lemma RewriteFramed(b: Body, m: string, before: Body, prior: Body, after: Body, inner: Body)
    requires Framed(b, m, before, prior, after) && Clean(inner, m)
    ensures GeneratedRegion(b, m).Span?
    ensures Rewritten(b, m, RegionText(m, inner)) == before + RegionText(m, inner) + after
    ensures Framed(before + RegionText(m, inner) + after, m, before, inner, after)
  {
    FramedRegion(b, m, before, prior, after);
    AroundRegion(b, m, before, prior, after);
    Regrouped(before, m, inner, after);
  }

  /** Rewriting with a region that carries only its own comments keeps every token outside the old region, leaves
      exactly one well-formed region, and rewriting again changes nothing. */
  lemma RewriteKeepsTheRest(b: Body, m: string, s: nat, e: nat, inner: Body)
    requires GeneratedRegion(b, m) == Span(s, e) && Clean(inner, m)
    ensures var b' := Rewritten(b, m, RegionText(m, inner));
            && Framed(b', m, b[..s], inner, b[e..])
            && GeneratedRegion(b', m) == Span(s, s + |inner| + 2)
            && Rewritten(b', m, RegionText(m, inner)) == b'
  {
    RegionSplits(b, m, s, e);
    var before, after := b[..s], b[e..];
    RewriteFramed(b, m, before, b[s + 1..e - 1], after, inner);
    var b' := before + RegionText(m, inner) + after;
    FramedRegion(b', m, before, inner, after);
    RewriteFramed(b', m, before, inner, after, inner);
  }

  /** A rewrite changes nothing exactly when the region already has the new text. */
  lemma RewriteUnchanged(b: Body, m: string, region: Body)
    requires GeneratedRegion(b, m).Span?
    ensures Rewritten(b, m, region) == b <==> b[GeneratedRegion(b, m).start..GeneratedRegion(b, m).end] == region
  {
    var Span(s, e) := GeneratedRegion(b, m);
    assert b == b[..s] + b[s..e] + b[e..];
    if b[..s] + region + b[e..] == b {
      assert |region| == e - s;
      assert (b[..s] + region + b[e..])[s..e] == region;
    }
  }

  lemma RegionInner(b: Body, m: string, s: nat, e: nat, inner: Body)
    requires s <= e <= |b| && b[s..e] == RegionText(m, inner)
    ensures s + 2 <= e && b[s + 1..e - 1] == inner
  {
    assert |b[s..e]| == |inner| + 2;
    forall i | 0 <= i < |inner| ensures b[s + 1..e - 1][i] == inner[i] {
      assert b[s..e][1 + i] == RegionText(m, inner)[1 + i];
    }
  }

  /** A region with the text of a draft frames the body around it. */
  lemma RegionFrames(b: Body, m: string, s: nat, e: nat, inner: Body)
    requires GeneratedRegion(b, m) == Span(s, e) && b[s..e] == RegionText(m, inner)
    ensures Framed(b, m, b[..s], inner, b[e..])
  {
    RegionSplits(b, m, s, e);
    RegionInner(b, m, s, e, inner);
  }
}
