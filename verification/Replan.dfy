/** Plan, apply, record the new issue numbers, plan again: when the second plan is empty. */
module Replan {
  import opened Common
  import opened IssueBody
  import opened Labels
  import opened Inventory
  import opened Planner
  import opened PlanFacts
  import opened IdealGitHub
  import opened Reconciler

  // ---- what every draft carries ----

  lemma RecordLabelsShape(r: Record, trial: bool)
    ensures WantedShape(RecordLabels(r, trial))
  {
    var wanted := RecordLabels(r, trial);
    forall d | d in DIMENSIONS ensures LabelFor(r, d) in wanted && HasPrefix(LabelFor(r, d), d) {
    }
    forall d, l | d in DIMENSIONS && l in wanted && HasPrefix(l, d) ensures l == LabelFor(r, d) {
      PrefixIsInDimension(l, d);
      OneDimension(l, d, d);
      var e :| e in DIMENSIONS && LabelFor(r, e) == l;
      PrefixIsInDimension(l, e);
      OneDimension(l, d, e);
    }
  }

  lemma DefaultsKnown(x: PlanInput, d: Draft)
    requires d in x.drafts && x.scope.None? && LabelsPeaceful(x) && PolicySound(x.policy)
    ensures KnownDefaults(x.policy.vocabulary, d.labels)
  {
  }

  /** A new issue's own labels: merging them again changes nothing. */
  lemma FreshLabels(v: Vocabulary, wanted: set<string>, sourced: bool)
    requires WantedShape(wanted) && KnownDefaults(v, wanted)
    ensures LabelClashes(v, wanted, sourced, wanted) == {} && MergedLabels(v, wanted, sourced, wanted) == wanted
  {
    assert forall d :: Present({}, d) == {};
    forall d | d in DEFAULTED_DIMENSIONS ensures d !in LabelClashes(v, wanted, sourced, {}) {
      assert d in DIMENSIONS;
      var l :| l in wanted && HasPrefix(l, d);
      assert l in {} + wanted && Settles(v, wanted, sourced, {}, d, l);
    }
    forall l | l in wanted ensures Kept(v, wanted, sourced, {}, l) {
      if !FromSource(l) {
        var d :| d in DIMENSIONS && HasPrefix(l, d);
        assert d in DEFAULTED_DIMENSIONS;
        assert Settles(v, wanted, sourced, {}, d, l);
      }
    }
    assert MergedLabels(v, wanted, sourced, {}) == wanted;
    MergeIsIdempotent(v, wanted, sourced, {});
  }

  /** A draft that carries exactly its own comments has no comment inside its region. */
  lemma InnerHasNoComment(d: Draft, m: string)
    requires OwnMarkersOnly(d)
    ensures Open(m) !in d.inner && Close(m) !in d.inner
  {
    var body := DraftBody(d);
    OpensCount(body, m);
    ClosesCount(body, m);
    assert body == [Open(d.marker)] + d.inner + [Close(d.marker)] + [Text('\n')];
    assert multiset(body) ==
             multiset{Open(d.marker)} + multiset(d.inner) + multiset{Close(d.marker)} + multiset{Text('\n')};
  }

  // ---- which issue carries which marker ----

  /** What the theorems need of the first plan: full, over sound targets, and without conflicts. */
  ghost predicate Ready(x: PlanInput, trial: bool, alloc: map<Id, IssueRef>) {
    FullPlan(x, trial, alloc) && Peaceful(x)
  }

  lemma CarriesIsMarked(hits: map<string, seq<int>>, issues: map<int, Issue>, n: int, m: string)
    requires HitsSound(hits, issues) && n in issues
    ensures Open(m) in issues[n].body <==> n in Marked(hits, m)
    ensures m in hits <==> Marked(hits, m) != []
  {
    assert multiset(Marked(hits, m))[n] == Count(issues[n].body, Open(m));
  }

  lemma MarkedOnce(hits: map<string, seq<int>>, issues: map<int, Issue>, n: int, m: string)
    requires HitsSound(hits, issues)
    ensures Marked(hits, m) == [n] <==>
              n in issues && Count(issues[n].body, Open(m)) == 1
              && forall k :: k in issues && k != n ==> Open(m) !in issues[k].body
  {
    var marked := Marked(hits, m);
    if && n in issues
       && Count(issues[n].body, Open(m)) == 1
       && forall k :: k in issues && k != n ==> Open(m) !in issues[k].body
    {
      assert multiset(marked) == multiset{n} by {
        forall k ensures multiset(marked)[k] == multiset{n}[k] {
          if k in issues && k != n { assert Count(issues[k].body, Open(m)) == 0; }
        }
      }
      assert |marked| == |multiset(marked)| == 1;
      assert marked[0] in multiset(marked);
    }
    if marked == [n] {
      assert multiset(marked)[n] == 1;
      forall k | k in issues && k != n ensures Open(m) !in issues[k].body {
        assert multiset(marked)[k] == 0 == Count(issues[k].body, Open(m));
      }
    }
  }

  /** Before the plan runs, a marker on an issue belongs to the one record that targets that issue. */
  lemma MarkerHasTarget(x: PlanInput, trial: bool, alloc: map<Id, IssueRef>, n: int, m: string) returns (r: Record)
    requires Ready(x, trial, alloc) && n in x.issues && Open(m) in x.issues[n].body
    ensures r in x.inventory.records && Drafted(r) && SourceMarker(r.id) == m && r.targetIssue == Some(n)
    ensures Count(x.issues[n].body, Open(m)) == 1
  {
    CarriesIsMarked(x.hits, x.issues, n, m);
    assert |x.hits[m]| == 1 && x.hits[m] == [n];
    assert Count(x.issues[n].body, Open(m)) == 1 by { MarkedOnce(x.hits, x.issues, n, m); }
    var d :| d in x.drafts && d.marker == m;
    r := DraftedOnTarget(x, trial, alloc, d, n);
  }

  lemma DraftedOnTarget(x: PlanInput, trial: bool, alloc: map<Id, IssueRef>, d: Draft, n: int) returns (r: Record)
    requires Ready(x, trial, alloc) && n in x.issues && Open(d.marker) in x.issues[n].body && d in x.drafts
    requires d.marker in x.hits && x.hits[d.marker] == [n] && Count(x.issues[n].body, Open(d.marker)) == 1
    ensures r in x.inventory.records && Drafted(r) && SourceMarker(r.id) == d.marker && r.targetIssue == Some(n)
  {
    DraftIssuesMember(x.inventory.records, trial, d);
    r :| r in x.inventory.records && Drafted(r) && d == DraftOf(r, trial);
    TargetIsMarked(x, trial, alloc, r);
    if r.targetIssue.Some? { CarriesIsMarked(x.hits, x.issues, r.targetIssue.value, d.marker); }
  }

  /** In a full plan a record without a target has no marked issue, and one with a target has its marker there. */
  lemma TargetIsMarked(x: PlanInput, trial: bool, alloc: map<Id, IssueRef>, r: Record)
    requires FullPlan(x, trial, alloc) && r in x.inventory.records && Drafted(r)
    ensures r.targetIssue.None? ==> Marked(x.hits, SourceMarker(r.id)) == []
    ensures r.targetIssue.Some? ==>
              r.targetIssue.value in x.issues && Open(SourceMarker(r.id)) in x.issues[r.targetIssue.value].body
  {
    DraftedRecordPlan(x, trial, alloc, r);
    if r.targetIssue.Some? { TargetedPlan(x, r, DraftOf(r, trial)); }
  }

  /** The body an update writes, when the draft has no comment inside its region. */
  lemma UpdatedIsFramed(x: PlanInput, r: Record, d: Draft, issue: Issue) returns (before: Body, after: Body)
    requires UpdatedBody(x, r, d, issue).Fresh? && Clean(d.inner, d.marker)
    ensures Framed(UpdatedBody(x, r, d, issue).body, d.marker, before, d.inner, after)
    ensures forall t :: t in before || t in after ==> t in issue.body
  {
    if GeneratedRegion(issue.body, d.marker).Span? {
      var s, e := GeneratedRegion(issue.body, d.marker).start, GeneratedRegion(issue.body, d.marker).end;
      before, after := issue.body[..s], issue.body[e..];
      RewriteKeepsTheRest(issue.body, d.marker, s, e, d.inner);
    } else {
      before, after := [], [];
      assert DraftRegion(d) == before + [Open(d.marker)] + d.inner + [Close(d.marker)] + after;
    }
  }

  lemma CreatedIsFramed(d: Draft)
    requires Clean(d.inner, d.marker)
    ensures Framed(DraftBody(d), d.marker, [], d.inner, [Text('\n')])
  {
    assert DraftBody(d) == [] + [Open(d.marker)] + d.inner + [Close(d.marker)] + [Text('\n')];
  }

  lemma DraftIsClean(x: PlanInput, d: Draft)
    requires DraftsPeaceful(x) && x.scope.None? && d in x.drafts
    ensures forall m :: Open(m) !in d.inner && Close(m) !in d.inner
  {
    forall m ensures Open(m) !in d.inner && Close(m) !in d.inner { InnerHasNoComment(d, m); }
  }

  /** A drafted record's issue ends with exactly one region, holding its draft, and with no other opening comment. */
  lemma SettledBody(x: PlanInput, trial: bool, alloc: map<Id, IssueRef>, r: Record) returns (before: Body, after: Body)
    requires Ready(x, trial, alloc) && r in x.inventory.records && Drafted(r)
    ensures Framed(Settled(x, trial, alloc, r).body, SourceMarker(r.id), before, r.inner, after)
    ensures forall m :: Open(m) !in before && Open(m) !in after && Open(m) !in r.inner
  {
    var d := DraftOf(r, trial);
    assert d in x.drafts by { DraftsFound(x, trial); }
    DraftIsClean(x, d);
    DraftedRecordPlan(x, trial, alloc, r);
    if r.targetIssue.None? {
      before, after := [], [Text('\n')];
      CreatedIsFramed(d);
    } else {
      TargetedPlan(x, r, d);
      before, after := UpdatedIsFramed(x, r, d, x.issues[r.targetIssue.value]);
      NoOtherComment(x, trial, alloc, r, before, after);
    }
  }

  lemma NoOtherComment(x: PlanInput, trial: bool, alloc: map<Id, IssueRef>, r: Record, before: Body, after: Body)
    requires Ready(x, trial, alloc) && r in x.inventory.records && Drafted(r) && r.targetIssue.Some?
             && r.targetIssue.value in x.issues
    requires forall t :: t in before || t in after ==> t in x.issues[r.targetIssue.value].body
    requires Open(SourceMarker(r.id)) !in before && Open(SourceMarker(r.id)) !in after
    ensures forall m :: Open(m) !in before && Open(m) !in after
  {
    forall m ensures Open(m) !in before && Open(m) !in after {
      if Open(m) in before || Open(m) in after {
        var q := MarkerHasTarget(x, trial, alloc, r.targetIssue.value, m);
        SameTargetSameRecord(x.inventory.records, q, r);
        assert false;
      }
    }
  }

  /** No two drafted records share a source marker. */
  ghost predicate MarkersDistinct(records: seq<Record>) {
    forall r, r' ::
      r in records && r' in records && Drafted(r) && Drafted(r') && r != r' ==>
        SourceMarker(r.id) != SourceMarker(r'.id)
  }

  // ---- recording the numbers ----

  /** The issue number of every migrating record once the plan is applied. */
  function NumbersAfter(x: PlanInput, alloc: map<Id, IssueRef>): map<Id, int> {
    map id | id in Migrating(x.inventory.records) && (id in Reused(x, x.inventory.records) || id in alloc) ::
      RefAfter(x, alloc, id).number
  }

  /** The second plan's input: the applied repository and the inventory with every number recorded. */
  function Next(x: PlanInput, alloc: map<Id, IssueRef>, g: GitHub, hits: map<string, seq<int>>): PlanInput {
    x.(inventory := x.inventory.(records := RetargetAll(x.inventory.records, NumbersAfter(x, alloc))),
       issues := g.issues, hits := hits, labels := g.labels)
  }

  lemma RetargetMember(records: seq<Record>, m: map<Id, int>, r': Record)
    ensures r' in RetargetAll(records, m) <==> exists r :: r in records && r' == Retargeted(r, m)
  {
    var after := RetargetAll(records, m);
    assert forall i :: 0 <= i < |records| ==> after[i] == Retargeted(records[i], m);
    if r :| r in records && r' == Retargeted(r, m) {
      var i :| 0 <= i < |records| && records[i] == r;
      assert after[i] == r';
    }
  }

  lemma RetargetKeepsRecord(r: Record, m: map<Id, int>, trial: bool)
    ensures Drafted(Retargeted(r, m)) == Drafted(r) && DraftOf(Retargeted(r, m), trial) == DraftOf(r, trial)
            && Retargeted(r, m).id == r.id
  {
    assert RecordLabels(Retargeted(r, m), trial) == RecordLabels(r, trial) by {
      assert forall d :: LabelFor(Retargeted(r, m), d) == LabelFor(r, d);
    }
  }

  lemma {:induction false} RetargetKeepsDrafts(records: seq<Record>, m: map<Id, int>, trial: bool)
    ensures DraftIssues(RetargetAll(records, m), trial) == DraftIssues(records, trial)
  {
    if records != [] {
      var front, last := records[..|records| - 1], records[|records| - 1];
      RetargetKeepsDrafts(front, m, trial);
      RetargetKeepsRecord(last, m, trial);
      var after := RetargetAll(records, m);
      assert after[..|records| - 1] == RetargetAll(front, m);
      assert after[|records| - 1] == Retargeted(last, m);
    }
  }

  lemma RetargetKeepsIds(records: seq<Record>, m: map<Id, int>)
    requires DistinctKeys(records, IdOf)
    ensures DistinctKeys(RetargetAll(records, m), IdOf)
  {
    assert forall i :: 0 <= i < |records| ==> IdOf(RetargetAll(records, m)[i]) == IdOf(records[i]);
  }

  // ---- the second plan, record by record ----

  lemma SettledLabels(x: PlanInput, trial: bool, alloc: map<Id, IssueRef>, r: Record)
    requires Ready(x, trial, alloc) && r in x.inventory.records && Drafted(r)
    ensures UpdateClashes(x, DraftOf(r, trial), Settled(x, trial, alloc, r)) == {}
    ensures UpdatedLabels(x, DraftOf(r, trial), Settled(x, trial, alloc, r)) == Settled(x, trial, alloc, r).labels
  {
    var d := DraftOf(r, trial);
    assert d in x.drafts by { DraftsFound(x, trial); }
    DefaultsKnown(x, d);
    RecordLabelsShape(r, trial);
    DraftedRecordPlan(x, trial, alloc, r);
    if r.targetIssue.None? {
      FreshLabels(x.policy.vocabulary, d.labels, d.basis != DefaultPriority);
    } else {
      TargetedPlan(x, r, d);
      MergeIsIdempotent(x.policy.vocabulary, d.labels, d.basis != DefaultPriority,
                        x.issues[r.targetIssue.value].labels);
    }
  }

  /** An issue that already matches its draft needs nothing: no conflict and no operation. */
  lemma QuietTarget(x: PlanInput, r: Record, d: Draft, issue: Issue, before: Body, after: Body)
    requires r.targetIssue.Some? && r.targetIssue.value in x.issues && x.issues[r.targetIssue.value] == issue
             && issue.state == "open"
    requires Framed(issue.body, d.marker, before, d.inner, after)
    requires UpdateClashes(x, d, issue) == {} && UpdatedLabels(x, d, issue) == issue.labels
    ensures PlanTargeted(x, r, d) == RecordPlan({}, Some(RefOf(issue)), None)
  {
    RewriteFramed(issue.body, d.marker, before, d.inner, after, d.inner);
    assert issue.body == before + RegionText(d.marker, d.inner) + after;
    assert ClashConflicts(r.id, UpdateClashes(x, d, issue)) == {};
    assert issue.body[|before|] == Open(d.marker);
  }

  lemma PlansItsTarget(x: PlanInput, r: Record, d: Draft)
    requires Drafted(r) && r.targetIssue.Some? && x.scope.None? && r.id in x.DraftsById() && x.DraftsById()[r.id] == d
    ensures PlanRecord(x, r) == PlanTargeted(x, r, d)
  {
  }

  lemma QuietDrafted(x: PlanInput, trial: bool, alloc: map<Id, IssueRef>, g: GitHub, hits: map<string, seq<int>>,
                     r: Record)
    requires Ready(x, trial, alloc) && Applied(x, trial, alloc, g) && r in x.inventory.records && Drafted(r)
    ensures r.id in NumbersAfter(x, alloc) && NumbersAfter(x, alloc)[r.id] == RefAfter(x, alloc, r.id).number
    ensures PlanRecord(Next(x, alloc, g, hits), Retargeted(r, NumbersAfter(x, alloc))) ==
              RecordPlan({}, Some(RefAfter(x, alloc, r.id)), None)
  {
    var x', r', d := Next(x, alloc, g, hits), Retargeted(r, NumbersAfter(x, alloc)), DraftOf(r, trial);
    assert x'.scope.None? && x'.DraftsById() == x.DraftsById();
    assert r.id in x.DraftsById() && x.DraftsById()[r.id] == d by { DraftsFound(x, trial); }
    RefAfterOf(x, trial, alloc, r);
    assert r.id in Migrating(x.inventory.records);
    PlansItsTarget(x', r', d);
    SettledTarget(x, trial, alloc, g, hits, r);
  }

  lemma SettledTarget(x: PlanInput, trial: bool, alloc: map<Id, IssueRef>, g: GitHub, hits: map<string, seq<int>>,
                      r: Record)
    requires Ready(x, trial, alloc) && Applied(x, trial, alloc, g) && r in x.inventory.records && Drafted(r)
    requires Retargeted(r, NumbersAfter(x, alloc)).targetIssue == Some(RefAfter(x, alloc, r.id).number)
    ensures PlanTargeted(Next(x, alloc, g, hits), Retargeted(r, NumbersAfter(x, alloc)), DraftOf(r, trial)) ==
              RecordPlan({}, Some(RefAfter(x, alloc, r.id)), None)
  {
    var issue := Settled(x, trial, alloc, r);
    SettledLabels(x, trial, alloc, r);
    var before, after := SettledBody(x, trial, alloc, r);
    RefAfterOf(x, trial, alloc, r);
    QuietTarget(Next(x, alloc, g, hits), Retargeted(r, NumbersAfter(x, alloc)), DraftOf(r, trial),
                issue, before, after);
  }

  lemma QuietExternal(x: PlanInput, trial: bool, alloc: map<Id, IssueRef>, g: GitHub, hits: map<string, seq<int>>,
                      r: Record)
    requires Ready(x, trial, alloc) && Applied(x, trial, alloc, g) && r in x.inventory.records
    requires r.disposition == Migrate && r.kind == EXTERNAL_ISSUE
    ensures r.targetIssue.Some? && r.targetIssue.value in g.issues && r.targetIssue.value in x.issues
            && g.issues[r.targetIssue.value] == x.issues[r.targetIssue.value]
    ensures r.id in NumbersAfter(x, alloc) && NumbersAfter(x, alloc)[r.id] == r.targetIssue.value
    ensures PlanRecord(Next(x, alloc, g, hits), Retargeted(r, NumbersAfter(x, alloc))) ==
              RecordPlan({}, Some(RefOf(x.issues[r.targetIssue.value])), None)
  {
    ExternalStays(x, trial, alloc, g, r);
  }

  /** An external record's issue is left alone, and recorded again as its target. */
  lemma ExternalStays(x: PlanInput, trial: bool, alloc: map<Id, IssueRef>, g: GitHub, r: Record)
    requires Ready(x, trial, alloc) && Applied(x, trial, alloc, g) && r in x.inventory.records
    requires r.disposition == Migrate && r.kind == EXTERNAL_ISSUE
    ensures Usable(x, r.targetIssue) && r.targetIssue.value in g.issues
            && g.issues[r.targetIssue.value] == x.issues[r.targetIssue.value]
    ensures r.id in NumbersAfter(x, alloc) && NumbersAfter(x, alloc)[r.id] == r.targetIssue.value
  {
    assert PlanRecord(x, r).conflicts == {};
    var n := r.targetIssue.value;
    ReusedFinds(x, x.inventory.records);
    assert OutsideDrafted(x, trial, alloc, n) by {
      forall q | q in x.inventory.records && Drafted(q) ensures RefAfter(x, alloc, q.id).number != n {
        RefAfterOf(x, trial, alloc, q);
        if q.targetIssue == r.targetIssue { SameTargetSameRecord(x.inventory.records, q, r); }
      }
    }
  }

  // ---- the markers afterwards ----

  /** After the plan, an opening comment on an issue is the one of the record that ended there. */
  lemma OpenAfter(x: PlanInput, trial: bool, alloc: map<Id, IssueRef>, g: GitHub, n: int, m: string) returns (r: Record)
    requires Ready(x, trial, alloc) && Applied(x, trial, alloc, g) && n in g.issues && Open(m) in g.issues[n].body
    ensures r in x.inventory.records && Drafted(r) && SourceMarker(r.id) == m && RefAfter(x, alloc, r.id).number == n
  {
    if OutsideDrafted(x, trial, alloc, n) {
      r := MarkerHasTarget(x, trial, alloc, n, m);
      RefAfterOf(x, trial, alloc, r);
    } else {
      r :| r in x.inventory.records && Drafted(r) && RefAfter(x, alloc, r.id).number == n;
      var before, after := SettledBody(x, trial, alloc, r);
      OnlyComment(g.issues[n].body, SourceMarker(r.id), before, r.inner, after, m);
    }
  }

  lemma OnlyComment(b: Body, own: string, before: Body, inner: Body, after: Body, m: string)
    requires Framed(b, own, before, inner, after) && Open(m) in b
    requires Open(m) !in before && Open(m) !in inner && Open(m) !in after
    ensures m == own
  {
  }

  lemma OwnCommentOnce(x: PlanInput, trial: bool, alloc: map<Id, IssueRef>, g: GitHub, r: Record)
    requires Ready(x, trial, alloc) && Applied(x, trial, alloc, g) && r in x.inventory.records && Drafted(r)
    ensures Count(g.issues[RefAfter(x, alloc, r.id).number].body, Open(SourceMarker(r.id))) == 1
  {
    var before, after := SettledBody(x, trial, alloc, r);
    FramedRegion(g.issues[RefAfter(x, alloc, r.id).number].body, SourceMarker(r.id), before, r.inner, after);
  }

  /** With different markers each drafted record's marker is on its own issue and nowhere else. */
  lemma MarkedAfter(x: PlanInput, trial: bool, alloc: map<Id, IssueRef>, g: GitHub, hits: map<string, seq<int>>,
                    r: Record)
    requires Ready(x, trial, alloc) && Applied(x, trial, alloc, g) && HitsSound(hits, g.issues)
    requires MarkersDistinct(x.inventory.records) && r in x.inventory.records && Drafted(r)
    ensures Marked(hits, SourceMarker(r.id)) == [RefAfter(x, alloc, r.id).number]
  {
    var n, m := RefAfter(x, alloc, r.id).number, SourceMarker(r.id);
    OwnCommentOnce(x, trial, alloc, g, r);
    forall k | k in g.issues && k != n ensures Open(m) !in g.issues[k].body {
      if Open(m) in g.issues[k].body { var q := OpenAfter(x, trial, alloc, g, k, m); }
    }
    MarkedOnce(hits, g.issues, n, m);
  }

  lemma MarkersPeacefulAfter(x: PlanInput, trial: bool, alloc: map<Id, IssueRef>, g: GitHub, hits: map<string,
                             seq<int>>)
    requires Ready(x, trial, alloc) && Applied(x, trial, alloc, g) && HitsSound(hits, g.issues)
    requires MarkersDistinct(x.inventory.records)
    ensures MarkersPeaceful(Next(x, alloc, g, hits))
  {
    DraftsFound(x, trial);
    forall m | m in hits ensures Next(x, alloc, g, hits).Owned(m) && |hits[m]| <= 1 {
      var n := hits[m][0];
      assert multiset(Marked(hits, m))[n] > 0;
      CarriesIsMarked(hits, g.issues, n, m);
      var r := OpenAfter(x, trial, alloc, g, n, m);
      MarkedAfter(x, trial, alloc, g, hits, r);
      assert DraftOf(r, trial) in Next(x, alloc, g, hits).drafts;
    }
  }

  /** Two records that share a marker both end with it, on two issues: the second plan reports it. */
  lemma SharedMarkerReported(x: PlanInput, trial: bool, alloc: map<Id, IssueRef>, g: GitHub, hits: map<string,
                             seq<int>>)
    requires Ready(x, trial, alloc) && Applied(x, trial, alloc, g) && HitsSound(hits, g.issues)
    requires !MarkersDistinct(x.inventory.records)
    ensures !MarkersPeaceful(Next(x, alloc, g, hits))
    ensures exists r :: r in x.inventory.records && Drafted(r) && |Marked(hits, SourceMarker(r.id))| > 1
  {
    var r, q :| r in x.inventory.records && q in x.inventory.records && Drafted(r) && Drafted(q) && r != q
                && SourceMarker(r.id) == SourceMarker(q.id);
    var m := SourceMarker(r.id);
    OwnCommentOnce(x, trial, alloc, g, r);
    OwnCommentOnce(x, trial, alloc, g, q);
    NumbersDiffer(x, trial, alloc, r, q);
    var a, b := RefAfter(x, alloc, r.id).number, RefAfter(x, alloc, q.id).number;
    TwoMarks(hits, g.issues, a, b, m);
  }

  lemma TwoMarks(hits: map<string, seq<int>>, issues: map<int, Issue>, a: int, b: int, m: string)
    requires HitsSound(hits, issues) && a != b && a in issues && b in issues && Open(m) in issues[a].body
             && Open(m) in issues[b].body
    ensures m in hits && |hits[m]| > 1
  {
    CarriesIsMarked(hits, issues, a, m);
    CarriesIsMarked(hits, issues, b, m);
  }

  // ---- the second plan, part by part ----

  lemma ReusedAfter(x: PlanInput, trial: bool, alloc: map<Id, IssueRef>, g: GitHub, hits: map<string, seq<int>>,
                    r: Record)
    requires Ready(x, trial, alloc) && Applied(x, trial, alloc, g) && r in x.inventory.records && Drafted(r)
    ensures var x' := Next(x, alloc, g, hits);
            r.id in Reused(x', x'.inventory.records)
            && Reused(x', x'.inventory.records)[r.id] == RefAfter(x, alloc, r.id)
  {
    var x' := Next(x, alloc, g, hits);
    RetargetKeepsIds(x.inventory.records, NumbersAfter(x, alloc));
    ReusedFinds(x', x'.inventory.records);
    QuietDrafted(x, trial, alloc, g, hits, r);
    RetargetMember(x.inventory.records, NumbersAfter(x, alloc), Retargeted(r, NumbersAfter(x, alloc)));
  }

  lemma RecordsQuiet(x: PlanInput, trial: bool, alloc: map<Id, IssueRef>, g: GitHub, hits: map<string, seq<int>>,
                     r': Record)
    requires Ready(x, trial, alloc) && Applied(x, trial, alloc, g) && r' in Next(x, alloc, g, hits).inventory.records
    ensures PlanRecord(Next(x, alloc, g, hits), r').conflicts == {} && PlanRecord(Next(x, alloc, g, hits), r').op.None?
  {
    RetargetMember(x.inventory.records, NumbersAfter(x, alloc), r');
    var r :| r in x.inventory.records && r' == Retargeted(r, NumbersAfter(x, alloc));
    if Drafted(r) {
      QuietDrafted(x, trial, alloc, g, hits, r);
    } else if r.disposition == Migrate {
      QuietExternal(x, trial, alloc, g, hits, r);
    }
  }

  lemma BindingSettled(x: PlanInput, d: Draft, reused: map<Id, IssueRef>, known: map<Id, IssueRef>, existing: set<Id>)
    requires d.recordId in reused && reused[d.recordId].number in x.issues
    requires d.parent.Some? ==> d.parent.value in x.DraftsById() && d.parent.value in reused
    requires x.issues[reused[d.recordId].number].parent ==
               if d.parent.Some? then Some(reused[d.parent.value].number) else None
    ensures PlanBinding(x, reused, known, existing, d) == Skip
  {
  }

  lemma BindingQuiet(x: PlanInput, trial: bool, alloc: map<Id, IssueRef>, g: GitHub, hits: map<string, seq<int>>,
                     d: Draft, known: map<Id, IssueRef>, existing: set<Id>)
    requires Ready(x, trial, alloc) && Applied(x, trial, alloc, g) && d in x.drafts
    ensures var x' := Next(x, alloc, g, hits);
            PlanBinding(x', Reused(x', x'.inventory.records), known, existing, d) == Skip
  {
    var x' := Next(x, alloc, g, hits);
    DraftIssuesMember(x.inventory.records, trial, d);
    var r :| r in x.inventory.records && Drafted(r) && d == DraftOf(r, trial);
    ReusedAfter(x, trial, alloc, g, hits, r);
    PlannedParent(x, trial, alloc, r);
    if r.parent.Some? {
      assert r.parent.value in DraftedIds(x.inventory.records);
      var q :| q in x.inventory.records && Drafted(q) && q.id == r.parent.value;
      ReusedAfter(x, trial, alloc, g, hits, q);
      assert q.id in x.DraftsById() by { DraftsFound(x, trial); }
      AfterMaps(x, trial, alloc, q);
    }
    BindingSettled(x', d, Reused(x', x'.inventory.records), known, existing);
  }

  lemma NoMember<T(!new)>(s: seq<T>)
    ensures (forall v :: v !in s) ==> s == []
  {
    if s != [] { assert s[0] in s; }
  }

  lemma NoLabelsLeft(x: PlanInput, trial: bool, alloc: map<Id, IssueRef>, g: GitHub, hits: map<string, seq<int>>)
    requires Ready(x, trial, alloc) && Applied(x, trial, alloc, g)
    ensures LabelOps(Next(x, alloc, g, hits), x.policy.names) == []
  {
    var x' := Next(x, alloc, g, hits);
    forall name | name in x.policy.specs && LabelNeeded(x', name) ensures name in g.labels && Lower(name) == name {
      assert LabelNeeded(x, name);
    }
    forall op ensures op !in LabelOps(x', x.policy.names) { LabelOpsMember(x', x.policy.names, op); }
    NoMember(LabelOps(x', x.policy.names));
  }

  lemma LabelsQuiet(x: PlanInput, trial: bool, alloc: map<Id, IssueRef>, g: GitHub, hits: map<string, seq<int>>)
    requires Ready(x, trial, alloc) && Applied(x, trial, alloc, g)
    ensures LabelsPeaceful(Next(x, alloc, g, hits))
    ensures LabelOps(Next(x, alloc, g, hits), x.policy.names) == []
  {
    var x' := Next(x, alloc, g, hits);
    NoLabelsLeft(x, trial, alloc, g, hits);
    forall d, name | d in x'.drafts && name in d.labels
      ensures name in x.policy.specs && (Lower(name) in g.labels ==> g.labels[Lower(name)] == x.policy.specs[name])
    {
      assert d in x.drafts && x.InScope(d.recordId);
      assert Lower(name) == name;
    }
  }

  lemma IssueOpsQuiet(x: PlanInput, trial: bool, alloc: map<Id, IssueRef>, g: GitHub, hits: map<string, seq<int>>)
    requires Ready(x, trial, alloc) && Applied(x, trial, alloc, g)
    ensures var x' := Next(x, alloc, g, hits);
            RecordsPeaceful(x') && IssueOps(x', x'.inventory.records) == []
  {
    var x' := Next(x, alloc, g, hits);
    forall r' | r' in x'.inventory.records ensures PlanRecord(x', r').conflicts == {} && PlanRecord(x', r').op.None? {
      RecordsQuiet(x, trial, alloc, g, hits, r');
    }
    forall op ensures op !in IssueOps(x', x'.inventory.records) { IssueOpsMember(x', x'.inventory.records, op); }
    NoMember(IssueOps(x', x'.inventory.records));
  }

  lemma BindingsQuiet(x: PlanInput, trial: bool, alloc: map<Id, IssueRef>, g: GitHub, hits: map<string, seq<int>>)
    requires Ready(x, trial, alloc) && Applied(x, trial, alloc, g)
    ensures var x' := Next(x, alloc, g, hits);
            var reused, known := Reused(x', x'.inventory.records), Known(x', x'.inventory.records);
            BindingsPeaceful(x', reused, known, Existing(x'))
            && BindOps(x', reused, known, Existing(x'), x'.drafts) == []
  {
    var x' := Next(x, alloc, g, hits);
    var reused, known, existing := Reused(x', x'.inventory.records), Known(x', x'.inventory.records), Existing(x');
    forall d | d in x.drafts ensures PlanBinding(x', reused, known, existing, d) == Skip {
      BindingQuiet(x, trial, alloc, g, hits, d, known, existing);
    }
    forall op
      ensures op !in BindOps(x', reused, known, existing, x'.drafts)
    {
      BindOpsMember(x', reused, known, existing, x'.drafts, op);
    }
    NoMember(BindOps(x', reused, known, existing, x'.drafts));
  }

  /** Plan, apply, replan is a fixpoint exactly when no two drafted records share a source marker: after a full
      conflict-free plan is applied and every issue number recorded,
          the second plan has no conflict and no operation. */
  lemma ReplanIsEmptyIffMarkersDistinct(x: PlanInput, trial: bool, alloc: map<Id, IssueRef>, hits: map<string,
                                        seq<int>>)
    requires FullRun(x, trial, alloc) && Plan(x).conflicts == {}
    requires HitsSound(hits, ApplyAll(Before(x), alloc, Plan(x).operations).issues)
    ensures var second := Plan(Next(x, alloc, ApplyAll(Before(x), alloc, Plan(x).operations), hits));
            second.conflicts == {} && second.operations == [] <==> MarkersDistinct(x.inventory.records)
  {
    PeacefulIff(x);
    ApplyPlan(x, trial, alloc);
    var g := ApplyAll(Before(x), alloc, Plan(x).operations);
    var x' := Next(x, alloc, g, hits);
    PeacefulIff(x');
    if MarkersDistinct(x.inventory.records) {
      ReplanIsQuiet(x, trial, alloc, g, hits);
    } else {
      SharedMarkerReported(x, trial, alloc, g, hits);
    }
  }

  lemma ReplanIsQuiet(x: PlanInput, trial: bool, alloc: map<Id, IssueRef>, g: GitHub, hits: map<string, seq<int>>)
    requires Ready(x, trial, alloc) && Applied(x, trial, alloc, g) && HitsSound(hits, g.issues)
             && MarkersDistinct(x.inventory.records)
    ensures Peaceful(Next(x, alloc, g, hits)) && Plan(Next(x, alloc, g, hits)).operations == []
  {
    var x' := Next(x, alloc, g, hits);
    MarkersPeacefulAfter(x, trial, alloc, g, hits);
    LabelsQuiet(x, trial, alloc, g, hits);
    IssueOpsQuiet(x, trial, alloc, g, hits);
    BindingsQuiet(x, trial, alloc, g, hits);
    assert DraftsPeaceful(x') by { assert DraftsPeaceful(x); }
    PlanShape(x');
  }
}
