/** A publication that stopped after any number of operations, planned again from an
    inventory that recorded nothing of it. */
module Resume {
  import opened Common
  import opened IssueBody
  import opened Inventory
  import opened Planner
  import opened PlanFacts
  import opened IdealGitHub
  import opened Replan
  import opened HonestRun
  import opened Publication

  /** The same inventory and drafts, read against the repository as the stopped run left it. */
  function Again(x: PlanInput, g: GitHub, hits: map<string, seq<int>>): PlanInput {
    x.(issues := g.issues, labels := g.labels, hits := hits)
  }

  /** One of the first `k` operations creates the record's issue. */
  predicate CreatedBy(ops: seq<Operation>, k: nat, id: Id)
    requires k <= |ops|
  {
    exists j :: 0 <= j < k && ops[j].CreateIssue? && ops[j].target == id
  }

  lemma OperationInIssues(x: PlanInput, ops: seq<Operation>, i: nat)
    requires ops == Plan(x).operations && i < |ops| && (ops[i].CreateIssue? || ops[i].UpdateIssue?)
    ensures ops[i] in IssueOps(x, x.inventory.records)
  {
    PartOf(x, ops, i);
  }

  lemma RecordOf(x: PlanInput, ops: seq<Operation>, i: nat) returns (r: Record)
    requires ops == Plan(x).operations && i < |ops| && (ops[i].CreateIssue? || ops[i].UpdateIssue?)
    ensures r in x.inventory.records && PlanRecord(x, r).op == Some(ops[i]) && Drafted(r) && r.id == ops[i].target
  {
    OperationInIssues(x, ops, i);
    var op := ops[i];
    IssueOpsMember(x, x.inventory.records, op);
    r :| r in x.inventory.records && PlanRecord(x, r).op == Some(op);
    OperationNamesRecord(x, r, op);
  }

  /** What the operation at `i` writes: a draft's own body under a new number, or an updated body under its target's. */
  lemma WriteOf(x: PlanInput, trial: bool, alloc: map<Id, IssueRef>, ops: seq<Operation>, i: nat) returns (r: Record)
    requires Ready(x, trial, alloc) && ops == Plan(x).operations && i < |ops|
             && (ops[i].CreateIssue? || ops[i].UpdateIssue?)
    ensures r in x.inventory.records && Drafted(r) && r.id == ops[i].target && r.id in alloc
    ensures ops[i].CreateIssue? ==> r.targetIssue.None? && ops[i].body == DraftBody(DraftOf(r, trial))
    ensures ops[i].UpdateIssue? ==>
              && r.targetIssue == Some(ops[i].issue) && ops[i].issue in x.issues
              && UpdatedBody(x, r, DraftOf(r, trial), x.issues[ops[i].issue]) == Fresh(ops[i].body)
  {
    r := RecordOf(x, ops, i);
    DraftedRecordPlan(x, trial, alloc, r);
    FullPlanCreates(x, trial, r);
    if r.targetIssue.Some? { TargetedPlan(x, r, DraftOf(r, trial)); }
  }

  // ---- an issue that was created keeps its body ----

  /** The record's new issue holds its draft. */
  ghost predicate HoldsDraft(g: GitHub, alloc: map<Id, IssueRef>, r: Record, trial: bool) {
    r.id in alloc && alloc[r.id].number in g.issues && g.issues[alloc[r.id].number].body == DraftBody(DraftOf(r, trial))
  }

  lemma BodyKept(g: GitHub, alloc: map<Id, IssueRef>, op: Operation, n: int)
    requires n in g.issues && (op.CreateIssue? && op.target in alloc ==> alloc[op.target].number != n)
             && (op.UpdateIssue? ==> op.issue != n)
    ensures n in ApplyOp(g, alloc, op).issues && ApplyOp(g, alloc, op).issues[n].body == g.issues[n].body
  {
  }

  /** An operation that writes the record's draft when it creates its issue, and otherwise another issue or none. */
  ghost predicate MindsDraft(op: Operation, alloc: map<Id, IssueRef>, r: Record, trial: bool) {
    && r.id in alloc
    && (op.CreateIssue? && op.target == r.id ==> op.body == DraftBody(DraftOf(r, trial)))
    && (op.CreateIssue? && op.target != r.id && op.target in alloc ==> alloc[op.target].number != alloc[r.id].number)
    && (op.UpdateIssue? ==> op.issue != alloc[r.id].number)
  }

  lemma {:induction false} DraftStays(start: GitHub, alloc: map<Id, IssueRef>, ops: seq<Operation>, k: nat, r: Record,
                                      trial: bool)
    requires k <= |ops| && (forall i :: 0 <= i < k ==> MindsDraft(ops[i], alloc, r, trial)) && CreatedBy(ops, k, r.id)
    ensures HoldsDraft(Held(start, alloc, ops, k), alloc, r, trial)
    decreases k
  {
    var op := ops[k - 1];
    assert MindsDraft(op, alloc, r, trial);
    if !(op.CreateIssue? && op.target == r.id) {
      assert CreatedBy(ops, k - 1, r.id);
      DraftStays(start, alloc, ops, k - 1, r, trial);
      BodyKept(Held(start, alloc, ops, k - 1), alloc, op, alloc[r.id].number);
    }
  }

  lemma OperationMindsDraft(x: PlanInput, trial: bool, alloc: map<Id, IssueRef>, ops: seq<Operation>, i: nat, r: Record)
    requires Ready(x, trial, alloc) && ops == Plan(x).operations && i < |ops| && r in x.inventory.records && Drafted(r)
    ensures MindsDraft(ops[i], alloc, r, trial)
            && (ops[i].CreateIssue? && ops[i].target == r.id ==> r.targetIssue.None?)
  {
    if ops[i].CreateIssue? || ops[i].UpdateIssue? {
      var q := WriteOf(x, trial, alloc, ops, i);
      if q.id == r.id { SameIdSameRecord(x.inventory.records, q, r); }
    }
  }

  lemma CreatedStays(x: PlanInput, trial: bool, alloc: map<Id, IssueRef>, ops: seq<Operation>, k: nat, r: Record)
    requires Ready(x, trial, alloc) && ops == Plan(x).operations && k <= |ops|
    requires r in x.inventory.records && Drafted(r) && CreatedBy(ops, k, r.id)
    ensures r.targetIssue.None? && HoldsDraft(Held(Before(x), alloc, ops, k), alloc, r, trial)
  {
    forall i | 0 <= i < k
      ensures MindsDraft(ops[i], alloc, r, trial)
              && (ops[i].CreateIssue? && ops[i].target == r.id ==> r.targetIssue.None?)
    {
      OperationMindsDraft(x, trial, alloc, ops, i, r);
    }
    DraftStays(Before(x), alloc, ops, k, r, trial);
  }

  // ---- an issue that was not created leaves its marker nowhere ----

  lemma ForeignBody(d: Draft, before: Body, after: Body, b: Body, m: string)
    requires OwnMarkersOnly(d) && d.marker != m && b == before + [Open(d.marker)] + d.inner + [Close(d.marker)] + after
    requires Open(m) !in before && Open(m) !in after
    ensures Open(m) !in b
  {
    InnerHasNoComment(d, m);
  }

  lemma WriteIsForeign(x: PlanInput, trial: bool, alloc: map<Id, IssueRef>, ops: seq<Operation>, i: nat, m: string)
    requires Ready(x, trial, alloc) && ops == Plan(x).operations && i < |ops|
             && (ops[i].CreateIssue? || ops[i].UpdateIssue?)
    requires SourceMarker(ops[i].target) != m && forall n :: n in x.issues ==> Open(m) !in x.issues[n].body
    ensures Open(m) !in ops[i].body
  {
    var r := WriteOf(x, trial, alloc, ops, i);
    var d := DraftOf(r, trial);
    assert d in x.drafts by { DraftsFound(x, trial); }
    assert OwnMarkersOnly(d);
    DraftIsClean(x, d);
    if ops[i].CreateIssue? {
      CreatedIsFramed(d);
      ForeignBody(d, [], [Text('\n')], ops[i].body, m);
    } else {
      var before, after := UpdatedIsFramed(x, r, d, x.issues[ops[i].issue]);
      ForeignBody(d, before, after, ops[i].body, m);
    }
  }

  /** No issue carries the marker. */
  ghost predicate Unmarked(issues: map<int, Issue>, m: string) {
    forall n :: n in issues ==> Open(m) !in issues[n].body
  }

  lemma StaysUnmarked(g: GitHub, alloc: map<Id, IssueRef>, op: Operation, m: string)
    requires Unmarked(g.issues, m) && (op.CreateIssue? || op.UpdateIssue? ==> Open(m) !in op.body)
    ensures Unmarked(ApplyOp(g, alloc, op).issues, m)
  {
  }

  lemma UnmarkedBefore(x: PlanInput, trial: bool, alloc: map<Id, IssueRef>, r: Record)
    requires Ready(x, trial, alloc) && MarkersDistinct(x.inventory.records)
    requires r in x.inventory.records && Drafted(r) && r.targetIssue.None?
    ensures Unmarked(x.issues, SourceMarker(r.id))
  {
    forall n | n in x.issues ensures Open(SourceMarker(r.id)) !in x.issues[n].body {
      if Open(SourceMarker(r.id)) in x.issues[n].body {
        var q := MarkerHasTarget(x, trial, alloc, n, SourceMarker(r.id));
        assert false;
      }
    }
  }

  predicate WritesMarker(op: Operation, m: string) {
    (op.CreateIssue? || op.UpdateIssue?) && Open(m) in op.body
  }

  lemma {:induction false} UnmarkedThrough(start: GitHub, alloc: map<Id, IssueRef>, ops: seq<Operation>, k: nat,
                                           m: string)
    requires k <= |ops| && Unmarked(start.issues, m) && forall i :: 0 <= i < k ==> !WritesMarker(ops[i], m)
    ensures Unmarked(Held(start, alloc, ops, k).issues, m)
    decreases k
  {
    if k > 0 {
      UnmarkedThrough(start, alloc, ops, k - 1, m);
      assert !WritesMarker(ops[k - 1], m);
      StaysUnmarked(Held(start, alloc, ops, k - 1), alloc, ops[k - 1], m);
    }
  }

  lemma WritesAnotherMarker(x: PlanInput, trial: bool, alloc: map<Id, IssueRef>, ops: seq<Operation>, i: nat, r: Record)
    requires Ready(x, trial, alloc) && MarkersDistinct(x.inventory.records) && ops == Plan(x).operations && i < |ops|
    requires r in x.inventory.records && Drafted(r) && r.targetIssue.None?
             && !(ops[i].CreateIssue? && ops[i].target == r.id)
    ensures !WritesMarker(ops[i], SourceMarker(r.id))
  {
    if ops[i].CreateIssue? || ops[i].UpdateIssue? {
      assert SourceMarker(ops[i].target) != SourceMarker(r.id) by {
        var q := WriteOf(x, trial, alloc, ops, i);
        assert q != r;
      }
      UnmarkedBefore(x, trial, alloc, r);
      WriteIsForeign(x, trial, alloc, ops, i, SourceMarker(r.id));
    }
  }

  lemma UncreatedIsUnmarked(x: PlanInput, trial: bool, alloc: map<Id, IssueRef>, ops: seq<Operation>, k: nat, r: Record)
    requires Ready(x, trial, alloc) && MarkersDistinct(x.inventory.records) && ops == Plan(x).operations && k <= |ops|
    requires r in x.inventory.records && Drafted(r) && r.targetIssue.None? && !CreatedBy(ops, k, r.id)
    ensures Unmarked(Held(Before(x), alloc, ops, k).issues, SourceMarker(r.id))
  {
    forall i | 0 <= i < k ensures !WritesMarker(ops[i], SourceMarker(r.id)) {
      WritesAnotherMarker(x, trial, alloc, ops, i, r);
    }
    UnmarkedBefore(x, trial, alloc, r);
    UnmarkedThrough(Before(x), alloc, ops, k, SourceMarker(r.id));
  }

  // ---- what the next plan says of a record ----

  lemma UntargetedAgain(x: PlanInput, trial: bool, y: PlanInput, r: Record)
    requires DraftsOf(x, trial) && x.selected.None? && x.scope.None? && r in x.inventory.records && Drafted(r)
             && r.targetIssue.None?
    requires y.drafts == x.drafts && y.selected == x.selected && y.scope == x.scope
    ensures var marked := Marked(y.hits, SourceMarker(r.id));
            PlanRecord(y, r) == if marked != [] then Clash(UnrecordedIdentity(r.id))
                                else RecordPlan({}, None,
                                                Some(CreateIssue(r.id, r.title, DraftBody(DraftOf(r, trial)),
                                                                 RecordLabels(r, trial))))
  {
    DraftsFound(x, trial);
  }

  lemma NoMarks(hits: map<string, seq<int>>, issues: map<int, Issue>, m: string)
    requires HitsSound(hits, issues) && Unmarked(issues, m)
    ensures Marked(hits, m) == []
  {
    var marked := Marked(hits, m);
    forall n ensures n !in marked {
      assert n in issues ==> Open(m) !in issues[n].body && Count(issues[n].body, Open(m)) == 0;
      assert multiset(marked)[n] == 0;
    }
    NoMember(marked);
  }

  lemma ReportedAgain(y: PlanInput, r: Record)
    requires r in y.inventory.records && DistinctKeys(y.inventory.records, IdOf)
             && PlanRecord(y, r) == Clash(UnrecordedIdentity(r.id))
    ensures UnrecordedIdentity(r.id) in Plan(y).conflicts
    ensures forall op :: op in Plan(y).operations && op.CreateIssue? ==> op.target != r.id
  {
    RecordConflictsMember(y, y.inventory.records, UnrecordedIdentity(r.id));
    forall op | op in Plan(y).operations && op.CreateIssue? ensures op.target != r.id {
      var i :| 0 <= i < |Plan(y).operations| && Plan(y).operations[i] == op;
      var q := RecordOf(y, Plan(y).operations, i);
      if q.id == r.id { SameIdSameRecord(y.inventory.records, q, r); }
    }
  }

  /** What planning again as `y` says of a record, after `k` operations of the plan of `x`: one whose issue was created
      is reported and never created again, and one without a target is planned as before if no marker is shared. */
  ghost predicate Seen(x: PlanInput, y: PlanInput, k: nat, r: Record)
    requires k <= |Plan(x).operations|
  {
    && (CreatedBy(Plan(x).operations, k, r.id) ==>
          && UnrecordedIdentity(r.id) in Plan(y).conflicts
          && forall op :: op in Plan(y).operations && op.CreateIssue? ==> op.target != r.id)
    && (!CreatedBy(Plan(x).operations, k, r.id) && r.targetIssue.None? && MarkersDistinct(x.inventory.records) ==>
          PlanRecord(y, r) == PlanRecord(x, r))
  }

  /** Planning again after any number of operations: a record whose issue was created is reported and never created
      twice, and every other record without a target is planned exactly as before, unless two records share a marker. */
  lemma InterruptedRunIsSeen(x: PlanInput, trial: bool, alloc: map<Id, IssueRef>, ops: seq<Operation>, k: nat,
                             hits: map<string, seq<int>>, r: Record)
    requires FullRun(x, trial, alloc) && Plan(x).conflicts == {} && ops == Plan(x).operations && k <= |ops|
    requires HitsSound(hits, Held(Before(x), alloc, ops, k).issues) && r in x.inventory.records && Drafted(r)
    ensures Seen(x, Again(x, Held(Before(x), alloc, ops, k), hits), k, r)
  {
    PeacefulIff(x);
    var g := Held(Before(x), alloc, ops, k);
    var y, d, m := Again(x, g, hits), DraftOf(r, trial), SourceMarker(r.id);
    if CreatedBy(ops, k, r.id) {
      CreatedStays(x, trial, alloc, ops, k, r);
      assert Open(m) in DraftBody(d) by { assert DraftBody(d)[0] == Open(m); }
      CarriesIsMarked(hits, g.issues, alloc[r.id].number, m);
      UntargetedAgain(x, trial, y, r);
      ReportedAgain(y, r);
    } else if r.targetIssue.None? && MarkersDistinct(x.inventory.records) {
      UncreatedIsUnmarked(x, trial, alloc, ops, k, r);
      NoMarks(hits, g.issues, m);
      UntargetedAgain(x, trial, y, r);
      UntargetedAgain(x, trial, x, r);
      UnmarkedBefore(x, trial, alloc, r);
      NoMarks(x.hits, x.issues, m);
    }
  }

  // ---- the same for a run that stopped ----

  /** The repository after the first `n` writes of a run, where `took` says which of them took effect. */
  function Left(start: GitHub, alloc: map<Id, IssueRef>, ops: seq<Operation>, took: nat -> bool, n: nat): GitHub
    requires n <= |ops|
  {
    if n == 0 then start
    else
      var before := Left(start, alloc, ops, took, n - 1);
      if took(n - 1) then ApplyOp(before, alloc, ops[n - 1]) else before
  }

  /** A write that was answered took effect; one that raised may have. */
  ghost predicate TookIfAnswered(w: World, took: nat -> bool) {
    forall i: nat :: !w.reply(i).Raised? ==> took(i)
  }

  lemma {:induction false} AllTook(start: GitHub, alloc: map<Id, IssueRef>, ops: seq<Operation>, took: nat -> bool,
                                   n: nat)
    requires n <= |ops| && forall i: nat :: i < n ==> took(i)
    ensures Left(start, alloc, ops, took, n) == Held(start, alloc, ops, n)
  {
    if n > 0 { AllTook(start, alloc, ops, took, n - 1); }
  }

  /** However a run of any batch ends, the repository is the one after all its writes, or, only when the outcome is
      unknown, the one after all but the last. */
  lemma RunLeavesAPrefix(p: Policy, b: Batch, w: World, start: GitHub, alloc: map<Id, IssueRef>, took: nat -> bool,
                         r: PublicationResult)
    returns (k: nat)
    requires r == Publish(p, b, w) && TookIfAnswered(w, took)
    ensures r.writes <= |b.operations| && k <= |b.operations|
    ensures k == r.writes || (r.outcome == Unknown && k + 1 == r.writes)
    ensures Left(start, alloc, b.operations, took, r.writes) == Held(start, alloc, b.operations, k)
  {
    WritesArePrefix(p, b, w, r);
    UnknownIsUnsettled(p, b, w, r);
    k := TookButTheLast(b, w, start, alloc, took, r.writes);
  }

  lemma TookButTheLast(b: Batch, w: World, start: GitHub, alloc: map<Id, IssueRef>, took: nat -> bool, n: nat)
    returns (k: nat)
    requires TookIfAnswered(w, took) && n <= |b.operations| && forall i: nat :: i < n - 1 ==> !UnsettledAt(b, w, i)
    ensures k == n || (k + 1 == n && UnsettledAt(b, w, n - 1))
    ensures Left(start, alloc, b.operations, took, n) == Held(start, alloc, b.operations, k)
  {
    forall i: nat | i < n && !UnsettledAt(b, w, i) ensures took(i) { assert !w.reply(i).Raised?; }
    if n == 0 || took(n - 1) {
      AllTook(start, alloc, b.operations, took, n);
      k := n;
    } else {
      AllTook(start, alloc, b.operations, took, n - 1);
      k := n - 1;
    }
  }

  /** Planning again after any run of a full conflict-free plan, however it ended: the records created by then are
      reported and not created again, the others without a target are planned as before. */
  lemma StoppedRunIsSeen(x: PlanInput, trial: bool, alloc: map<Id, IssueRef>, w: World, took: nat -> bool,
                         hits: map<string, seq<int>>, q: Record)
    returns (k: nat)
    requires FullRun(x, trial, alloc) && Plan(x).conflicts == {} && TookIfAnswered(w, took)
    requires var n := Publish(x.policy, Plan(x), w).writes;
             n <= |Plan(x).operations| && HitsSound(hits, Left(Before(x), alloc, Plan(x).operations, took, n).issues)
    requires q in x.inventory.records && Drafted(q)
    ensures var r := Publish(x.policy, Plan(x), w);
            k <= |Plan(x).operations| && (k == r.writes || (r.outcome == Unknown && k + 1 == r.writes))
    ensures var g := Left(Before(x), alloc, Plan(x).operations, took, Publish(x.policy, Plan(x), w).writes);
            Seen(x, Again(x, g, hits), k, q)
  {
    var r := Publish(x.policy, Plan(x), w);
    k := RunLeavesAPrefix(x.policy, Plan(x), w, Before(x), alloc, took, r);
    InterruptedRunIsSeen(x, trial, alloc, Plan(x).operations, k, hits, q);
  }
}
