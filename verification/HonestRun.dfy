/** Publishing through a client that does what it is asked: the run passes, and leaves what applying the plan leaves. */
module HonestRun {
  import opened Common
  import opened Inventory
  import opened Planner
  import opened PlanFacts
  import opened IdealGitHub
  import opened Publication

  /** The repository after the first `i` operations. */
  function Held(start: GitHub, alloc: map<Id, IssueRef>, ops: seq<Operation>, i: nat): GitHub
    requires i <= |ops|
  {
    if i == 0 then start else ApplyOp(Held(start, alloc, ops, i - 1), alloc, ops[i - 1])
  }

  lemma {:induction false} HeldIsApplied(start: GitHub, alloc: map<Id, IssueRef>, ops: seq<Operation>, i: nat)
    requires i <= |ops|
    ensures Held(start, alloc, ops, i) == ApplyAll(start, alloc, ops[..i])
  {
    if i > 0 {
      HeldIsApplied(start, alloc, ops, i - 1);
      assert ops[..i][..i - 1] == ops[..i - 1];
    }
  }

  function ParentOf(issue: Issue): ParentRead {
    if issue.parent.None? then NoParent else ParentIs(issue.parent.value)
  }

  /** GitHub answers with what it holds before and after the operation. */
  ghost predicate Answers(w: World, i: nat, op: Operation, before: GitHub, after: GitHub) {
    match op
    case CreateLabel(name, _) =>
      w.reply(i).Object? && (Lower(name) in after.labels ==> w.reply(i).spec == Some(after.labels[Lower(name)]))
    case CreateIssue(id, _, _, _) =>
      id in after.refs && after.refs[id].number in after.issues ==>
        w.reply(i).Object? && w.reply(i).number == Some(after.refs[id].number)
        && w.reply(i).id == Some(after.refs[id].id)
        && w.reply(i).issue == Some(after.issues[after.refs[id].number])
    case UpdateIssue(_, n, _, _, _, _) =>
      n in before.issues && n in after.issues ==>
        w.readBefore(i) == Some(before.issues[n]) && w.reply(i).Object? && w.reply(i).issue == Some(after.issues[n])
    case BindSubIssue(child, parent) =>
      child in after.refs && parent in after.refs && after.refs[child].number in after.issues ==>
        && w.reply(i).Object? && w.reply(i).number == Some(after.refs[parent].number)
        && w.parentOf(i) == ParentOf(after.issues[after.refs[child].number])
        && w.childrenOf(i).Some?
        && forall n ::
             n in after.issues && after.issues[n].parent == Some(after.refs[parent].number) ==>
               n in w.childrenOf(i).value
  }

  predicate Keeps(w: World, i: nat) {
    w.intentKept(i) && w.resultKept(i) && w.checkedKept(i) && w.pauseEnds(i)
  }

  ghost predicate Honest(w: World, start: GitHub, alloc: map<Id, IssueRef>, ops: seq<Operation>) {
    && w.startKept && w.outcomeKept
    && forall i: nat ::
         i < |ops| ==> Keeps(w, i) && Answers(w, i, ops[i], Held(start, alloc, ops, i), Held(start, alloc, ops, i + 1))
  }

  /** What the repository must hold for the operation to go through. */
  predicate OpReady(p: Policy, op: Operation, g: GitHub, alloc: map<Id, IssueRef>) {
    match op
    case CreateLabel(_, _) => true
    case CreateIssue(id, _, _, _) => id in alloc
    case UpdateIssue(_, n, _, _, _, expected) =>
      n in g.issues && g.issues[n].number == n && g.issues[n].state == "open" && Fingerprint(p, g.issues[n]) == expected
    case BindSubIssue(child, parent) => child in g.refs && parent in g.refs && g.refs[child].number in g.issues
  }

  // ---- one operation ----

  lemma NothingStops(p: Policy, w: World, i: nat, op: Operation, g: GitHub, alloc: map<Id, IssueRef>, s: State)
    requires OpReady(p, op, g, alloc) && Keeps(w, i) && Answers(w, i, op, g, ApplyOp(g, alloc, op)) && s.refs == g.refs
    ensures !StoppedBefore(p, w, i, op, s)
  {
  }

  lemma AnswerIsRemembered(p: Policy, w: World, i: nat, op: Operation, g: GitHub, alloc: map<Id, IssueRef>)
    requires OpReady(p, op, g, alloc) && Answers(w, i, op, g, ApplyOp(g, alloc, op))
    ensures w.reply(i).Object? && Remember(op, w.reply(i), g.refs) == ApplyOp(g, alloc, op).refs
  {
    if op.CreateIssue? {
      var after := ApplyOp(g, alloc, op);
      assert op.target in after.refs && after.refs[op.target].number in after.issues;
    }
  }

  lemma AnswerMatches(p: Policy, w: World, i: nat, op: Operation, g: GitHub, alloc: map<Id, IssueRef>)
    requires OpReady(p, op, g, alloc) && Answers(w, i, op, g, ApplyOp(g, alloc, op))
    ensures CheckResult(w, i, op, ApplyOp(g, alloc, op).refs) == Matches
  {
    var after := ApplyOp(g, alloc, op);
    match op {
      case CreateLabel(name, spec) => assert Lower(name) in after.labels;
      case CreateIssue(id, _, _, _) => assert id in after.refs && after.refs[id].number in after.issues;
      case UpdateIssue(_, n, _, _, _, _) => assert n in after.issues;
      case BindSubIssue(child, parent) =>
        var n := g.refs[child].number;
        assert n in after.issues && after.issues[n].parent == Some(g.refs[parent].number);
    }
  }

  lemma OperationSettles(p: Policy, w: World, i: nat, op: Operation, g: GitHub, alloc: map<Id, IssueRef>, s: State)
    returns (next: State)
    requires OpReady(p, op, g, alloc) && Keeps(w, i) && Answers(w, i, op, g, ApplyOp(g, alloc, op)) && s.refs == g.refs
    ensures RunOperation(p, w, i, op, s) == Continue(next) && next.refs == ApplyOp(g, alloc, op).refs
            && next.writes == s.writes + 1
  {
    NothingStops(p, w, i, op, g, alloc, s);
    AnswerIsRemembered(p, w, i, op, g, alloc);
    AnswerMatches(p, w, i, op, g, alloc);
    next := RunOperation(p, w, i, op, s).state;
  }

  // ---- the run ----

  ghost predicate AllReady(p: Policy, start: GitHub, alloc: map<Id, IssueRef>, ops: seq<Operation>) {
    forall i: nat :: i < |ops| ==> OpReady(p, ops[i], Held(start, alloc, ops, i), alloc)
  }

  lemma HonestStep(p: Policy, b: Batch, w: World, start: GitHub, alloc: map<Id, IssueRef>, i: nat, s: State)
    returns (next: State)
    requires i < |b.operations| && Honest(w, start, alloc, b.operations) && AllReady(p, start, alloc, b.operations)
    requires s.refs == Held(start, alloc, b.operations, i).refs
    ensures RunFrom(p, b, w, i, s) == RunFrom(p, b, w, i + 1, next)
    ensures next.refs == Held(start, alloc, b.operations, i + 1).refs && next.writes == s.writes + 1
  {
    var op, g := b.operations[i], Held(start, alloc, b.operations, i);
    assert OpReady(p, op, g, alloc) && Keeps(w, i) && Answers(w, i, op, g, Held(start, alloc, b.operations, i + 1));
    next := OperationSettles(p, w, i, op, g, alloc, s);
  }

  lemma {:induction false} HonestRunFrom(p: Policy, b: Batch, w: World, start: GitHub, alloc: map<Id, IssueRef>, i: nat,
                                         s: State) returns (end: State)
    requires i <= |b.operations| && Honest(w, start, alloc, b.operations) && AllReady(p, start, alloc, b.operations)
    requires s.refs == Held(start, alloc, b.operations, i).refs && s.writes == i
    ensures RunFrom(p, b, w, i, s) == Finish(w, end, Pass)
    ensures end.refs == Held(start, alloc, b.operations, |b.operations|).refs && end.writes == |b.operations|
    decreases |b.operations| - i
  {
    if i == |b.operations| {
      end := s;
    } else {
      var next := HonestStep(p, b, w, start, alloc, i, s);
      end := HonestRunFrom(p, b, w, start, alloc, i + 1, next);
    }
  }

  // ---- a plan is ready ----

  ghost predicate RefsHaveIssues(g: GitHub) {
    forall id :: id in g.refs ==> g.refs[id].number in g.issues
  }

  lemma {:induction false} HeldRefs(start: GitHub, alloc: map<Id, IssueRef>, ops: seq<Operation>, i: nat, id: Id)
    requires i <= |ops| && RefsHaveIssues(start)
             && forall j :: 0 <= j < |ops| && ops[j].CreateIssue? ==> ops[j].target in alloc
    ensures RefsHaveIssues(Held(start, alloc, ops, i))
    ensures AvailableAt(start.refs, ops, i, id) ==> id in Held(start, alloc, ops, i).refs
  {
    if i > 0 {
      HeldRefs(start, alloc, ops, i - 1, id);
      var g, op := Held(start, alloc, ops, i - 1), ops[i - 1];
      forall k | k in ApplyOp(g, alloc, op).refs
        ensures ApplyOp(g, alloc, op).refs[k].number in ApplyOp(g, alloc, op).issues
      {
      }
      if AvailableAt(start.refs, ops, i, id) && id !in start.refs {
        var j :| 0 <= j < i && ops[j].CreateIssue? && ops[j].target == id;
        if j < i - 1 { assert AvailableAt(start.refs, ops, i - 1, id); }
      } else if id in start.refs {
        assert AvailableAt(start.refs, ops, i - 1, id);
      }
    }
  }

  lemma RefHasIssue(x: PlanInput, r: Record)
    requires NumbersSound(x.issues)
    ensures PlanRecord(x, r).ref.Some? ==> PlanRecord(x, r).ref.value.number in x.issues
  {
    if r.targetIssue.Some? && r.targetIssue.value in x.issues {
      assert x.issues[r.targetIssue.value].number == r.targetIssue.value;
    }
  }

  lemma ReusedHaveIssues(x: PlanInput)
    requires DistinctKeys(x.inventory.records, IdOf) && NumbersSound(x.issues)
    ensures RefsHaveIssues(Before(x))
  {
    var reused := Reused(x, x.inventory.records);
    forall id | id in reused ensures reused[id].number in x.issues {
      ReusedFinds(x, x.inventory.records);
      var r :| r in x.inventory.records && r.id == id;
      RefHasIssue(x, r);
    }
  }

  /** The record behind an issue operation, and the operations before it. */
  lemma {:induction false} OperationOf(x: PlanInput, records: seq<Record>, q: nat) returns (m: nat)
    requires q < |IssueOps(x, records)|
    ensures m < |records| && PlanRecord(x, records[m]).op == Some(IssueOps(x, records)[q])
    ensures IssueOps(x, records)[..q] == IssueOps(x, records[..m])
  {
    var front := records[..|records| - 1];
    if q < |IssueOps(x, front)| {
      m := OperationOf(x, front, q);
      assert front[..m] == records[..m];
      assert IssueOps(x, records)[..q] == IssueOps(x, front)[..q];
    } else {
      m := |records| - 1;
      assert IssueOps(x, records)[..q] == IssueOps(x, front);
    }
  }

  /** The issue an update is for is still as it was read. */
  lemma UpdateIsReady(x: PlanInput, trial: bool, alloc: map<Id, IssueRef>, g0: GitHub, q: nat)
    requires FullPlan(x, trial, alloc) && g0.issues == x.issues && g0.refs == Before(x).refs
    requires q < |IssueOps(x, x.inventory.records)| && IssueOps(x, x.inventory.records)[q].UpdateIssue?
    ensures OpReady(x.policy, IssueOps(x, x.inventory.records)[q],
                    ApplyAll(g0, alloc, IssueOps(x, x.inventory.records)[..q]), alloc)
  {
    var records := x.inventory.records;
    var m := OperationOf(x, records, q);
    var front, r := records[..m], records[m];
    assert front + [r] <= records && r in records;
    UpdateWasPlanned(x, trial, alloc, r, IssueOps(x, records)[q]);
    StillAsRead(x, trial, alloc, g0, front, r);
  }

  /** An update is planned for the open target of its record, with the fingerprint of what was read there. */
  lemma UpdateWasPlanned(x: PlanInput, trial: bool, alloc: map<Id, IssueRef>, r: Record, op: Operation)
    requires FullPlan(x, trial, alloc) && r in x.inventory.records && PlanRecord(x, r).op == Some(op) && op.UpdateIssue?
    ensures Drafted(r) && r.targetIssue == Some(op.issue) && op.issue in x.issues
    ensures var issue := x.issues[op.issue];
            issue.number == op.issue && issue.state == "open" && Fingerprint(x.policy, issue) == op.expected
  {
    OperationNamesRecord(x, r, op);
    DraftedRecordPlan(x, trial, alloc, r);
    TargetedPlan(x, r, DraftOf(r, trial));
  }

  /** The operations of the records before it leave a record's target as it was read. */
  lemma StillAsRead(x: PlanInput, trial: bool, alloc: map<Id, IssueRef>, g0: GitHub, front: seq<Record>, r: Record)
    requires FullPlan(x, trial, alloc) && g0.issues == x.issues && g0.refs == Before(x).refs
    requires front + [r] <= x.inventory.records && Drafted(r) && r.targetIssue.Some? && r.targetIssue.value in x.issues
    ensures var g, n := ApplyAll(g0, alloc, IssueOps(x, front)), r.targetIssue.value;
            n in g.issues && g.issues[n] == x.issues[n]
  {
    assert r in x.inventory.records by { assert (front + [r])[|front|] == r; }
    IssuePhase(x, trial, alloc, g0, front);
    OtherIds(x, trial, alloc, front, r);
    AfterMaps(x, trial, alloc, r);
    RefAfterOf(x, trial, alloc, r);
  }

  lemma CreateIsReady(x: PlanInput, trial: bool, alloc: map<Id, IssueRef>, op: Operation)
    requires FullPlan(x, trial, alloc) && op in IssueOps(x, x.inventory.records) && op.CreateIssue?
    ensures op.target in alloc
  {
    IssueOpsMember(x, x.inventory.records, op);
    var r :| r in x.inventory.records && PlanRecord(x, r).op == Some(op);
    assert Drafted(r);
    DraftedRecordPlan(x, trial, alloc, r);
  }

  /** Where an operation of the plan stands: in the labels, the issues or the bindings. */
  lemma PartOf(x: PlanInput, ops: seq<Operation>, i: nat)
    requires ops == Plan(x).operations && i < |ops|
    ensures var labels, issues := LabelOps(x, x.policy.names), IssueOps(x, x.inventory.records);
            && (i < |labels| ==> ops[i].CreateLabel?)
            && (|labels| <= i < |labels| + |issues| ==>
                  && ops[i] == issues[i - |labels|]
                  && !ops[i].CreateLabel?
                  && !ops[i].BindSubIssue?
                  && ops[..i] == labels + issues[..i - |labels|])
            && (|labels| + |issues| <= i ==> ops[i].BindSubIssue?)
  {
    var records := x.inventory.records;
    var binds := BindOps(x, Reused(x, records), Known(x, records), Existing(x), x.drafts);
    PlanShape(x);
    ThreeParts(LabelOps(x, x.policy.names), IssueOps(x, records), binds, ops, i);
    PartsAreOfTheirKind(x, ops[i]);
    assert ops[i] in binds ==> ops[i].BindSubIssue? by {
      BindOpsMember(x, Reused(x, records), Known(x, records), Existing(x), x.drafts, ops[i]);
    }
  }

  lemma ThreeParts(a: seq<Operation>, b: seq<Operation>, c: seq<Operation>, ops: seq<Operation>, i: nat)
    requires ops == a + b + c && i < |ops|
    ensures i < |a| ==> ops[i] in a
    ensures |a| <= i < |a| + |b| ==> ops[i] == b[i - |a|] && ops[i] in b && ops[..i] == a + b[..i - |a|]
    ensures |a| + |b| <= i ==> ops[i] in c
  {
  }

  lemma BindIsReady(x: PlanInput, trial: bool, alloc: map<Id, IssueRef>, ops: seq<Operation>, i: nat)
    requires FullPlan(x, trial, alloc) && Plan(x).conflicts == {} && ops == Plan(x).operations && i < |ops|
             && ops[i].BindSubIssue?
    ensures OpReady(x.policy, ops[i], Held(Before(x), alloc, ops, i), alloc)
  {
    PlanIsExecutable(x, trial, ops, i);
    ReusedHaveIssues(x);
    forall j | 0 <= j < |ops| && ops[j].CreateIssue? ensures ops[j].target in alloc {
      PartOf(x, ops, j);
      CreateIsReady(x, trial, alloc, ops[j]);
    }
    HeldRefs(Before(x), alloc, ops, i, ops[i].child);
    HeldRefs(Before(x), alloc, ops, i, ops[i].parent);
  }

  lemma IssueOpIsReady(x: PlanInput, trial: bool, alloc: map<Id, IssueRef>, ops: seq<Operation>, i: nat,
                       labels: seq<Operation>, issues: seq<Operation>)
    requires FullPlan(x, trial, alloc) && i < |ops| && labels == LabelOps(x, x.policy.names)
             && issues == IssueOps(x, x.inventory.records)
    requires |labels| <= i < |labels| + |issues| && ops[i] == issues[i - |labels|]
             && ops[..i] == labels + issues[..i - |labels|]
    requires !ops[i].CreateLabel? && !ops[i].BindSubIssue?
    ensures OpReady(x.policy, ops[i], Held(Before(x), alloc, ops, i), alloc)
  {
    if ops[i].CreateIssue? {
      CreateIsReady(x, trial, alloc, ops[i]);
    } else {
      var g0 := ApplyAll(Before(x), alloc, labels);
      HeldIsApplied(Before(x), alloc, ops, i);
      ApplyAllConcat(Before(x), alloc, labels, issues[..i - |labels|]);
      assert g0.issues == x.issues && g0.refs == Before(x).refs by { LabelPhase(x, alloc, x.policy.names); }
      UpdateIsReady(x, trial, alloc, g0, i - |labels|);
    }
  }

  lemma PlanIsReady(x: PlanInput, trial: bool, alloc: map<Id, IssueRef>, ops: seq<Operation>)
    requires FullPlan(x, trial, alloc) && Plan(x).conflicts == {} && ops == Plan(x).operations
    ensures AllReady(x.policy, Before(x), alloc, ops)
  {
    forall i: nat | i < |ops| ensures OpReady(x.policy, ops[i], Held(Before(x), alloc, ops, i), alloc) {
      var labels, issues := LabelOps(x, x.policy.names), IssueOps(x, x.inventory.records);
      PartOf(x, ops, i);
      if ops[i].BindSubIssue? {
        BindIsReady(x, trial, alloc, ops, i);
      } else if i >= |labels| {
        IssueOpIsReady(x, trial, alloc, ops, i, labels, issues);
      }
    }
  }

  /** A full conflict-free plan published through an honest client passes: every operation is sent and validated, and
      the reported issues are those of the repository that applying the plan leaves. */
  lemma HonestRunPasses(x: PlanInput, trial: bool, alloc: map<Id, IssueRef>, w: World)
    requires FullRun(x, trial, alloc) && Plan(x).conflicts == {} && Honest(w, Before(x), alloc, Plan(x).operations)
    ensures var r, g := Publish(x.policy, Plan(x), w), ApplyAll(Before(x), alloc, Plan(x).operations);
            && r.outcome == Pass && r.journalOk && r.writes == |Plan(x).operations|
            && r.issues == map id | id in g.refs :: g.refs[id].number
  {
    var b := Plan(x);
    assert RecordsPeaceful(x) by { PeacefulIff(x); }
    PlanIsReady(x, trial, alloc, b.operations);
    PlanShape(x);
    var end := HonestRunFrom(x.policy, b, w, Before(x), alloc, 0, Log(State(b.reused, 0, []), Journaled(Start)));
    HeldIsApplied(Before(x), alloc, b.operations, |b.operations|);
    assert b.operations[..|b.operations|] == b.operations;
    PassAndIncomplete(x.policy, b, w, Publish(x.policy, b, w));
  }

  // ---- there is such a client ----

  ghost function Listing(numbers: set<int>): (listed: seq<int>)
    ensures forall n :: n in listed <==> n in numbers
  {
    if exists n :: n in numbers then
      var n :| n in numbers;
      [n] + Listing(numbers - {n})
    else []
  }

  /** What GitHub returns for an operation after which it holds `after`. */
  function ReplyOf(op: Operation, after: GitHub): Reply {
    match op
    case CreateLabel(name, _) =>
      Object(None, None, if Lower(name) in after.labels then Some(after.labels[Lower(name)]) else None, None)
    case CreateIssue(id, _, _, _) =>
      if id in after.refs && after.refs[id].number in after.issues
      then Object(Some(after.refs[id].number), Some(after.refs[id].id), None, Some(after.issues[after.refs[id].number]))
      else NotAnObject
    case UpdateIssue(_, n, _, _, _, _) =>
      if n in after.issues then Object(None, None, None, Some(after.issues[n])) else NotAnObject
    case BindSubIssue(_, parent) =>
      if parent in after.refs then Object(Some(after.refs[parent].number), None, None, None) else NotAnObject
  }

  function ReadOf(op: Operation, before: GitHub): Option<Issue> {
    if op.UpdateIssue? && op.issue in before.issues then Some(before.issues[op.issue]) else None
  }

  function ParentReadOf(op: Operation, after: GitHub): ParentRead {
    if op.BindSubIssue? && op.child in after.refs && after.refs[op.child].number in after.issues
    then ParentOf(after.issues[after.refs[op.child].number]) else NoParent
  }

  ghost function ChildrenOf(op: Operation, after: GitHub): Option<seq<int>> {
    if op.BindSubIssue? && op.parent in after.refs
    then Some(Listing(set n | n in after.issues && after.issues[n].parent == Some(after.refs[op.parent].number)))
    else None
  }

  /** A client that keeps every record and answers each operation with what the repository then holds. */
  ghost function HonestWorld(start: GitHub, alloc: map<Id, IssueRef>, ops: seq<Operation>): World {
    World(true, true, (i: nat) => true, (i: nat) => true, (i: nat) => true,
          (i: nat) => if i < |ops| then ReadOf(ops[i], Held(start, alloc, ops, i)) else None,
          (i: nat) => true,
          (i: nat) => if i < |ops| then ReplyOf(ops[i], Held(start, alloc, ops, i + 1)) else Raised,
          (i: nat) => if i < |ops| then ParentReadOf(ops[i], Held(start, alloc, ops, i + 1)) else ParentRaised,
          (i: nat) => if i < |ops| then ChildrenOf(ops[i], Held(start, alloc, ops, i + 1)) else None)
  }

  lemma AnswersAsAsked(w: World, i: nat, op: Operation, before: GitHub, after: GitHub)
    requires w.readBefore(i) == ReadOf(op, before) && w.reply(i) == ReplyOf(op, after)
    requires w.parentOf(i) == ParentReadOf(op, after) && w.childrenOf(i) == ChildrenOf(op, after)
    ensures Answers(w, i, op, before, after)
  {
  }

  lemma HonestWorldIsHonest(start: GitHub, alloc: map<Id, IssueRef>, ops: seq<Operation>)
    ensures Honest(HonestWorld(start, alloc, ops), start, alloc, ops)
  {
    var w := HonestWorld(start, alloc, ops);
    forall i: nat | i < |ops|
      ensures Keeps(w, i) && Answers(w, i, ops[i], Held(start, alloc, ops, i), Held(start, alloc, ops, i + 1))
    {
      AnswersAsAsked(w, i, ops[i], Held(start, alloc, ops, i), Held(start, alloc, ops, i + 1));
    }
  }

  /** Every full conflict-free plan can be published: some honest client lets its run pass. */
  lemma SomeRunPasses(x: PlanInput, trial: bool, alloc: map<Id, IssueRef>) returns (w: World)
    requires FullRun(x, trial, alloc) && Plan(x).conflicts == {}
    ensures Honest(w, Before(x), alloc, Plan(x).operations) && Publish(x.policy, Plan(x), w).outcome == Pass
  {
    w := HonestWorld(Before(x), alloc, Plan(x).operations);
    HonestWorldIsHonest(Before(x), alloc, Plan(x).operations);
    HonestRunPasses(x, trial, alloc, w);
  }
}
