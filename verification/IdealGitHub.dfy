/** A repository that does exactly what each operation asks, and what it holds after a full conflict-free plan. */
module IdealGitHub {
  import opened Common
  import opened IssueBody
  import opened Labels
  import opened Inventory
  import opened Planner
  import opened PlanFacts

  /** The repository and the issue of every record known so far. */
  datatype GitHub = GitHub(issues: map<int, Issue>, labels: map<string, LabelSpec>, refs: map<Id, IssueRef>)

  /** One operation, with `alloc` naming the number and id GitHub gives each record's new issue. */
  function ApplyOp(g: GitHub, alloc: map<Id, IssueRef>, op: Operation): GitHub {
    match op
    case CreateLabel(name, spec) =>
      g.(labels := g.labels[Lower(name) := spec])
    case CreateIssue(id, title, body, labels) =>
      if id !in alloc then g
      else
        var ref := alloc[id];
        g.(issues := g.issues[ref.number := Issue(ref.number, ref.id, title, body, labels, "open", None, None)],
           refs := g.refs[id := ref])
    case UpdateIssue(_, number, title, body, labels, _) =>
      if number !in g.issues then g
      else g.(issues := g.issues[number := g.issues[number].(title := title, body := body, labels := labels)])
    case BindSubIssue(child, parent) =>
      if child !in g.refs || parent !in g.refs || g.refs[child].number !in g.issues then g
      else
        var n := g.refs[child].number;
        g.(issues := g.issues[n := g.issues[n].(parent := Some(g.refs[parent].number))])
  }

  function ApplyAll(g: GitHub, alloc: map<Id, IssueRef>, ops: seq<Operation>): GitHub {
    if ops == [] then g else ApplyOp(ApplyAll(g, alloc, ops[..|ops| - 1]), alloc, ops[|ops| - 1])
  }

  lemma {:induction false} ApplyAllConcat(g: GitHub, alloc: map<Id, IssueRef>, a: seq<Operation>, b: seq<Operation>)
    ensures ApplyAll(g, alloc, a + b) == ApplyAll(ApplyAll(g, alloc, a), alloc, b)
  {
    if b == [] {
      assert a + b == a;
    } else {
      ApplyAllConcat(g, alloc, a, b[..|b| - 1]);
      assert (a + b)[..|a + b| - 1] == a + b[..|b| - 1];
    }
  }

  /** The reviewed label specifications: listed once, in lower case, under their own names, with known defaults. */
  ghost predicate PolicySound(p: Policy) {
    && (forall name :: name in p.specs <==> name in p.names)
    && (forall name :: name in p.specs ==> Lower(name) == name && p.specs[name].name == name)
    && (forall d, name ::
          d in DEFAULTED_DIMENSIONS && name in p.specs && HasPrefix(name, d) ==> ValidLabel(p.vocabulary, name))
  }

  /** New issues get positive numbers the repository does not use, a different one each. */
  ghost predicate AllocationFresh(x: PlanInput, alloc: map<Id, IssueRef>) {
    && (forall r :: r in x.inventory.records && Drafted(r) ==> r.id in alloc)
    && (forall id :: id in alloc ==> alloc[id].number >= 1 && alloc[id].number !in x.issues)
    && (forall id, id' :: id in alloc && id' in alloc && id != id' ==> alloc[id].number != alloc[id'].number)
  }

  /** A full run: an inventory with unique ids and sound targets, its own drafts, no selection and no scope. */
  ghost predicate FullRun(x: PlanInput, trial: bool, alloc: map<Id, IssueRef>) {
    && DraftsOf(x, trial) && x.selected.None? && x.scope.None?
    && TargetsSound(x.inventory.records) && NumbersSound(x.issues) && HitsSound(x.hits, x.issues)
    && PolicySound(x.policy) && AllocationFresh(x, alloc)
  }

  /** A full run in which no record has a conflict. */
  ghost predicate FullPlan(x: PlanInput, trial: bool, alloc: map<Id, IssueRef>) {
    FullRun(x, trial, alloc) && RecordsPeaceful(x)
  }

  /** The issue of a record once the plan is applied. */
  function RefAfter(x: PlanInput, alloc: map<Id, IssueRef>, id: Id): IssueRef
    requires id in Reused(x, x.inventory.records) || id in alloc
  {
    var reused := Reused(x, x.inventory.records);
    if id in reused then reused[id] else alloc[id]
  }

  /** A drafted record's issue after its own create or update. */
  function Written(x: PlanInput, trial: bool, alloc: map<Id, IssueRef>, r: Record): Issue
    requires Drafted(r) && (PlanRecord(x, r).ref.None? ==> r.id in alloc)
  {
    var d := DraftOf(r, trial);
    if PlanRecord(x, r).ref.None? then
      Issue(alloc[r.id].number, alloc[r.id].id, d.title, DraftBody(d), d.labels, "open", None, None)
    else if Usable(x, r.targetIssue) && UpdatedBody(x, r, d, x.issues[r.targetIssue.value]).Fresh? then
      var issue := x.issues[r.targetIssue.value];
      issue.(body := UpdatedBody(x, r, d, issue).body, labels := UpdatedLabels(x, d, issue))
    else
      Issue(0, 0, "", [], {}, "", None, None)
  }

  /** What `PlanTargeted` says when it finds no conflict. */
  lemma TargetedPlan(x: PlanInput, r: Record, d: Draft)
    requires r.targetIssue.Some? && PlanTargeted(x, r, d).conflicts == {}
    ensures Usable(x, r.targetIssue)
    ensures var issue := x.issues[r.targetIssue.value];
            && PlanTargeted(x, r, d).ref == Some(RefOf(issue))
            && Open(d.marker) in issue.body && UpdateClashes(x, d, issue) == {}
            && UpdatedBody(x, r, d, issue).Fresh?
            && PlanTargeted(x, r, d).op == UpdateNeeded(x, r, d, issue)
  {
    assert Usable(x, r.targetIssue);
    var issue := x.issues[r.targetIssue.value];
  }

  function UpdateNeeded(x: PlanInput, r: Record, d: Draft, issue: Issue): Option<Operation>
    requires UpdatedBody(x, r, d, issue).Fresh?
  {
    var body, labels := UpdatedBody(x, r, d, issue).body, UpdatedLabels(x, d, issue);
    if x.Chosen(r.id) && (issue.body != body || issue.labels != labels)
    then Some(UpdateIssue(r.id, issue.number, issue.title, body, labels, Fingerprint(x.policy, issue))) else None
  }

  /** In a full plan a drafted record without a target is created and one with a target is reused. */
  lemma DraftedRecordPlan(x: PlanInput, trial: bool, alloc: map<Id, IssueRef>, r: Record)
    requires FullPlan(x, trial, alloc) && r in x.inventory.records && Drafted(r)
    ensures r.targetIssue.None? ==>
              && PlanRecord(x, r).ref.None?
              && Marked(x.hits, SourceMarker(r.id)) == []
              && PlanRecord(x, r).op ==
                   Some(CreateIssue(r.id, r.title, DraftBody(DraftOf(r, trial)), RecordLabels(r, trial)))
    ensures r.targetIssue.Some? ==>
              && PlanRecord(x, r) == PlanTargeted(x, r, DraftOf(r, trial))
              && PlanTargeted(x, r, DraftOf(r, trial)).conflicts == {}
  {
    DraftsFound(x, trial);
    assert PlanRecord(x, r).conflicts == {};
  }

  lemma RefAfterOf(x: PlanInput, trial: bool, alloc: map<Id, IssueRef>, r: Record)
    requires FullPlan(x, trial, alloc) && r in x.inventory.records && Drafted(r)
    ensures r.id in Reused(x, x.inventory.records) <==> r.targetIssue.Some?
    ensures RefAfter(x, alloc, r.id) ==
              (if r.targetIssue.Some? then RefOf(x.issues[r.targetIssue.value]) else alloc[r.id])
    ensures r.targetIssue.Some? ==> RefAfter(x, alloc, r.id).number == r.targetIssue.value
    ensures Written(x, trial, alloc, r).number == RefAfter(x, alloc, r.id).number
            && Written(x, trial, alloc, r).id == RefAfter(x, alloc, r.id).id
    ensures Written(x, trial, alloc, r).state == "open"
  {
    DraftedRecordPlan(x, trial, alloc, r);
    if r.targetIssue.Some? { TargetedPlan(x, r, DraftOf(r, trial)); }
    ReusedFinds(x, x.inventory.records);
  }

  lemma SameTargetSameRecord(records: seq<Record>, r: Record, r': Record)
    requires TargetsSound(records) && r in records && r' in records && r.targetIssue.Some?
             && r.targetIssue == r'.targetIssue
    ensures r == r'
  {
    var i :| 0 <= i < |records| && records[i] == r;
    var j :| 0 <= j < |records| && records[j] == r';
  }

  /** No two drafted records end on the same issue. */
  lemma NumbersDiffer(x: PlanInput, trial: bool, alloc: map<Id, IssueRef>, r: Record, r': Record)
    requires FullPlan(x, trial, alloc) && r in x.inventory.records && r' in x.inventory.records && Drafted(r)
             && Drafted(r')
    requires r != r'
    ensures RefAfter(x, alloc, r.id).number != RefAfter(x, alloc, r'.id).number
  {
    RefAfterOf(x, trial, alloc, r);
    RefAfterOf(x, trial, alloc, r');
    if r.targetIssue.Some? { DraftedRecordPlan(x, trial, alloc, r); TargetedPlan(x, r, DraftOf(r, trial)); }
    if r'.targetIssue.Some? { DraftedRecordPlan(x, trial, alloc, r'); TargetedPlan(x, r', DraftOf(r', trial)); }
    if r.targetIssue.Some? && r'.targetIssue.Some? {
      if r.targetIssue == r'.targetIssue { SameTargetSameRecord(x.inventory.records, r, r'); }
    } else if r.id == r'.id {
      SameIdSameRecord(x.inventory.records, r, r');
    }
  }

  // ---- phase one: labels ----

  function Before(x: PlanInput): GitHub {
    GitHub(x.issues, x.labels, Reused(x, x.inventory.records))
  }

  /** Only labels have changed: the existing ones are kept, reviewed ones are added,
      and the needed ones of `names` exist. */
  ghost predicate LabelsFor(x: PlanInput, names: seq<string>, g: GitHub) {
    && g.issues == x.issues && g.refs == Before(x).refs
    && (forall k :: k in x.labels ==> k in g.labels && g.labels[k] == x.labels[k])
    && (forall k :: k in g.labels && k !in x.labels ==> k in x.policy.specs && g.labels[k] == x.policy.specs[k])
    && (forall name :: name in names && name in x.policy.specs && LabelNeeded(x, name) ==> name in g.labels)
  }

  lemma LabelStep(x: PlanInput, alloc: map<Id, IssueRef>, front: seq<string>, name: string, g: GitHub)
    requires PolicySound(x.policy) && LabelsFor(x, front, g)
    ensures LabelsFor(x, front + [name], Advance(g, alloc, LabelOpOf(x, name)))
  {
  }

  lemma {:induction false} LabelPhase(x: PlanInput, alloc: map<Id, IssueRef>, names: seq<string>)
    requires PolicySound(x.policy)
    ensures LabelsFor(x, names, ApplyAll(Before(x), alloc, LabelOps(x, names)))
  {
    if names != [] {
      var front, name := names[..|names| - 1], names[|names| - 1];
      LabelPhase(x, alloc, front);
      assert names == front + [name];
      LabelStep(x, alloc, front, name, ApplyAll(Before(x), alloc, LabelOps(x, front)));
      ApplyLast(Before(x), alloc, LabelOps(x, front), LabelOpOf(x, name));
    }
  }

  // ---- phase two: creates and updates ----

  function DraftedIds(records: seq<Record>): set<Id> {
    set r | r in records && Drafted(r) :: r.id
  }

  /** The issue of every drafted record once the plan is applied. */
  function RefsAfter(x: PlanInput, alloc: map<Id, IssueRef>): map<Id, IssueRef> {
    map id | id in DraftedIds(x.inventory.records) && (id in Reused(x, x.inventory.records) || id in alloc) ::
      RefAfter(x, alloc, id)
  }

  /** What those issues hold after the creates and updates. */
  function WrittenAll(x: PlanInput, trial: bool, alloc: map<Id, IssueRef>): map<Id, Issue> {
    var byId := ById(x.inventory);
    map id | id in byId && Drafted(byId[id]) && (PlanRecord(x, byId[id]).ref.None? ==> byId[id].id in alloc) ::
      Written(x, trial, alloc, byId[id])
  }

  /** An issue none of `ids` ends on. */
  ghost predicate Apart(refs: map<Id, IssueRef>, ids: set<Id>, n: int) {
    forall id :: id in ids && id in refs ==> refs[id].number != n
  }

  ghost predicate HoldsWritten(refs: map<Id, IssueRef>, written: map<Id, Issue>, ids: set<Id>, g: GitHub) {
    forall id :: id in ids ==>
      && id in refs && id in written && id in g.refs && g.refs[id] == refs[id]
      && refs[id].number in g.issues && g.issues[refs[id].number] == written[id]
  }

  ghost predicate KeepsOthers(before: GitHub, refs: map<Id, IssueRef>, ids: set<Id>, g: GitHub) {
    && (forall n :: n in before.issues && Apart(refs, ids, n) ==> n in g.issues && g.issues[n] == before.issues[n])
    && (forall n :: n in g.issues && n !in before.issues ==> !Apart(refs, ids, n))
  }

  /** The issues of `ids` hold `written` and every other issue is as in `before`. */
  ghost predicate WrittenFor(before: GitHub, refs: map<Id, IssueRef>, written: map<Id, Issue>, ids: set<Id>,
                             g: GitHub) {
    && g.labels == before.labels
    && HoldsWritten(refs, written, ids, g)
    && KeepsOthers(before, refs, ids, g)
    && (forall id :: id in before.refs ==> id in g.refs && g.refs[id] == before.refs[id])
  }

  lemma ApartMore(refs: map<Id, IssueRef>, ids: set<Id>, id: Id, n: int)
    requires id in refs
    ensures Apart(refs, ids + {id}, n) <==> Apart(refs, ids, n) && refs[id].number != n
  {
    assert id in ids + {id};
    assert forall k :: k in ids ==> k in ids + {id};
  }

  lemma OthersAreKept(before: GitHub, refs: map<Id, IssueRef>, ids: set<Id>, g: GitHub, id: Id, issue: Issue)
    requires KeepsOthers(before, refs, ids, g) && id in refs
    ensures KeepsOthers(before, refs, ids + {id},
                        g.(issues := g.issues[refs[id].number := issue], refs := g.refs[id := refs[id]]))
  {
    forall n
      ensures Apart(refs, ids +
    {
      id}, n) <==> Apart(refs, ids, n) && refs[id].number != n { ApartMore(refs, ids, id, n);
    }
  }

  lemma WriteOne(before: GitHub, refs: map<Id, IssueRef>, written: map<Id, Issue>, ids: set<Id>, g: GitHub, id: Id)
    requires WrittenFor(before, refs, written, ids, g) && id in refs && id in written
    requires forall k :: k in ids && k in refs ==> refs[k].number != refs[id].number && k != id
    requires id in before.refs ==> before.refs[id] == refs[id]
    ensures WrittenFor(before, refs, written, ids + {id},
                       g.(issues := g.issues[refs[id].number := written[id]], refs := g.refs[id := refs[id]]))
  {
    OthersAreKept(before, refs, ids, g, id, written[id]);
  }

  function Advance(g: GitHub, alloc: map<Id, IssueRef>, op: Option<Operation>): GitHub {
    if op.Some? then ApplyOp(g, alloc, op.value) else g
  }

  /** An update, or its absence, leaves the issue with the new body and labels. */
  lemma UpdateEffect(x: PlanInput, alloc: map<Id, IssueRef>, r: Record, d: Draft, g: GitHub, issue: Issue)
    requires r.targetIssue.Some? && PlanTargeted(x, r, d).conflicts == {} && x.Chosen(r.id)
    requires r.targetIssue.value in x.issues && issue == x.issues[r.targetIssue.value]
             && issue.number == r.targetIssue.value
    requires issue.number in g.issues && g.issues[issue.number] == issue
    ensures UpdatedBody(x, r, d, issue).Fresh?
    ensures Advance(g, alloc, PlanTargeted(x, r, d).op) ==
              g.(issues := g.issues[issue.number := issue.(body := UpdatedBody(x, r, d, issue).body,
                                                           labels := UpdatedLabels(x, d, issue))])
  {
    TargetedPlan(x, r, d);
    var w := issue.(body := UpdatedBody(x, r, d, issue).body, labels := UpdatedLabels(x, d, issue));
    if w == issue {
      assert g.issues[issue.number := w] == g.issues;
    }
  }

  /** A drafted record's operation, or its absence, leaves its issue as written and touches nothing else. */
  lemma WriteEffect(x: PlanInput, trial: bool, alloc: map<Id, IssueRef>, r: Record, g: GitHub, ref: IssueRef)
    requires FullPlan(x, trial, alloc) && r in x.inventory.records && Drafted(r)
    requires ref == RefAfter(x, alloc, r.id)
    requires r.targetIssue.Some? ==>
               && r.targetIssue.value in g.issues && r.targetIssue.value in x.issues
               && g.issues[r.targetIssue.value] == x.issues[r.targetIssue.value]
               && r.id in g.refs && g.refs[r.id] == ref
    ensures Advance(g, alloc, PlanRecord(x, r).op) ==
              g.(issues := g.issues[ref.number := Written(x, trial, alloc, r)], refs := g.refs[r.id := ref])
  {
    RefAfterOf(x, trial, alloc, r);
    DraftedRecordPlan(x, trial, alloc, r);
    if r.targetIssue.Some? {
      assert g.refs[r.id := ref] == g.refs;
      UpdateEffect(x, alloc, r, DraftOf(r, trial), g, x.issues[r.targetIssue.value]);
    }
  }

  lemma AfterMaps(x: PlanInput, trial: bool, alloc: map<Id, IssueRef>, r: Record)
    requires FullPlan(x, trial, alloc) && r in x.inventory.records && Drafted(r)
    ensures r.id in RefsAfter(x, alloc) && RefsAfter(x, alloc)[r.id] == RefAfter(x, alloc, r.id)
    ensures r.id in WrittenAll(x, trial, alloc) && WrittenAll(x, trial, alloc)[r.id] == Written(x, trial, alloc, r)
  {
    KeyedByFinds(x.inventory.records, IdOf);
    assert IdOf(r) == r.id;
    assert r.id in DraftedIds(x.inventory.records);
  }

  lemma OtherIds(x: PlanInput, trial: bool, alloc: map<Id, IssueRef>, front: seq<Record>, r: Record)
    requires FullPlan(x, trial, alloc) && r in x.inventory.records && Drafted(r)
    requires front + [r] <= x.inventory.records
    ensures forall k ::
              k in DraftedIds(front) && k in RefsAfter(x, alloc) ==>
                RefsAfter(x, alloc)[k].number != RefsAfter(x, alloc)[r.id].number && k != r.id
    ensures r.id in RefsAfter(x, alloc)
  {
    AfterMaps(x, trial, alloc, r);
    forall k | k in DraftedIds(front) && k in RefsAfter(x, alloc)
      ensures RefsAfter(x, alloc)[k].number != RefsAfter(x, alloc)[r.id].number && k != r.id
    {
      var q :| q in front && Drafted(q) && q.id == k;
      var i :| 0 <= i < |front| && front[i] == q;
      assert x.inventory.records[i] == (front + [r])[i] && x.inventory.records[|front|] == (front + [r])[|front|];
      assert IdOf(x.inventory.records[i]) != IdOf(x.inventory.records[|front|]);
      AfterMaps(x, trial, alloc, q);
      NumbersDiffer(x, trial, alloc, q, r);
    }
  }

  lemma ApplyLast(g: GitHub, alloc: map<Id, IssueRef>, a: seq<Operation>, op: Option<Operation>)
    ensures ApplyAll(g, alloc, a + (if op.Some? then [op.value] else [])) == Advance(ApplyAll(g, alloc, a), alloc, op)
  {
    if op.Some? { assert (a + [op.value])[..|a|] == a; } else { assert a + [] == a; }
  }

  /** After the operations of a prefix of the records, exactly the drafted ones of that prefix are written. */
  lemma {:induction false} IssuePhase(x: PlanInput, trial: bool, alloc: map<Id, IssueRef>, g0: GitHub,
                                      records: seq<Record>)
    requires FullPlan(x, trial, alloc) && records <= x.inventory.records
    requires g0.issues == x.issues && g0.refs == Before(x).refs
    ensures WrittenFor(g0, RefsAfter(x, alloc), WrittenAll(x, trial, alloc), DraftedIds(records),
                       ApplyAll(g0, alloc, IssueOps(x, records)))
  {
    if records == [] {
      NothingWritten(g0, RefsAfter(x, alloc), WrittenAll(x, trial, alloc));
    } else {
      var front, r := records[..|records| - 1], records[|records| - 1];
      IssuePhase(x, trial, alloc, g0, front);
      assert records == front + [r];
      var g := ApplyAll(g0, alloc, IssueOps(x, front));
      IssueStep(x, trial, alloc, g0, front, r, g);
      LastRecord(x, g0, alloc, front, r);
    }
  }

  lemma NothingWritten(g: GitHub, refs: map<Id, IssueRef>, written: map<Id, Issue>)
    ensures WrittenFor(g, refs, written, DraftedIds([]), g)
  {
  }

  lemma LastRecord(x: PlanInput, g: GitHub, alloc: map<Id, IssueRef>, front: seq<Record>, r: Record)
    ensures DraftedIds(front + [r]) == DraftedIds(front) + (if Drafted(r) then {r.id} else {})
    ensures ApplyAll(g, alloc, IssueOps(x, front + [r])) ==
              Advance(ApplyAll(g, alloc, IssueOps(x, front)), alloc, PlanRecord(x, r).op)
  {
    assert (front + [r])[..|front|] == front;
    ApplyLast(g, alloc, IssueOps(x, front), PlanRecord(x, r).op);
  }

  lemma IssueStep(x: PlanInput, trial: bool, alloc: map<Id, IssueRef>, g0: GitHub, front: seq<Record>, r: Record,
                  g: GitHub)
    requires FullPlan(x, trial, alloc) && front + [r] <= x.inventory.records
    requires g0.issues == x.issues && g0.refs == Before(x).refs
    requires WrittenFor(g0, RefsAfter(x, alloc), WrittenAll(x, trial, alloc), DraftedIds(front), g)
    ensures WrittenFor(g0, RefsAfter(x, alloc), WrittenAll(x, trial, alloc),
                       DraftedIds(front) + (if Drafted(r) then {r.id} else {}), Advance(g, alloc, PlanRecord(x, r).op))
  {
    if Drafted(r) {
      assert x.inventory.records[|front|] == (front + [r])[|front|];
      var refs, written := RefsAfter(x, alloc), WrittenAll(x, trial, alloc);
      OtherIds(x, trial, alloc, front, r);
      AfterMaps(x, trial, alloc, r);
      RefAfterOf(x, trial, alloc, r);
      if r.targetIssue.Some? { DraftedRecordPlan(x, trial, alloc, r); TargetedPlan(x, r, DraftOf(r, trial)); }
      WriteEffect(x, trial, alloc, r, g, refs[r.id]);
      WriteOne(g0, refs, written, DraftedIds(front), g, r.id);
    } else {
      assert PlanRecord(x, r).op.None?;
      assert DraftedIds(front) + {} == DraftedIds(front);
    }
  }

  // ---- phase three: native parents ----

  ghost predicate FullyPeaceful(x: PlanInput, trial: bool, alloc: map<Id, IssueRef>) {
    FullPlan(x, trial, alloc)
    && BindingsPeaceful(x, Reused(x, x.inventory.records), Known(x, x.inventory.records), Existing(x))
  }

  /** The native parent a draft's issue ends with. */
  function ParentAfter(refs: map<Id, IssueRef>, d: Draft): Option<int> {
    if d.parent.Some? && d.parent.value in refs then Some(refs[d.parent.value].number) else None
  }

  function BindingOf(x: PlanInput, d: Draft): Option<Operation> {
    if PlanBinding(x, Reused(x, x.inventory.records), Known(x, x.inventory.records), Existing(x),
                   d).Bind? && d.parent.Some?
    then Some(BindSubIssue(d.recordId, d.parent.value)) else None
  }

  /** The binding of a full plan in terms of what was read: it is planned exactly for a child without its parent. */
  lemma FullBinding(x: PlanInput, d: Draft, reused: map<Id, IssueRef>, current: Option<int>)
    requires x.selected.None? && x.scope.None? && reused == Reused(x, x.inventory.records)
    requires current ==
               if d.recordId in reused && reused[d.recordId].number in x.issues
               then x.issues[reused[d.recordId].number].parent
               else None
    requires !PlanBinding(x, reused, Known(x, x.inventory.records), Existing(x), d).Conflicting?
    ensures d.parent.None? ==> current.None? && BindingOf(x, d).None?
    ensures d.parent.Some? ==>
              && d.parent.value in x.DraftsById()
              && (BindingOf(x, d).Some? <==> current.None?)
              && (current.Some? ==> d.parent.value in reused && current.value == reused[d.parent.value].number)
  {
    KnownOutside(x, x.inventory.records);
  }

  lemma PlannedParent(x: PlanInput, trial: bool, alloc: map<Id, IssueRef>, r: Record)
    requires FullyPeaceful(x, trial, alloc) && r in x.inventory.records && Drafted(r)
    ensures r.parent.Some? ==> r.parent.value in RefsAfter(x, alloc)
    ensures BindingOf(x, DraftOf(r, trial)) ==
              if r.parent.Some? && Written(x, trial, alloc, r).parent.None?
              then Some(BindSubIssue(r.id, r.parent.value))
              else None
    ensures BindingOf(x, DraftOf(r, trial)).None? ==>
              Written(x, trial, alloc, r).parent == ParentAfter(RefsAfter(x, alloc), DraftOf(r, trial))
  {
    var reused := Reused(x, x.inventory.records);
    var d := DraftOf(r, trial);
    DraftsFound(x, trial);
    RefAfterOf(x, trial, alloc, r);
    var current := if r.id in reused && reused[r.id].number in x.issues
                   then x.issues[reused[r.id].number].parent
                   else None;
    FullBinding(x, d, reused, current);
    assert Written(x, trial, alloc, r).parent == current by {
      DraftedRecordPlan(x, trial, alloc, r);
      if r.targetIssue.Some? { TargetedPlan(x, r, d); }
    }
    if r.parent.Some? {
      var q :| q in x.inventory.records && Drafted(q) && q.id == r.parent.value;
      AfterMaps(x, trial, alloc, q);
    }
  }

  /** The issues of `ids` have their parent and every other issue is as in `before`. */
  ghost predicate BoundFor(before: GitHub, refs: map<Id, IssueRef>, parents: map<Id, Option<int>>, ids: set<Id>,
                           g: GitHub) {
    && g.labels == before.labels && g.refs == before.refs && g.issues.Keys == before.issues.Keys
    && (forall id :: id in ids ==>
          && id in refs && id in parents && refs[id].number in before.issues
          && g.issues[refs[id].number] == before.issues[refs[id].number].(parent := parents[id]))
    && (forall n ::
          n in before.issues && (forall id :: id in ids && id in refs ==> refs[id].number != n) ==>
            g.issues[n] == before.issues[n])
  }

  lemma BindOne(before: GitHub, refs: map<Id, IssueRef>, parents: map<Id, Option<int>>, ids: set<Id>, g: GitHub, id: Id)
    requires BoundFor(before, refs, parents, ids, g) && id in refs && id in parents && refs[id].number in before.issues
    requires forall k :: k in ids && k in refs ==> refs[k].number != refs[id].number && k != id
    ensures BoundFor(before, refs, parents, ids + {id},
                     g.(issues := g.issues[refs[id].number := before.issues[refs[id].number].(parent := parents[id])]))
  {
    forall n | n in before.issues && (forall k :: k in ids + {id} && k in refs ==> refs[k].number != n)
      ensures (forall k :: k in ids && k in refs ==> refs[k].number != n) && n != refs[id].number
    {
      assert id in ids + {id};
      forall k | k in ids && k in refs ensures refs[k].number != n { assert k in ids + {id}; }
    }
  }

  function ParentsAfter(x: PlanInput, trial: bool, alloc: map<Id, IssueRef>): map<Id, Option<int>> {
    var drafts := x.DraftsById();
    map id | id in drafts :: ParentAfter(RefsAfter(x, alloc), drafts[id])
  }

  function DraftIds(drafts: seq<Draft>): set<Id> {
    set d | d in drafts :: d.recordId
  }

  /** Every drafted record's issue is written. */
  ghost predicate AllWritten(x: PlanInput, trial: bool, alloc: map<Id, IssueRef>, g: GitHub) {
    forall r :: r in x.inventory.records && Drafted(r) ==>
      && r.id in RefsAfter(x, alloc) && r.id in g.refs && g.refs[r.id] == RefsAfter(x, alloc)[r.id]
      && RefsAfter(x, alloc)[r.id].number in g.issues
      && r.id in WrittenAll(x, trial, alloc)
      && g.issues[RefsAfter(x, alloc)[r.id].number] == WrittenAll(x, trial, alloc)[r.id]
  }

  /** A draft's binding, or its absence, leaves its issue with its parent and touches nothing else. */
  lemma BindEffect(x: PlanInput, trial: bool, alloc: map<Id, IssueRef>, g: GitHub, r: Record, n: int)
    requires FullyPeaceful(x, trial, alloc) && r in x.inventory.records && Drafted(r)
    requires r.id in RefsAfter(x, alloc) && n == RefsAfter(x, alloc)[r.id].number
    requires n in g.issues && g.issues[n] == Written(x, trial, alloc, r)
    requires r.id in g.refs && g.refs[r.id].number == n
    requires r.parent.Some? ==>
               r.parent.value in RefsAfter(x, alloc) && r.parent.value in g.refs
               && g.refs[r.parent.value] == RefsAfter(x, alloc)[r.parent.value]
    ensures Advance(g, alloc, BindingOf(x, DraftOf(r, trial))) ==
              g.(issues := g.issues[n := g.issues[n].(parent := ParentAfter(RefsAfter(x, alloc), DraftOf(r, trial)))])
  {
    PlannedParent(x, trial, alloc, r);
    BindAdvances(g, alloc, BindingOf(x, DraftOf(r, trial)), r.id, n,
                 ParentAfter(RefsAfter(x, alloc), DraftOf(r, trial)));
  }

  lemma BindAdvances(g: GitHub, alloc: map<Id, IssueRef>, op: Option<Operation>, id: Id, n: int, parent: Option<int>)
    requires n in g.issues && id in g.refs && g.refs[id].number == n
    requires op.None? ==> g.issues[n].parent == parent
    requires op.Some? ==>
               op.value.BindSubIssue? && op.value.child == id && op.value.parent in g.refs
               && parent == Some(g.refs[op.value.parent].number)
    ensures Advance(g, alloc, op) == g.(issues := g.issues[n := g.issues[n].(parent := parent)])
  {
    if op.None? { assert g.issues[n := g.issues[n].(parent := parent)] == g.issues; }
  }

  lemma ParentWritten(x: PlanInput, trial: bool, alloc: map<Id, IssueRef>, g: GitHub, r: Record)
    requires FullyPeaceful(x, trial, alloc) && r in x.inventory.records && Drafted(r) && AllWritten(x, trial, alloc, g)
    ensures r.parent.Some? ==>
              r.parent.value in RefsAfter(x, alloc) && r.parent.value in g.refs
              && g.refs[r.parent.value] == RefsAfter(x, alloc)[r.parent.value]
  {
    PlannedParent(x, trial, alloc, r);
    if r.parent.Some? {
      assert r.parent.value in DraftedIds(x.inventory.records);
      var q :| q in x.inventory.records && Drafted(q) && q.id == r.parent.value;
    }
  }

  lemma BindStep(x: PlanInput, trial: bool, alloc: map<Id, IssueRef>, g1: GitHub, front: seq<Draft>, d: Draft,
                 g: GitHub)
    requires FullyPeaceful(x, trial, alloc) && AllWritten(x, trial, alloc, g1) && front + [d] <= x.drafts
    requires BoundFor(g1, RefsAfter(x, alloc), ParentsAfter(x, trial, alloc), DraftIds(front), g)
    ensures BoundFor(g1, RefsAfter(x, alloc), ParentsAfter(x, trial, alloc), DraftIds(front) + {d.recordId},
                     Advance(g, alloc, BindingOf(x, d)))
  {
    var refs, parents := RefsAfter(x, alloc), ParentsAfter(x, trial, alloc);
    assert x.drafts[|front|] == (front + [d])[|front|] == d;
    DraftIssuesMember(x.inventory.records, trial, d);
    var r :| r in x.inventory.records && Drafted(r) && d == DraftOf(r, trial);
    var n := refs[r.id].number;
    OtherDrafts(x, trial, alloc, front, d);
    assert g.issues[n] == g1.issues[n] == Written(x, trial, alloc, r) by { AfterMaps(x, trial, alloc, r); }
    ParentWritten(x, trial, alloc, g1, r);
    BindEffect(x, trial, alloc, g, r, n);
    assert r.id in parents && parents[r.id] == ParentAfter(refs, d) by { DraftsFound(x, trial); }
    BindOne(g1, refs, parents, DraftIds(front), g, r.id);
  }

  lemma TwoDrafts(x: PlanInput, trial: bool, alloc: map<Id, IssueRef>, i: nat, j: nat)
    requires FullPlan(x, trial, alloc) && i < j < |x.drafts|
    ensures var a, b := x.drafts[i].recordId, x.drafts[j].recordId;
            a in RefsAfter(x, alloc) && b in RefsAfter(x, alloc) && a != b
            && RefsAfter(x, alloc)[a].number != RefsAfter(x, alloc)[b].number
  {
    DraftIdsDistinct(x.inventory.records, trial);
    assert DraftId(x.drafts[i]) != DraftId(x.drafts[j]);
    DraftIssuesMember(x.inventory.records, trial, x.drafts[i]);
    DraftIssuesMember(x.inventory.records, trial, x.drafts[j]);
    var q :| q in x.inventory.records && Drafted(q) && x.drafts[i] == DraftOf(q, trial);
    var r :| r in x.inventory.records && Drafted(r) && x.drafts[j] == DraftOf(r, trial);
    AfterMaps(x, trial, alloc, q);
    AfterMaps(x, trial, alloc, r);
    NumbersDiffer(x, trial, alloc, q, r);
  }

  lemma OtherDrafts(x: PlanInput, trial: bool, alloc: map<Id, IssueRef>, front: seq<Draft>, d: Draft)
    requires FullPlan(x, trial, alloc) && front + [d] <= x.drafts && d.recordId in RefsAfter(x, alloc)
    ensures forall k ::
              k in DraftIds(front) && k in RefsAfter(x, alloc) ==>
                RefsAfter(x, alloc)[k].number != RefsAfter(x, alloc)[d.recordId].number && k != d.recordId
  {
    forall k | k in DraftIds(front) && k in RefsAfter(x, alloc)
      ensures RefsAfter(x, alloc)[k].number != RefsAfter(x, alloc)[d.recordId].number && k != d.recordId
    {
      var i :| 0 <= i < |front| && front[i].recordId == k;
      assert x.drafts[i] == (front + [d])[i] && x.drafts[|front|] == (front + [d])[|front|];
      TwoDrafts(x, trial, alloc, i, |front|);
    }
  }

  lemma {:induction false} BindPhase(x: PlanInput, trial: bool, alloc: map<Id, IssueRef>, g1: GitHub,
                                     drafts: seq<Draft>)
    requires FullyPeaceful(x, trial, alloc) && AllWritten(x, trial, alloc, g1) && drafts <= x.drafts
    ensures BoundFor(g1, RefsAfter(x, alloc), ParentsAfter(x, trial, alloc), DraftIds(drafts),
                     ApplyAll(g1, alloc, BindOps(x, Reused(x, x.inventory.records), Known(x, x.inventory.records),
                                                 Existing(x), drafts)))
  {
    if drafts == [] {
      NothingBound(g1, RefsAfter(x, alloc), ParentsAfter(x, trial, alloc));
    } else {
      var front, d := drafts[..|drafts| - 1], drafts[|drafts| - 1];
      BindPhase(x, trial, alloc, g1, front);
      assert drafts == front + [d];
      BindStep(x, trial, alloc, g1, front, d,
               ApplyAll(g1, alloc,
                        BindOps(x, Reused(x, x.inventory.records), Known(x, x.inventory.records), Existing(x), front)));
      LastDraft(x, g1, alloc, front, d);
    }
  }

  lemma NothingBound(g: GitHub, refs: map<Id, IssueRef>, parents: map<Id, Option<int>>)
    ensures BoundFor(g, refs, parents, DraftIds([]), g)
  {
  }

  lemma LastDraft(x: PlanInput, g: GitHub, alloc: map<Id, IssueRef>, front: seq<Draft>, d: Draft)
    ensures DraftIds(front + [d]) == DraftIds(front) + {d.recordId}
    ensures var reused, known := Reused(x, x.inventory.records), Known(x, x.inventory.records);
            ApplyAll(g, alloc, BindOps(x, reused, known, Existing(x), front + [d]))
              == Advance(ApplyAll(g, alloc, BindOps(x, reused, known, Existing(x), front)), alloc, BindingOf(x, d))
  {
    assert (front + [d])[..|front|] == front;
    ApplyLast(g, alloc, BindOps(x, Reused(x, x.inventory.records), Known(x, x.inventory.records), Existing(x), front),
              BindingOf(x, d));
  }

  // ---- the whole plan ----

  /** A drafted record's issue once the whole plan is applied. */
  function Settled(x: PlanInput, trial: bool, alloc: map<Id, IssueRef>, r: Record): Issue
    requires Drafted(r) && (PlanRecord(x, r).ref.None? ==> r.id in alloc)
  {
    Written(x, trial, alloc, r).(parent := ParentAfter(RefsAfter(x, alloc), DraftOf(r, trial)))
  }

  /** The repository after a full conflict-free plan: each drafted record's issue is settled, no other issue has changed
      or appeared, and every label the drafts carry exists. */
  ghost predicate Applied(x: PlanInput, trial: bool, alloc: map<Id, IssueRef>, g: GitHub)
    requires FullPlan(x, trial, alloc)
  {
    && (forall r :: r in x.inventory.records && Drafted(r) ==>
          && RefAfter(x, alloc, r.id).number in g.issues
          && g.issues[RefAfter(x, alloc, r.id).number] == Settled(x, trial, alloc, r)
          && r.id in g.refs && g.refs[r.id] == RefAfter(x, alloc, r.id))
    && (forall n :: OutsideDrafted(x, trial, alloc, n) ==>
          (n in x.issues <==> n in g.issues) && (n in x.issues ==> g.issues[n] == x.issues[n]))
    && (forall k :: k in x.labels ==> k in g.labels && g.labels[k] == x.labels[k])
    && (forall k :: k in g.labels && k !in x.labels ==> k in x.policy.specs && g.labels[k] == x.policy.specs[k])
    && (forall name :: name in x.policy.specs && LabelNeeded(x, name) ==> name in g.labels)
  }

  lemma AllWrittenFromPhase(x: PlanInput, trial: bool, alloc: map<Id, IssueRef>, g0: GitHub, g: GitHub)
    requires FullPlan(x, trial, alloc)
    requires WrittenFor(g0, RefsAfter(x, alloc), WrittenAll(x, trial, alloc), DraftedIds(x.inventory.records), g)
    ensures AllWritten(x, trial, alloc, g)
  {
    forall r | r in x.inventory.records && Drafted(r) ensures r.id in DraftedIds(x.inventory.records) {
    }
  }

  lemma DraftIdsAreDraftedIds(x: PlanInput, trial: bool)
    requires DraftsOf(x, trial)
    ensures DraftIds(x.drafts) == DraftedIds(x.inventory.records)
  {
    DraftsFound(x, trial);
    forall id | id in DraftedIds(x.inventory.records) ensures id in DraftIds(x.drafts) {
      var r :| r in x.inventory.records && Drafted(r) && r.id == id;
      assert DraftOf(r, trial) in x.drafts && DraftOf(r, trial).recordId == id;
    }
  }

  /** From what the two issue phases leave to what each drafted record's issue holds. */
  lemma SettledIssues(x: PlanInput, trial: bool, alloc: map<Id, IssueRef>, g0: GitHub, g1: GitHub, g2: GitHub,
                      r: Record)
    requires FullPlan(x, trial, alloc) && r in x.inventory.records && Drafted(r)
    requires WrittenFor(g0, RefsAfter(x, alloc), WrittenAll(x, trial, alloc), DraftedIds(x.inventory.records), g1)
    requires BoundFor(g1, RefsAfter(x, alloc), ParentsAfter(x, trial, alloc), DraftedIds(x.inventory.records), g2)
    ensures RefAfter(x, alloc, r.id).number in g2.issues
            && g2.issues[RefAfter(x, alloc, r.id).number] == Settled(x, trial, alloc, r)
    ensures r.id in g2.refs && g2.refs[r.id] == RefAfter(x, alloc, r.id)
  {
    AfterMaps(x, trial, alloc, r);
    assert r.id in DraftedIds(x.inventory.records);
    DraftsFound(x, trial);
  }

  ghost predicate OutsideDrafted(x: PlanInput, trial: bool, alloc: map<Id, IssueRef>, n: int)
    requires FullPlan(x, trial, alloc)
  {
    forall r :: r in x.inventory.records && Drafted(r) ==> RefAfter(x, alloc, r.id).number != n
  }

  lemma OutsideIds(x: PlanInput, trial: bool, alloc: map<Id, IssueRef>, n: int)
    requires FullPlan(x, trial, alloc)
    ensures OutsideDrafted(x, trial, alloc, n) <==>
              forall id ::
                id in DraftedIds(x.inventory.records) && id in RefsAfter(x, alloc) ==>
                  RefsAfter(x, alloc)[id].number != n
  {
    forall id | id in DraftedIds(x.inventory.records) && id in RefsAfter(x, alloc)
      ensures OutsideDrafted(x, trial, alloc, n) ==> RefsAfter(x, alloc)[id].number != n
    {
      var r :| r in x.inventory.records && Drafted(r) && r.id == id;
      AfterMaps(x, trial, alloc, r);
    }
    forall r | r in x.inventory.records && Drafted(r)
      ensures r.id in RefsAfter(x, alloc) && r.id in DraftedIds(x.inventory.records)
              && RefsAfter(x, alloc)[r.id] == RefAfter(x, alloc, r.id)
    {
      AfterMaps(x, trial, alloc, r);
    }
  }

  lemma OtherIssues(before: GitHub, refs: map<Id, IssueRef>, written: map<Id, Issue>, parents: map<Id, Option<int>>,
                    ids: set<Id>, g1: GitHub, g2: GitHub, n: int)
    requires WrittenFor(before, refs, written, ids, g1) && BoundFor(g1, refs, parents, ids, g2)
    requires forall id :: id in ids && id in refs ==> refs[id].number != n
    ensures n in before.issues <==> n in g2.issues
    ensures n in before.issues ==> g2.issues[n] == before.issues[n]
  {
  }

  lemma ApplyPlan(x: PlanInput, trial: bool, alloc: map<Id, IssueRef>)
    requires FullyPeaceful(x, trial, alloc)
    ensures Applied(x, trial, alloc, ApplyAll(Before(x), alloc, Plan(x).operations))
  {
    var records := x.inventory.records;
    var labelOps, issueOps := LabelOps(x, x.policy.names), IssueOps(x, records);
    var bindOps := BindOps(x, Reused(x, records), Known(x, records), Existing(x), x.drafts);
    PlanShape(x);
    ApplyAllConcat(Before(x), alloc, labelOps + issueOps, bindOps);
    ApplyAllConcat(Before(x), alloc, labelOps, issueOps);
    var g0 := ApplyAll(Before(x), alloc, labelOps);
    var g1 := ApplyAll(g0, alloc, issueOps);
    var g2 := ApplyAll(g1, alloc, bindOps);
    LabelPhase(x, alloc, x.policy.names);
    IssuePhase(x, trial, alloc, g0, records);
    AllWrittenFromPhase(x, trial, alloc, g0, g1);
    BindPhase(x, trial, alloc, g1, x.drafts);
    DraftIdsAreDraftedIds(x, trial);
    Assemble(x, trial, alloc, g0, g1, g2);
  }

  lemma Assemble(x: PlanInput, trial: bool, alloc: map<Id, IssueRef>, g0: GitHub, g1: GitHub, g2: GitHub)
    requires FullPlan(x, trial, alloc) && g0.issues == x.issues
    requires LabelsFor(x, x.policy.names, g0)
    requires WrittenFor(g0, RefsAfter(x, alloc), WrittenAll(x, trial, alloc), DraftedIds(x.inventory.records), g1)
    requires BoundFor(g1, RefsAfter(x, alloc), ParentsAfter(x, trial, alloc), DraftedIds(x.inventory.records), g2)
    ensures Applied(x, trial, alloc, g2)
  {
    forall r | r in x.inventory.records && Drafted(r)
      ensures RefAfter(x, alloc, r.id).number in g2.issues
              && g2.issues[RefAfter(x, alloc, r.id).number] == Settled(x, trial, alloc, r)
      ensures r.id in g2.refs && g2.refs[r.id] == RefAfter(x, alloc, r.id)
    {
      SettledIssues(x, trial, alloc, g0, g1, g2, r);
    }
    forall n | OutsideDrafted(x, trial, alloc, n)
      ensures (n in x.issues <==> n in g2.issues) && (n in x.issues ==> g2.issues[n] == x.issues[n])
    {
      OutsideIds(x, trial, alloc, n);
      OtherIssues(g0, RefsAfter(x, alloc), WrittenAll(x, trial, alloc), ParentsAfter(x, trial, alloc),
                  DraftedIds(x.inventory.records), g1, g2, n);
    }
  }
}
