/** What membership in each part of a plan means, and that every conflict-free plan is executable. */
module PlanFacts {
  import opened Common
  import opened Inventory
  import opened Planner

  /** The drafts a command plans with are the drafts of its inventory, whose record ids are unique. */
  ghost predicate DraftsOf(x: PlanInput, trial: bool) {
    x.drafts == DraftIssues(x.inventory.records, trial) && DistinctKeys(x.inventory.records, IdOf)
  }

  lemma {:induction false} DraftIssuesMember(records: seq<Record>, trial: bool, d: Draft)
    ensures d in DraftIssues(records, trial) <==> exists r :: r in records && Drafted(r) && d == DraftOf(r, trial)
  {
    if records != [] {
      var front, last := records[..|records| - 1], records[|records| - 1];
      DraftIssuesMember(front, trial, d);
      assert forall r :: r in records <==> r in front || r == last;
      assert d in DraftIssues(records, trial) <==>
               d in DraftIssues(front, trial) || (Drafted(last) && d == DraftOf(last, trial));
    }
  }

  lemma DistinctFront<K(!new), V(!new)>(s: seq<V>, key: V -> K)
    requires DistinctKeys(s, key) && s != []
    ensures DistinctKeys(s[..|s| - 1], key) && forall v :: v in s[..|s| - 1] ==> key(v) != key(s[|s| - 1])
  {
  }

  lemma SameIdSameRecord(records: seq<Record>, r: Record, r': Record)
    requires DistinctKeys(records, IdOf) && r in records && r' in records && r.id == r'.id
    ensures r == r'
  {
    KeyedByFinds(records, IdOf);
  }

  lemma {:induction false} DraftIdsDistinct(records: seq<Record>, trial: bool)
    requires DistinctKeys(records, IdOf)
    ensures DistinctKeys(DraftIssues(records, trial), DraftId)
  {
    if records != [] {
      var front, last := records[..|records| - 1], records[|records| - 1];
      DistinctFront(records, IdOf);
      DraftIdsDistinct(front, trial);
      var drafts := DraftIssues(front, trial);
      if Drafted(last) {
        forall i | 0 <= i < |drafts| ensures DraftId(drafts[i]) != last.id {
          DraftIssuesMember(front, trial, drafts[i]);
        }
      }
    }
  }

  /** A drafted record's draft is found under its id, and every draft found is a drafted record's. */
  lemma DraftsFound(x: PlanInput, trial: bool)
    requires DraftsOf(x, trial)
    ensures forall r ::
              r in x.inventory.records && Drafted(r) ==>
                DraftOf(r, trial) in x.drafts && r.id in x.DraftsById() && x.DraftsById()[r.id] == DraftOf(r, trial)
    ensures forall id :: id in x.DraftsById() ==> exists r :: r in x.inventory.records && Drafted(r) && r.id == id
    ensures forall d :: d in x.drafts ==> exists r :: r in x.inventory.records && Drafted(r) && d == DraftOf(r, trial)
  {
    KeyedByFinds(x.drafts, DraftId);
    DraftIdsDistinct(x.inventory.records, trial);
    forall r | r in x.inventory.records && Drafted(r)
      ensures DraftOf(r, trial) in x.drafts && r.id in x.DraftsById() && x.DraftsById()[r.id] == DraftOf(r, trial)
    {
      DraftIssuesMember(x.inventory.records, trial, DraftOf(r, trial));
      assert DraftId(DraftOf(r, trial)) == r.id;
    }
    forall d | d in x.drafts ensures exists r :: r in x.inventory.records && Drafted(r) && d == DraftOf(r, trial) {
      DraftIssuesMember(x.inventory.records, trial, d);
    }
    forall id | id in x.DraftsById() ensures exists r :: r in x.inventory.records && Drafted(r) && r.id == id {
      var d := x.DraftsById()[id];
      DraftIssuesMember(x.inventory.records, trial, d);
    }
  }

  lemma {:induction false} LabelOpsMember(x: PlanInput, names: seq<string>, op: Operation)
    ensures op in LabelOps(x, names) <==>
              exists name :: name in names && name in x.policy.specs && Lower(name) !in x.labels && LabelNeeded(x, name)
                             && op == CreateLabel(name, x.policy.specs[name])
  {
    if names != [] {
      LabelOpsMember(x, names[..|names| - 1], op);
      assert names == names[..|names| - 1] + [names[|names| - 1]];
    }
  }

  lemma {:induction false} IssueOpsMember(x: PlanInput, records: seq<Record>, op: Operation)
    ensures op in IssueOps(x, records) <==> exists r :: r in records && PlanRecord(x, r).op == Some(op)
  {
    if records != [] {
      IssueOpsMember(x, records[..|records| - 1], op);
      assert records == records[..|records| - 1] + [records[|records| - 1]];
    }
  }

  lemma {:induction false} RecordConflictsMember(x: PlanInput, records: seq<Record>, c: Conflict)
    ensures c in RecordConflicts(x, records) <==> exists r :: r in records && c in PlanRecord(x, r).conflicts
  {
    if records != [] {
      RecordConflictsMember(x, records[..|records| - 1], c);
      assert records == records[..|records| - 1] + [records[|records| - 1]];
    }
  }

  /** `reused` holds exactly the records whose plan refers to an existing issue. */
  lemma {:induction false} ReusedFinds(x: PlanInput, records: seq<Record>)
    requires DistinctKeys(records, IdOf)
    ensures forall r :: r in records ==> (r.id in Reused(x, records) <==> PlanRecord(x, r).ref.Some?)
    ensures forall r ::
              r in records && PlanRecord(x, r).ref.Some? ==> Reused(x, records)[r.id] == PlanRecord(x, r).ref.value
    ensures forall id :: id in Reused(x, records) ==> exists r :: r in records && r.id == id
  {
    if records != [] {
      var front, last := records[..|records| - 1], records[|records| - 1];
      DistinctFront(records, IdOf);
      ReusedFinds(x, front);
      assert records == front + [last];
      forall r | r in front ensures r.id != last.id {
        assert IdOf(r) != IdOf(last);
      }
    }
  }

  lemma {:induction false} KnownOutside(x: PlanInput, records: seq<Record>)
    ensures forall id :: id in Known(x, records) ==> !x.InScope(id)
    ensures x.scope.None? ==> Known(x, records) == map[]
  {
    if records != [] { KnownOutside(x, records[..|records| - 1]); }
  }

  lemma {:induction false} BindOpsMember(x: PlanInput, reused: map<Id, IssueRef>, known: map<Id, IssueRef>,
                                         existing: set<Id>, drafts: seq<Draft>, op: Operation)
    ensures op in BindOps(x, reused, known, existing, drafts) <==>
              exists d ::
                d in drafts && d.parent.Some? && PlanBinding(x, reused, known, existing, d).Bind?
                && op == BindSubIssue(d.recordId, d.parent.value)
  {
    if drafts != [] {
      BindOpsMember(x, reused, known, existing, drafts[..|drafts| - 1], op);
      assert drafts == drafts[..|drafts| - 1] + [drafts[|drafts| - 1]];
    }
  }

  lemma {:induction false} BindConflictsMember(x: PlanInput, reused: map<Id, IssueRef>, known: map<Id, IssueRef>,
                                               existing: set<Id>, drafts: seq<Draft>, c: Conflict)
    ensures c in BindConflicts(x, reused, known, existing, drafts) <==>
              exists d :: d in drafts && PlanBinding(x, reused, known, existing, d) == Conflicting(c)
  {
    if drafts != [] {
      BindConflictsMember(x, reused, known, existing, drafts[..|drafts| - 1], c);
      assert drafts == drafts[..|drafts| - 1] + [drafts[|drafts| - 1]];
    }
  }

  // ---- a plan without conflicts, part by part ----

  ghost predicate MarkersPeaceful(x: PlanInput) {
    forall m :: m in x.hits ==> x.Owned(m) && |x.hits[m]| <= 1
  }

  ghost predicate DraftsPeaceful(x: PlanInput) {
    forall d :: d in x.drafts && x.InScope(d.recordId) ==> WithinLimits(d) && OwnMarkersOnly(d)
  }

  ghost predicate LabelsPeaceful(x: PlanInput) {
    forall d, name :: d in x.drafts && x.InScope(d.recordId) && name in d.labels ==>
      name in x.policy.specs && (Lower(name) in x.labels ==> x.labels[Lower(name)] == x.policy.specs[name])
  }

  ghost predicate RecordsPeaceful(x: PlanInput) {
    forall r :: r in x.inventory.records ==> PlanRecord(x, r).conflicts == {}
  }

  ghost predicate BindingsPeaceful(x: PlanInput, reused: map<Id, IssueRef>, known: map<Id, IssueRef>,
                                   existing: set<Id>) {
    forall d :: d in x.drafts ==> !PlanBinding(x, reused, known, existing, d).Conflicting?
  }

  /** The records with an issue once the plan's creates are done. */
  function Existing(x: PlanInput): set<Id> {
    Reused(x, x.inventory.records).Keys + Created(IssueOps(x, x.inventory.records))
  }

  lemma MarkersPeacefulIff(x: PlanInput)
    ensures MarkerConflicts(x) == {} <==> MarkersPeaceful(x)
  {
    forall m | m in x.hits ensures MarkerConflicts(x) == {} ==> x.Owned(m) && |x.hits[m]| <= 1 {
      assert !x.Owned(m) ==> ForeignMarker(m) in MarkerConflicts(x);
      assert x.Owned(m) && |x.hits[m]| > 1 ==> RepeatedMarker(m) in MarkerConflicts(x);
    }
  }

  lemma DraftsPeacefulIff(x: PlanInput)
    ensures DraftConflicts(x) == {} <==> DraftsPeaceful(x)
  {
    forall d | d in x.drafts && x.InScope(d.recordId)
      ensures DraftConflicts(x) == {} ==> WithinLimits(d) && OwnMarkersOnly(d)
    {
      assert !WithinLimits(d) ==> OutsideLimits(d.recordId) in DraftConflicts(x);
      assert !OwnMarkersOnly(d) ==> WrongMarkers(d.recordId) in DraftConflicts(x);
    }
  }

  lemma LabelsPeacefulIff(x: PlanInput)
    ensures LabelConflicts(x) == {} <==> LabelsPeaceful(x)
  {
    forall d, name | d in x.drafts && x.InScope(d.recordId) && name in d.labels
      ensures LabelConflicts(x) == {} ==>
                name in x.policy.specs && (Lower(name) in x.labels ==> x.labels[Lower(name)] == x.policy.specs[name])
    {
      assert LabelUsed(x, name);
      assert name !in x.policy.specs ==> UnreviewedLabel(name) in LabelConflicts(x);
      assert name in x.policy.specs && Lower(name) in x.labels && x.labels[Lower(name)] != x.policy.specs[name] ==>
               LabelDiffers(name) in LabelConflicts(x);
    }
  }

  lemma RecordsPeacefulIff(x: PlanInput)
    ensures RecordConflicts(x, x.inventory.records) == {} <==> RecordsPeaceful(x)
  {
    forall c
      ensures c in RecordConflicts(x, x.inventory.records) <==>
                exists r :: r in x.inventory.records && c in PlanRecord(x, r).conflicts
    {
      RecordConflictsMember(x, x.inventory.records, c);
    }
  }

  lemma BindingsPeacefulIff(x: PlanInput, reused: map<Id, IssueRef>, known: map<Id, IssueRef>, existing: set<Id>)
    ensures BindConflicts(x, reused, known, existing, x.drafts) == {} <==> BindingsPeaceful(x, reused, known, existing)
  {
    forall c
      ensures c in BindConflicts(x, reused, known, existing, x.drafts) <==>
                exists d :: d in x.drafts && PlanBinding(x, reused, known, existing, d) == Conflicting(c)
    {
      BindConflictsMember(x, reused, known, existing, x.drafts, c);
    }
    if d :| d in x.drafts && PlanBinding(x, reused, known, existing, d).Conflicting? {
      assert PlanBinding(x, reused, known, existing, d).conflict in BindConflicts(x, reused, known, existing, x.drafts);
    }
  }

  ghost predicate Peaceful(x: PlanInput) {
    && MarkersPeaceful(x) && DraftsPeaceful(x) && LabelsPeaceful(x) && RecordsPeaceful(x)
    && BindingsPeaceful(x, Reused(x, x.inventory.records), Known(x, x.inventory.records), Existing(x))
  }

  /** A plan has no conflict exactly when none of its parts has one. */
  lemma PeacefulIff(x: PlanInput)
    ensures Plan(x).conflicts == {} <==> Peaceful(x)
  {
    var records := x.inventory.records;
    var a, b, c, d := MarkerConflicts(x), DraftConflicts(x), LabelConflicts(x), RecordConflicts(x, records);
    var e := BindConflicts(x, Reused(x, records), Known(x, records), Existing(x), x.drafts);
    assert Plan(x).conflicts == a + b + c + d + e;
    assert Plan(x).conflicts == {} <==> a == {} && b == {} && c == {} && d == {} && e == {};
    MarkersPeacefulIff(x);
    DraftsPeacefulIff(x);
    LabelsPeacefulIff(x);
    RecordsPeacefulIff(x);
    BindingsPeacefulIff(x, Reused(x, records), Known(x, records), Existing(x));
  }

  // ---- executability ----

  /** In a full plan without conflicts a drafted record that is not reused is created. */
  lemma FullPlanCreates(x: PlanInput, trial: bool, r: Record)
    requires DraftsOf(x, trial) && x.Selection().None? && x.scope.None? && RecordsPeaceful(x)
    requires r in x.inventory.records && Drafted(r)
    ensures PlanRecord(x, r).ref.None? ==>
              && r.targetIssue.None? && Marked(x.hits, SourceMarker(r.id)) == []
              && PlanRecord(x, r).op ==
                   Some(CreateIssue(r.id, r.title, DraftBody(DraftOf(r, trial)), RecordLabels(r, trial)))
  {
    DraftsFound(x, trial);
    assert PlanRecord(x, r).conflicts == {};
  }

  lemma FullPlanCoversDrafts(x: PlanInput, trial: bool, r: Record)
    requires DraftsOf(x, trial) && x.Selection().None? && x.scope.None? && RecordsPeaceful(x)
    requires r in x.inventory.records && Drafted(r)
    ensures r.id in Existing(x)
  {
    FullPlanCreates(x, trial, r);
    ReusedFinds(x, x.inventory.records);
    if PlanRecord(x, r).ref.None? {
      var op := PlanRecord(x, r).op.value;
      IssueOpsMember(x, x.inventory.records, op);
      assert op.target in Created(IssueOps(x, x.inventory.records));
    }
  }

  lemma BindEndsExist(x: PlanInput, trial: bool, d: Draft)
    requires DraftsOf(x, trial) && RecordsPeaceful(x) && d in x.drafts && d.parent.Some?
    requires PlanBinding(x, Reused(x, x.inventory.records), Known(x, x.inventory.records), Existing(x), d).Bind?
    ensures {d.recordId, d.parent.value} <= Existing(x)
  {
    if x.Selection().None? {
      DraftsFound(x, trial);
      var child :| child in x.inventory.records && Drafted(child) && d == DraftOf(child, trial);
      FullPlanCoversDrafts(x, trial, child);
      var parent :| parent in x.inventory.records && Drafted(parent) && parent.id == d.parent.value;
      FullPlanCoversDrafts(x, trial, parent);
    }
  }

  /** `id` has an issue before operation `i` runs: it is reused, or an earlier operation creates it. */
  predicate AvailableAt(reused: map<Id, IssueRef>, ops: seq<Operation>, i: nat, id: Id) {
    i <= |ops| && (id in reused || exists j :: 0 <= j < i && ops[j].CreateIssue? && ops[j].target == id)
  }

  lemma PlanShape(x: PlanInput)
    ensures Plan(x).operations == LabelOps(x, x.policy.names) + IssueOps(x, x.inventory.records)
              + BindOps(x, Reused(x, x.inventory.records), Known(x, x.inventory.records), Existing(x), x.drafts)
    ensures Plan(x).reused == Reused(x, x.inventory.records)
  {
  }

  lemma PartsAreOfTheirKind(x: PlanInput, op: Operation)
    ensures op in LabelOps(x, x.policy.names) ==> op.CreateLabel?
    ensures op in IssueOps(x, x.inventory.records) ==> op.CreateIssue? || op.UpdateIssue?
  {
    LabelOpsMember(x, x.policy.names, op);
    IssueOpsMember(x, x.inventory.records, op);
  }

  lemma OperationNamesRecord(x: PlanInput, r: Record, op: Operation)
    requires PlanRecord(x, r).op == Some(op)
    ensures (op.CreateIssue? || op.UpdateIssue?) && Drafted(r) && op.target == r.id
  {
  }

  // ---- one write per record ----

  /** The record whose issue the operation writes. */
  function Writes(op: Operation): Option<Id> {
    if op.CreateIssue? || op.UpdateIssue? then Some(op.target) else None
  }

  lemma {:induction false} WritesDiffer(x: PlanInput, records: seq<Record>)
    requires DistinctKeys(records, IdOf)
    ensures DistinctKeys(IssueOps(x, records), Writes)
  {
    if records != [] {
      var front, last := records[..|records| - 1], records[|records| - 1];
      DistinctFront(records, IdOf);
      WritesDiffer(x, front);
      var ops := IssueOps(x, front);
      forall i | 0 <= i < |ops| ensures Writes(ops[i]) != Some(last.id) {
        IssueOpsMember(x, front, ops[i]);
        var r :| r in front && PlanRecord(x, r).op == Some(ops[i]);
        OperationNamesRecord(x, r, ops[i]);
        assert IdOf(r) != IdOf(last);
      }
      if PlanRecord(x, last).op.Some? { OperationNamesRecord(x, last, PlanRecord(x, last).op.value); }
    }
  }

  lemma OnlyOneWrites(before: seq<Operation>, ops: seq<Operation>, after: seq<Operation>, k: nat, id: Id)
    requires DistinctKeys(ops, Writes) && k < |ops| && Writes(ops[k]) == Some(id)
    requires (forall op :: op in before ==> Writes(op).None?) && (forall op :: op in after ==> Writes(op).None?)
    ensures var all := before + ops + after;
            && |before| + k < |all| && all[|before| + k] == ops[k]
            && forall j :: 0 <= j < |all| && Writes(all[j]) == Some(id) ==> j == |before| + k
  {
    var all := before + ops + after;
    assert forall i :: 0 <= i < |before| ==> all[i] == before[i] && Writes(before[i]).None?;
    assert forall i :: 0 <= i < |ops| ==> all[|before| + i] == ops[i];
    assert forall i :: 0 <= i < |after| ==> all[|before| + |ops| + i] == after[i] && Writes(after[i]).None?;
    forall j | 0 <= j < |all| && Writes(all[j]) == Some(id) ensures j == |before| + k {
      assert |before| <= j < |before| + |ops|;
      assert all[j] == ops[j - |before|];
    }
  }

  /** In a full plan without record conflicts a drafted record that is not reused is created by exactly one operation,
      with its draft, and no other operation writes its issue. */
  lemma CreatedOnce(x: PlanInput, trial: bool, r: Record) returns (k: nat)
    requires DraftsOf(x, trial) && x.Selection().None? && x.scope.None? && RecordsPeaceful(x)
    requires r in x.inventory.records && Drafted(r) && r.id !in Plan(x).reused
    ensures var ops := Plan(x).operations;
            && k < |ops| && ops[k] == CreateIssue(r.id, r.title, DraftBody(DraftOf(r, trial)), RecordLabels(r, trial))
            && forall j :: 0 <= j < |ops| && Writes(ops[j]) == Some(r.id) ==> j == k
  {
    var records := x.inventory.records;
    var labels, issues := LabelOps(x, x.policy.names), IssueOps(x, records);
    var binds := BindOps(x, Reused(x, records), Known(x, records), Existing(x), x.drafts);
    PlanShape(x);
    ReusedFinds(x, records);
    FullPlanCreates(x, trial, r);
    var op := PlanRecord(x, r).op.value;
    IssueOpsMember(x, records, op);
    var i :| 0 <= i < |issues| && issues[i] == op;
    WritesDiffer(x, records);
    forall b | b in labels ensures Writes(b).None? { PartsAreOfTheirKind(x, b); }
    forall b | b in binds
      ensures Writes(b).None?
    {
      BindOpsMember(x, Reused(x, records), Known(x, records), Existing(x), x.drafts, b);
    }
    OnlyOneWrites(labels, issues, binds, i, r.id);
    k := |labels| + i;
  }

  lemma CreatedBefore(labelOps: seq<Operation>, issueOps: seq<Operation>, bindOps: seq<Operation>, reused: map<Id,
                      IssueRef>, i: nat, id: Id)
    requires |labelOps| + |issueOps| <= i < |labelOps + issueOps + bindOps|
    requires id in reused.Keys + Created(issueOps)
    ensures AvailableAt(reused, labelOps + issueOps + bindOps, i, id)
  {
    var ops := labelOps + issueOps + bindOps;
    if id !in reused {
      var op :| op in issueOps && op.CreateIssue? && op.target == id;
      var j :| 0 <= j < |issueOps| && issueOps[j] == op;
      assert ops[|labelOps| + j] == op;
    }
  }

  /** Every conflict-free plan is executable, full, selected or scoped: both ends of each binding are reused or created
      by an earlier operation of the same batch. */
  lemma PlanIsExecutable(x: PlanInput, trial: bool, ops: seq<Operation>, i: nat)
    requires DraftsOf(x, trial) && Plan(x).conflicts == {} && ops == Plan(x).operations
    requires i < |ops| && ops[i].BindSubIssue?
    ensures AvailableAt(Plan(x).reused, ops, i, ops[i].child)
    ensures AvailableAt(Plan(x).reused, ops, i, ops[i].parent)
  {
    PeacefulIff(x);
    PlanShape(x);
    var records := x.inventory.records;
    BindAvailable(x, trial, LabelOps(x, x.policy.names), IssueOps(x, records),
                  BindOps(x, Reused(x, records), Known(x, records), Existing(x), x.drafts), i);
  }

  lemma BindAvailable(x: PlanInput, trial: bool, labelOps: seq<Operation>, issueOps: seq<Operation>,
                      bindOps: seq<Operation>, i: nat)
    requires DraftsOf(x, trial) && RecordsPeaceful(x)
    requires labelOps == LabelOps(x, x.policy.names) && issueOps == IssueOps(x, x.inventory.records)
    requires bindOps == BindOps(x, Reused(x, x.inventory.records), Known(x, x.inventory.records), Existing(x), x.drafts)
    requires i < |labelOps + issueOps + bindOps| && (labelOps + issueOps + bindOps)[i].BindSubIssue?
    ensures var ops := labelOps + issueOps + bindOps;
            && AvailableAt(Reused(x, x.inventory.records), ops, i, ops[i].child)
            && AvailableAt(Reused(x, x.inventory.records), ops, i, ops[i].parent)
  {
    var records := x.inventory.records;
    var ops := labelOps + issueOps + bindOps;
    var k := |labelOps| + |issueOps|;
    assert i < |labelOps| ==> ops[i] in labelOps;
    assert |labelOps| <= i < k ==> ops[i] == issueOps[i - |labelOps|];
    PartsAreOfTheirKind(x, ops[i]);
    assert ops[i] in bindOps;
    BindOpsMember(x, Reused(x, records), Known(x, records), Existing(x), x.drafts, ops[i]);
    var d :| && d in x.drafts
             && d.parent.Some?
             && PlanBinding(x, Reused(x, records), Known(x, records), Existing(x), d).Bind?
             && ops[i] == BindSubIssue(d.recordId, d.parent.value);
    BindEndsExist(x, trial, d);
    CreatedBefore(labelOps, issueOps, bindOps, Reused(x, records), i, d.recordId);
    CreatedBefore(labelOps, issueOps, bindOps, Reused(x, records), i, d.parent.value);
  }
}
