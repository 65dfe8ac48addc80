/** The planner and the reconciler agree, and the whole pipeline closes: plan, apply, reconcile, finalize, replan. */
module Agreement {
  import opened Common
  import opened IssueBody
  import opened Labels
  import opened Inventory
  import opened Planner
  import opened PlanFacts
  import opened IdealGitHub
  import opened Reconciler
  import opened Replan

  // ---- when one issue matches its draft ----

  lemma LabelsMatch(x: PlanInput, d: Draft, issue: Issue)
    requires WantedShape(d.labels) && UpdateClashes(x, d, issue) == {} && UpdatedLabels(x, d, issue) == issue.labels
    ensures LabelFindings(x, d, issue) == {}
  {
    var v, sourced := x.policy.vocabulary, d.basis != DefaultPriority;
    forall k | k in SOURCE_DIMENSIONS ensures Present(issue.labels, k) == Present(d.labels, k) {
      MergeTakesSource(v, d.labels, sourced, issue.labels, k);
    }
    MergeTakesSource(v, d.labels, sourced, issue.labels, SOURCE_DIMENSIONS[0]);
    forall k | k in DEFAULTED_DIMENSIONS ensures DefaultedMatches(v, d.labels, sourced, issue.labels, k) {
      var l := MergeSettlesDefaulted(v, d.labels, sourced, issue.labels, k);
      assert l in Present(issue.labels, k);
    }
  }

  lemma RegionMatches(d: Draft, issue: Issue, before: Body, after: Body)
    requires Framed(issue.body, d.marker, before, d.inner, after)
    ensures RegionFindings(d, issue) == {}
  {
    FramedRegion(issue.body, d.marker, before, d.inner, after);
    var s := |before|;
    assert issue.body[s..s + |d.inner| + 2] == DraftRegion(d);
  }

  // ---- membership in the report ----

  lemma {:induction false} RecordFindingsMember(x: PlanInput, records: seq<Record>, f: Finding)
    ensures f in RecordFindings(x, records) <==> exists r :: r in records && f in ReconcileRecord(x, r).findings
  {
    if records != [] {
      RecordFindingsMember(x, records[..|records| - 1], f);
      assert records == records[..|records| - 1] + [records[|records| - 1]];
    }
  }

  lemma {:induction false} MappingFinds(x: PlanInput, records: seq<Record>)
    requires DistinctKeys(records, IdOf)
    ensures forall r :: r in records ==> (r.id in Mapping(x, records) <==> ReconcileRecord(x, r).number.Some?)
    ensures forall r ::
              r in records && ReconcileRecord(x, r).number.Some? ==>
                Mapping(x, records)[r.id] == ReconcileRecord(x, r).number.value
    ensures forall id :: id in Mapping(x, records) ==> exists r :: r in records && r.id == id
  {
    if records != [] {
      var front, last := records[..|records| - 1], records[|records| - 1];
      DistinctFront(records, IdOf);
      MappingFinds(x, front);
      assert records == front + [last];
      forall r | r in front ensures r.id != last.id { assert IdOf(r) != IdOf(last); }
    }
  }

  /** The report of an unscoped run when every record is clean and ends on the number `numbers` gives it. */
  lemma CleanReport(x: PlanInput, numbers: map<Id, int>)
    requires x.scope.None? && DistinctKeys(x.inventory.records, IdOf) && MarkersPeaceful(x)
    requires numbers.Keys == Migrating(x.inventory.records)
    requires forall r :: r in x.inventory.records ==> ReconcileRecord(x, r).findings == {}
    requires forall r ::
               r in x.inventory.records ==>
                 ReconcileRecord(x, r).number ==
                   if r.disposition == Migrate && r.id in numbers then Some(numbers[r.id]) else None
    requires forall d :: d in x.drafts ==> ParentMatches(x, numbers, map[], d)
    requires forall id, id' :: id in numbers && id' in numbers && id != id' ==> numbers[id] != numbers[id']
    ensures Reconcile(x) == Report({}, numbers)
  {
    var records := x.inventory.records;
    var mapping := Mapping(x, records);
    MappingFinds(x, records);
    KnownOutside(x, records);
    forall r | r in records && r.disposition == Migrate ensures r.id in numbers { assert r.id in Migrating(records); }
    assert mapping.Keys == numbers.Keys by {
      forall id | id in numbers ensures id in mapping {
        var r :| r in records && r.disposition == Migrate && r.id == id;
      }
      forall id | id in mapping ensures id in numbers {
        var r :| r in records && r.id == id;
      }
    }
    assert mapping == numbers by {
      forall id | id in numbers ensures mapping[id] == numbers[id] {
        var r :| r in records && r.disposition == Migrate && r.id == id;
      }
    }
    forall f ensures f !in RecordFindings(x, records) { RecordFindingsMember(x, records, f); }
    assert MarkerFindings(x) == {};
  }

  // ---- a plan with nothing to do ----

  /** A full plan over sound targets that finds no conflict and plans no operation. */
  ghost predicate Quiet(x: PlanInput, trial: bool) {
    && DraftsOf(x, trial) && x.selected.None? && x.scope.None?
    && TargetsSound(x.inventory.records) && NumbersSound(x.issues) && HitsSound(x.hits, x.issues)
    && Plan(x).conflicts == {} && Plan(x).operations == []
  }

  /** The same, record by record and draft by draft. */
  ghost predicate Still(x: PlanInput, trial: bool) {
    && DraftsOf(x, trial) && x.selected.None? && x.scope.None?
    && TargetsSound(x.inventory.records) && NumbersSound(x.issues) && HitsSound(x.hits, x.issues)
    && MarkersPeaceful(x) && DraftsPeaceful(x) && RecordsPeaceful(x)
    && (forall r :: r in x.inventory.records ==> PlanRecord(x, r).op.None?)
    && (forall d :: d in x.drafts ==> BindingOf(x, d).None?)
    && BindingsPeaceful(x, Reused(x, x.inventory.records), Known(x, x.inventory.records), Existing(x))
  }

  lemma QuietIsStill(x: PlanInput, trial: bool)
    requires Quiet(x, trial)
    ensures Still(x, trial)
  {
    PeacefulIff(x);
    PlanShape(x);
    var records := x.inventory.records;
    forall r | r in records ensures PlanRecord(x, r).op.None? {
      if PlanRecord(x, r).op.Some? { IssueOpsMember(x, records, PlanRecord(x, r).op.value); }
    }
    forall d | d in x.drafts ensures BindingOf(x, d).None? {
      if BindingOf(x, d).Some? {
        BindOpsMember(x, Reused(x, records), Known(x, records), Existing(x), x.drafts, BindingOf(x, d).value);
      }
    }
  }

  /** Nothing to write means the region already holds the draft. */
  lemma UnchangedIsFramed(x: PlanInput, r: Record, d: Draft, issue: Issue) returns (before: Body, after: Body)
    requires UpdatedBody(x, r, d, issue) == Fresh(issue.body)
    ensures Framed(issue.body, d.marker, before, d.inner, after)
  {
    var region := GeneratedRegion(issue.body, d.marker);
    assert DraftRegion(d)[|DraftRegion(d)| - 1] == Close(d.marker);
    assert Close(d.marker) in DraftRegion(d);
    assert region.Span?;
    before, after := issue.body[..region.start], issue.body[region.end..];
    RewriteUnchanged(issue.body, d.marker, DraftRegion(d));
    RegionFrames(issue.body, d.marker, region.start, region.end, d.inner);
  }

  lemma StillTargeted(x: PlanInput, trial: bool, r: Record)
    requires Still(x, trial) && r in x.inventory.records && Drafted(r)
    ensures r.targetIssue.Some? && Usable(x, r.targetIssue)
            && x.issues[r.targetIssue.value].number == r.targetIssue.value
    ensures PlanRecord(x, r).ref == Some(RefOf(x.issues[r.targetIssue.value]))
    ensures var issue, d := x.issues[r.targetIssue.value], DraftOf(r, trial);
            && Open(d.marker) in issue.body && UpdateClashes(x, d, issue) == {}
            && UpdatedBody(x, r, d, issue) == Fresh(issue.body) && UpdatedLabels(x, d, issue) == issue.labels
  {
    var d := DraftOf(r, trial);
    assert r.id in x.DraftsById() && x.DraftsById()[r.id] == d by { DraftsFound(x, trial); }
    FullPlanCreates(x, trial, r);
    assert PlanRecord(x, r).conflicts == {} && PlanRecord(x, r).op.None?;
    if r.targetIssue.Some? {
      PlansItsTarget(x, r, d);
      TargetedPlan(x, r, d);
    }
  }

  /** An open issue with its draft's region and labels has nothing to report. */
  lemma CleanIssue(x: PlanInput, r: Record, d: Draft, issue: Issue, before: Body, after: Body)
    requires issue.state == "open" && (r.targetIssue.Some? ==> issue.number == r.targetIssue.value)
             && (r.targetIssue.None? ==> issue.title == d.title)
    requires Framed(issue.body, d.marker, before, d.inner, after)
    requires WantedShape(d.labels) && UpdateClashes(x, d, issue) == {} && UpdatedLabels(x, d, issue) == issue.labels
    ensures IssueFindings(x, r, d, issue) == {}
  {
    RegionMatches(d, issue, before, after);
    LabelsMatch(x, d, issue);
  }

  lemma StillMarked(x: PlanInput, n: int, m: string)
    requires MarkersPeaceful(x) && HitsSound(x.hits, x.issues) && n in x.issues && Open(m) in x.issues[n].body
    ensures Marked(x.hits, m) == [n]
  {
    CarriesIsMarked(x.hits, x.issues, n, m);
  }

  lemma StillDraftedMatches(x: PlanInput, trial: bool, r: Record)
    requires Still(x, trial) && r in x.inventory.records && Drafted(r)
    ensures r.targetIssue.Some? && ReconcileRecord(x, r) == RecordReport({}, r.targetIssue)
  {
    StillTargeted(x, trial, r);
    var d, issue := DraftOf(r, trial), x.issues[r.targetIssue.value];
    assert r.id in x.DraftsById() && x.DraftsById()[r.id] == d by { DraftsFound(x, trial); }
    StillMarked(x, issue.number, d.marker);
    var before, after := UnchangedIsFramed(x, r, d, issue);
    RecordLabelsShape(r, trial);
    CleanIssue(x, r, d, issue, before, after);
    ReconcileFound(x, r, d, issue);
  }

  lemma ReconcileFound(x: PlanInput, r: Record, d: Draft, issue: Issue)
    requires Drafted(r) && x.scope.None? && r.id in x.DraftsById() && x.DraftsById()[r.id] == d
    requires Marked(x.hits, d.marker) == [issue.number] && issue.number in x.issues && x.issues[issue.number] == issue
    ensures ReconcileRecord(x, r) == RecordReport(IssueFindings(x, r, d, issue), Some(issue.number))
  {
  }

  lemma StillRecordMatches(x: PlanInput, trial: bool, r: Record)
    requires Still(x, trial) && r in x.inventory.records
    ensures ReconcileRecord(x, r).findings == {}
    ensures ReconcileRecord(x, r).number == if r.disposition == Migrate then r.targetIssue else None
    ensures r.disposition == Migrate ==> r.targetIssue.Some?
  {
    if Drafted(r) {
      StillDraftedMatches(x, trial, r);
    } else if r.disposition == Migrate {
      assert PlanRecord(x, r).conflicts == {};
    }
  }

  function Targets(records: seq<Record>): map<Id, int> {
    if records == [] then map[]
    else
      var r := records[|records| - 1];
      var before := Targets(records[..|records| - 1]);
      if r.disposition == Migrate && r.targetIssue.Some? then before[r.id := r.targetIssue.value] else before
  }

  lemma {:induction false} TargetsFinds(records: seq<Record>)
    requires DistinctKeys(records, IdOf)
    ensures forall r :: r in records ==> (r.id in Targets(records) <==> r.disposition == Migrate && r.targetIssue.Some?)
    ensures forall r :: r in records && r.id in Targets(records) ==> r.targetIssue == Some(Targets(records)[r.id])
    ensures forall id :: id in Targets(records) ==> exists r :: r in records && r.id == id
  {
    if records != [] {
      var front, last := records[..|records| - 1], records[|records| - 1];
      DistinctFront(records, IdOf);
      TargetsFinds(front);
      assert records == front + [last];
      forall r | r in front ensures r.id != last.id { assert IdOf(r) != IdOf(last); }
    }
  }

  lemma ParentIdNotEmpty(x: PlanInput, trial: bool, p: Id)
    requires DraftsOf(x, trial) && DraftsPeaceful(x) && x.scope.None? && p in x.DraftsById()
    ensures p != ""
  {
    DraftsFound(x, trial);
    var r :| r in x.inventory.records && Drafted(r) && r.id == p;
    assert OwnMarkersOnly(DraftOf(r, trial));
  }

  lemma StillReused(x: PlanInput, trial: bool, r: Record)
    requires Still(x, trial) && r in x.inventory.records && Drafted(r)
    ensures r.targetIssue.Some? && r.targetIssue.value in x.issues && r.targetIssue.value >= 1
    ensures r.id in Reused(x, x.inventory.records) && Reused(x, x.inventory.records)[r.id].number == r.targetIssue.value
    ensures r.id in Targets(x.inventory.records) && Targets(x.inventory.records)[r.id] == r.targetIssue.value
  {
    StillTargeted(x, trial, r);
    ReusedFinds(x, x.inventory.records);
    TargetsFinds(x.inventory.records);
  }

  lemma StillParentMatches(x: PlanInput, trial: bool, d: Draft)
    requires Still(x, trial) && d in x.drafts
    ensures ParentMatches(x, Targets(x.inventory.records), map[], d)
  {
    var records := x.inventory.records;
    DraftIssuesMember(records, trial, d);
    var r :| r in records && Drafted(r) && d == DraftOf(r, trial);
    StillReused(x, trial, r);
    FullBinding(x, d, Reused(x, records), x.issues[r.targetIssue.value].parent);
    if d.parent.Some? {
      ParentIdNotEmpty(x, trial, d.parent.value);
      assert exists q :: q in records && Drafted(q) && q.id == d.parent.value by { DraftsFound(x, trial); }
      var q :| q in records && Drafted(q) && q.id == d.parent.value;
      StillReused(x, trial, q);
    }
  }

  /** Planner and reconciler agree: a full plan over sound targets with no conflict and nothing to do leaves the
      reconciler nothing to report, and its mapping gives every migrating record its own issue. */
  lemma PlannerAgreesWithReconciler(x: PlanInput, trial: bool)
    requires Quiet(x, trial)
    ensures Reconcile(x).findings == {}
    ensures Reconcile(x).mapping.Keys == Migrating(x.inventory.records)
    ensures forall r ::
              r in x.inventory.records && r.disposition == Migrate && r.id in Reconcile(x).mapping ==>
                r.targetIssue == Some(Reconcile(x).mapping[r.id])
    ensures forall id, id' ::
              id in Reconcile(x).mapping && id' in Reconcile(x).mapping && id != id' ==>
                Reconcile(x).mapping[id] != Reconcile(x).mapping[id']
  {
    var records := x.inventory.records;
    var numbers := Targets(records);
    QuietIsStill(x, trial);
    TargetsFinds(records);
    forall r | r in records
      ensures ReconcileRecord(x, r).findings == {} && (r.disposition == Migrate ==> r.targetIssue.Some?)
      ensures ReconcileRecord(x, r).number ==
                if r.disposition == Migrate && r.id in numbers then Some(numbers[r.id]) else None
    {
      StillRecordMatches(x, trial, r);
    }
    TargetsInjective(records);
    forall d | d in x.drafts ensures ParentMatches(x, numbers, map[], d) { StillParentMatches(x, trial, d); }
    MigratingKeys(records);
    CleanReport(x, numbers);
  }

  lemma TargetsInjective(records: seq<Record>)
    requires DistinctKeys(records, IdOf) && TargetsSound(records)
    ensures forall id, id' ::
              id in Targets(records) && id' in Targets(records) && id != id' ==>
                Targets(records)[id] != Targets(records)[id']
  {
    TargetsFinds(records);
    forall id, id' | id in Targets(records) && id' in Targets(records) && id != id'
      ensures Targets(records)[id] != Targets(records)[id']
    {
      var r :| r in records && r.id == id;
      var r' :| r' in records && r'.id == id';
      if r.targetIssue == r'.targetIssue { SameTargetSameRecord(records, r, r'); }
    }
  }

  lemma MigratingKeys(records: seq<Record>)
    requires DistinctKeys(records, IdOf) && forall r :: r in records && r.disposition == Migrate ==> r.targetIssue.Some?
    ensures Targets(records).Keys == Migrating(records)
  {
    TargetsFinds(records);
    forall id | id in Targets(records) ensures id in Migrating(records) {
      var r :| r in records && r.id == id;
    }
    forall id | id in Migrating(records) ensures id in Targets(records) {
      var r :| r in records && r.disposition == Migrate && r.id == id;
    }
  }

  // ---- reconciling an applied plan ----

  /** The applied repository, read back against the inventory as it was planned with. */
  function ReadBack(x: PlanInput, g: GitHub, hits: map<string, seq<int>>): PlanInput {
    x.(issues := g.issues, hits := hits, labels := g.labels)
  }

  lemma AppliedDraftedMatches(x: PlanInput, trial: bool, alloc: map<Id, IssueRef>, g: GitHub, hits: map<string,
                              seq<int>>, r: Record)
    requires Ready(x, trial, alloc) && Applied(x, trial, alloc, g) && HitsSound(hits, g.issues)
    requires MarkersDistinct(x.inventory.records) && r in x.inventory.records && Drafted(r)
    ensures ReconcileRecord(ReadBack(x, g, hits), r) == RecordReport({}, Some(RefAfter(x, alloc, r.id).number))
  {
    var y, d, issue := ReadBack(x, g, hits), DraftOf(r, trial), Settled(x, trial, alloc, r);
    assert r.id in y.DraftsById() && y.DraftsById()[r.id] == d by { DraftsFound(x, trial); }
    RefAfterOf(x, trial, alloc, r);
    MarkedAfter(x, trial, alloc, g, hits, r);
    SettledLabels(x, trial, alloc, r);
    var before, after := SettledBody(x, trial, alloc, r);
    RecordLabelsShape(r, trial);
    assert r.targetIssue.None? ==> issue.title == d.title by { DraftedRecordPlan(x, trial, alloc, r); }
    CleanIssue(y, r, d, issue, before, after);
    ReconcileFound(y, r, d, issue);
  }

  /** Every migrating record has a positive number. */
  lemma NumberOf(x: PlanInput, trial: bool, alloc: map<Id, IssueRef>, g: GitHub, r: Record)
    requires Ready(x, trial, alloc) && Applied(x, trial, alloc, g) && r in x.inventory.records
             && r.disposition == Migrate
    ensures r.id in NumbersAfter(x, alloc) && NumbersAfter(x, alloc)[r.id] >= 1
    ensures Drafted(r) ==> NumbersAfter(x, alloc)[r.id] == RefAfter(x, alloc, r.id).number
    ensures r.targetIssue.Some? ==> NumbersAfter(x, alloc)[r.id] == r.targetIssue.value
  {
    if Drafted(r) {
      QuietDrafted(x, trial, alloc, g, map[], r);
      RefAfterOf(x, trial, alloc, r);
    } else {
      QuietExternal(x, trial, alloc, g, map[], r);
    }
  }

  lemma NumbersAreDifferent(x: PlanInput, trial: bool, alloc: map<Id, IssueRef>, g: GitHub, r: Record, q: Record)
    requires Ready(x, trial, alloc) && Applied(x, trial, alloc, g)
    requires r in x.inventory.records && q in x.inventory.records && r.disposition == Migrate
             && q.disposition == Migrate && r.id != q.id
    ensures r.id in NumbersAfter(x, alloc) && q.id in NumbersAfter(x, alloc)
            && NumbersAfter(x, alloc)[r.id] != NumbersAfter(x, alloc)[q.id]
  {
    NumberOf(x, trial, alloc, g, r);
    NumberOf(x, trial, alloc, g, q);
    if Drafted(r) && Drafted(q) {
      NumbersDiffer(x, trial, alloc, r, q);
    } else if r.targetIssue.Some? && q.targetIssue.Some? {
      if r.targetIssue == q.targetIssue { SameTargetSameRecord(x.inventory.records, r, q); }
    } else {
      var external, drafted := if Drafted(r) then q else r, if Drafted(r) then r else q;
      if !Drafted(r) { QuietExternal(x, trial, alloc, g, map[], r); }
      if !Drafted(q) { QuietExternal(x, trial, alloc, g, map[], q); }
      RefAfterOf(x, trial, alloc, drafted);
    }
  }

  lemma AppliedParentMatches(x: PlanInput, trial: bool, alloc: map<Id, IssueRef>, g: GitHub, hits: map<string,
                             seq<int>>, d: Draft)
    requires Ready(x, trial, alloc) && Applied(x, trial, alloc, g) && d in x.drafts
    ensures ParentMatches(ReadBack(x, g, hits), NumbersAfter(x, alloc), map[], d)
  {
    DraftIssuesMember(x.inventory.records, trial, d);
    var r :| r in x.inventory.records && Drafted(r) && d == DraftOf(r, trial);
    NumberOf(x, trial, alloc, g, r);
    PlannedParent(x, trial, alloc, r);
    if r.parent.Some? {
      assert r.parent.value in DraftedIds(x.inventory.records);
      var q :| q in x.inventory.records && Drafted(q) && q.id == r.parent.value;
      NumberOf(x, trial, alloc, g, q);
      AfterMaps(x, trial, alloc, q);
      assert q.id in x.DraftsById() by { DraftsFound(x, trial); }
      ParentIdNotEmpty(x, trial, q.id);
    }
  }

  lemma AppliedRecordMatches(x: PlanInput, trial: bool, alloc: map<Id, IssueRef>, g: GitHub, hits: map<string,
                             seq<int>>, r: Record)
    requires Ready(x, trial, alloc) && Applied(x, trial, alloc, g) && HitsSound(hits, g.issues)
             && MarkersDistinct(x.inventory.records)
    requires r in x.inventory.records
    ensures ReconcileRecord(ReadBack(x, g, hits), r).findings == {}
    ensures ReconcileRecord(ReadBack(x, g, hits), r).number ==
              if r.disposition == Migrate && r.id in NumbersAfter(x, alloc)
              then Some(NumbersAfter(x, alloc)[r.id])
              else None
    ensures r.disposition == Migrate ==> r.id in NumbersAfter(x, alloc)
  {
    if r.disposition == Migrate { NumberOf(x, trial, alloc, g, r); }
    if Drafted(r) {
      AppliedDraftedMatches(x, trial, alloc, g, hits, r);
    } else if r.disposition == Migrate {
      ExternalStays(x, trial, alloc, g, r);
    }
  }

  /** Exactly the migrating records have a number, and different ones have different numbers. */
  lemma NumbersFit(x: PlanInput, trial: bool, alloc: map<Id, IssueRef>, g: GitHub)
    requires Ready(x, trial, alloc) && Applied(x, trial, alloc, g)
    ensures NumbersAfter(x, alloc).Keys == Migrating(x.inventory.records)
    ensures forall id, id' ::
              id in NumbersAfter(x, alloc) && id' in NumbersAfter(x, alloc) && id != id' ==>
                NumbersAfter(x, alloc)[id] != NumbersAfter(x, alloc)[id']
  {
    var records, numbers := x.inventory.records, NumbersAfter(x, alloc);
    forall r | r in records && r.disposition == Migrate ensures r.id in numbers { NumberOf(x, trial, alloc, g, r); }
    assert numbers.Keys == Migrating(records);
    forall id, id' | id in numbers && id' in numbers && id != id' ensures numbers[id] != numbers[id'] {
      var r :| r in records && r.disposition == Migrate && r.id == id;
      var q :| q in records && q.disposition == Migrate && q.id == id';
      NumbersAreDifferent(x, trial, alloc, g, r, q);
    }
  }

  lemma AppliedReconciles(x: PlanInput, trial: bool, alloc: map<Id, IssueRef>, g: GitHub, hits: map<string, seq<int>>)
    requires Ready(x, trial, alloc) && Applied(x, trial, alloc, g) && HitsSound(hits, g.issues)
             && MarkersDistinct(x.inventory.records)
    ensures Reconcile(ReadBack(x, g, hits)) == Report({}, NumbersAfter(x, alloc))
  {
    var records, numbers, y := x.inventory.records, NumbersAfter(x, alloc), ReadBack(x, g, hits);
    forall r | r in records
      ensures ReconcileRecord(y, r).findings == {}
      ensures ReconcileRecord(y, r).number ==
                if r.disposition == Migrate && r.id in numbers then Some(numbers[r.id]) else None
      ensures r.disposition == Migrate ==> r.id in numbers
    {
      AppliedRecordMatches(x, trial, alloc, g, hits, r);
    }
    NumbersFit(x, trial, alloc, g);
    forall d | d in y.drafts
      ensures ParentMatches(y, numbers, map[], d)
    {
      AppliedParentMatches(x, trial, alloc, g, hits, d);
    }
    assert MarkersPeaceful(y) by { MarkersPeacefulAfter(x, trial, alloc, g, hits); }
    CleanReport(y, numbers);
  }

  lemma AppliedFinalizes(x: PlanInput, trial: bool, alloc: map<Id, IssueRef>, g: GitHub, hits: map<string, seq<int>>)
    requires Ready(x, trial, alloc) && Applied(x, trial, alloc, g)
    ensures Finalize(x.inventory, NumbersAfter(x, alloc), None) == Some(Next(x, alloc, g, hits).inventory)
  {
    var records, numbers := x.inventory.records, NumbersAfter(x, alloc);
    forall r | r in records && r.disposition == Migrate
      ensures r.id in numbers && numbers[r.id] >= 1 && (r.targetIssue.Some? ==> numbers[r.id] == r.targetIssue.value)
    {
      NumberOf(x, trial, alloc, g, r);
    }
    NumbersFit(x, trial, alloc, g);
    forall r | r in records && r.id in numbers && r.targetIssue.Some? ensures r.targetIssue.value == numbers[r.id] {
      assert r.disposition == Migrate;
    }
    forall id | id in numbers ensures numbers[id] >= 1 {
      var r :| r in records && r.disposition == Migrate && r.id == id;
    }
  }

  /** The pipeline closes: after a full conflict-free plan with different markers is applied, reconciling reads every
      migrating record back without a problem, its mapping finalizes the inventory, and the next plan is empty. */
  lemma PipelineCloses(x: PlanInput, trial: bool, alloc: map<Id, IssueRef>, hits: map<string, seq<int>>)
    requires FullRun(x, trial, alloc) && Plan(x).conflicts == {} && MarkersDistinct(x.inventory.records)
    requires HitsSound(hits, ApplyAll(Before(x), alloc, Plan(x).operations).issues)
    ensures var g := ApplyAll(Before(x), alloc, Plan(x).operations);
            var report := Reconcile(ReadBack(x, g, hits));
            && report.findings == {}
            && Finalize(x.inventory, report.mapping, None).Some?
            && var next := ReadBack(x, g, hits).(inventory := Finalize(x.inventory, report.mapping, None).value);
            Plan(next).conflicts == {} && Plan(next).operations == []
  {
    var g := ApplyAll(Before(x), alloc, Plan(x).operations);
    PeacefulIff(x);
    ApplyPlan(x, trial, alloc);
    AppliedReconciles(x, trial, alloc, g, hits);
    AppliedFinalizes(x, trial, alloc, g, hits);
    ReplanIsQuiet(x, trial, alloc, g, hits);
    PeacefulIff(Next(x, alloc, g, hits));
    assert Next(x, alloc, g, hits) == ReadBack(x, g, hits).(inventory := Next(x, alloc, g, hits).inventory);
  }

  // ---- finalizing keeps the inventory valid ----

  lemma {:induction false} RetargetKeepsClaims(records: seq<Record>, m: map<Id, int>)
    ensures ClaimKeys(RetargetAll(records, m)) == ClaimKeys(records)
  {
    if records != [] {
      RetargetKeepsClaims(records[..|records| - 1], m);
      assert RetargetAll(records, m)[..|records| - 1] == RetargetAll(records[..|records| - 1], m);
    }
  }

  lemma {:induction false} RetargetKeepsIndex(records: seq<Record>, m: map<Id, int>)
    ensures KeyedBy(RetargetAll(records, m), IdOf).Keys == KeyedBy(records, IdOf).Keys
    ensures forall id ::
              id in KeyedBy(records, IdOf) ==>
                KeyedBy(RetargetAll(records, m), IdOf)[id] == Retargeted(KeyedBy(records, IdOf)[id], m)
  {
    if records != [] {
      var front, last := records[..|records| - 1], records[|records| - 1];
      RetargetKeepsIndex(front, m);
      var after := RetargetAll(records, m);
      assert after[..|records| - 1] == RetargetAll(front, m) && after[|records| - 1] == Retargeted(last, m);
    }
  }

  lemma RetargetKeepsSound(inventory: Inventory, m: map<Id, int>, scan: Scan, r': Record)
    requires Validated(inventory, scan) && r' in RetargetAll(inventory.records, m)
    ensures RecordSound(r', KeyedBy(RetargetAll(inventory.records, m), IdOf), scan.units)
  {
    RetargetMember(inventory.records, m, r');
    var r :| r in inventory.records && r' == Retargeted(r, m);
    RetargetKeepsIndex(inventory.records, m);
    assert RecordSound(r, ById(inventory), scan.units);
    SoundAgain(r, m, ById(inventory), KeyedBy(RetargetAll(inventory.records, m), IdOf), scan.units);
  }

  /** Whether a record is sound depends on no target. */
  lemma SoundAgain(r: Record, m: map<Id, int>, byId: map<Id, Record>, after: map<Id, Record>, units: map<string,
                   SourceUnit>)
    requires RecordSound(r, byId, units) && after.Keys == byId.Keys
             && forall id :: id in byId ==> after[id].disposition == byId[id].disposition
    ensures RecordSound(Retargeted(r, m), after, units)
  {
  }

  /** A record outside the mapping targets no issue of it. */
  lemma OutsideTargets(inventory: Inventory, mapping: map<Id, int>, scope: Option<set<Id>>, r: Record, id: Id)
    requires TargetsSound(inventory.records) && Finalize(inventory, mapping, scope).Some?
    requires r in inventory.records && r.id !in mapping && id in mapping
    ensures r.targetIssue != Some(mapping[id])
  {
    if r.disposition == Migrate { assert r.id in Migrating(inventory.records); }
  }

  lemma MappedMigrates(inventory: Inventory, mapping: map<Id, int>, scope: Option<set<Id>>, r: Record)
    requires DistinctKeys(inventory.records, IdOf) && Finalize(inventory, mapping, scope).Some?
             && r in inventory.records && r.id in mapping
    ensures r.disposition == Migrate
  {
    var q :| q in inventory.records && q.disposition == Migrate && q.id == r.id;
    SameIdSameRecord(inventory.records, q, r);
  }

  lemma TargetsStayDifferent(inventory: Inventory, mapping: map<Id, int>, scope: Option<set<Id>>, a: Record, b: Record)
    requires TargetsSound(inventory.records) && Finalize(inventory, mapping, scope).Some? && a in inventory.records
             && b in inventory.records
    requires a.id != b.id && (a.targetIssue.Some? ==> a.targetIssue != b.targetIssue)
    ensures Retargeted(a, mapping).targetIssue.Some? ==>
              Retargeted(a, mapping).targetIssue != Retargeted(b, mapping).targetIssue
  {
    if a.id in mapping && b.id !in mapping { OutsideTargets(inventory, mapping, scope, b, a.id); }
    if b.id in mapping && a.id !in mapping { OutsideTargets(inventory, mapping, scope, a, b.id); }
  }

  lemma RetargetedTargetsSound(inventory: Inventory, mapping: map<Id, int>, scope: Option<set<Id>>)
    requires DistinctKeys(inventory.records, IdOf) && TargetsSound(inventory.records)
             && Finalize(inventory, mapping, scope).Some?
    ensures TargetsSound(RetargetAll(inventory.records, mapping))
  {
    var records, after := inventory.records, RetargetAll(inventory.records, mapping);
    forall r' | r' in after && r'.targetIssue.Some? ensures r'.targetIssue.value >= 1 && r'.disposition == Migrate {
      RetargetMember(records, mapping, r');
      var r :| r in records && r' == Retargeted(r, mapping);
      if r.id in mapping { MappedMigrates(inventory, mapping, scope, r); }
    }
    forall i, j | 0 <= i < j < |after| && after[i].targetIssue.Some?
      ensures after[i].targetIssue != after[j].targetIssue
    {
      assert IdOf(records[i]) != IdOf(records[j]);
      TargetsStayDifferent(inventory, mapping, scope, records[i], records[j]);
    }
  }

  lemma RetargetKeepsAdoptions(inventory: Inventory, mapping: map<Id, int>)
    requires AdoptionsSound(inventory, ById(inventory))
    requires forall r ::
               r in inventory.records && r.id in mapping && r.targetIssue.Some? ==> r.targetIssue.value == mapping[r.id]
    ensures var final := inventory.(records := RetargetAll(inventory.records, mapping));
            AdoptionsSound(final, ById(final))
  {
    var final := inventory.(records := RetargetAll(inventory.records, mapping));
    var byId, byId' := ById(inventory), ById(final);
    RetargetKeepsIndex(inventory.records, mapping);
    forall id | id in inventory.adoptions
      ensures id in byId' && byId'[id].disposition == Migrate
              && byId'[id].targetIssue == Some(inventory.adoptions[id].issue)
    {
      assert byId[id] in inventory.records by { KeyedByFinds(inventory.records, IdOf); }
    }
    forall r' | r' in final.records && r'.retained != [] ensures r'.id in final.adoptions {
      RetargetMember(inventory.records, mapping, r');
      var r :| r in inventory.records && r' == Retargeted(r, mapping);
    }
  }

  /** Recording issue numbers, of every migrating record or of a scope, keeps every check of the inventory silent. */
  lemma FinalizedStaysValid(inventory: Inventory, scan: Scan, mapping: map<Id, int>, scope: Option<set<Id>>)
    requires Validated(inventory, scan) && Finalize(inventory, mapping, scope).Some?
    ensures Validated(Finalize(inventory, mapping, scope).value, scan)
  {
    var records := inventory.records;
    var final := inventory.(records := RetargetAll(records, mapping));
    assert SourcesCovered(final, scan) by { RetargetKeepsClaims(records, mapping); }
    RecordsStayValid(inventory, scan, mapping, scope);
  }

  lemma RecordsStayValid(inventory: Inventory, scan: Scan, mapping: map<Id, int>, scope: Option<set<Id>>)
    requires Validated(inventory, scan) && Finalize(inventory, mapping, scope).Some?
    ensures RecordsValid(inventory.(records := RetargetAll(inventory.records, mapping)), scan)
  {
    var records := inventory.records;
    var final := inventory.(records := RetargetAll(records, mapping));
    assert DistinctKeys(final.records, IdOf) by { RetargetKeepsIds(records, mapping); }
    assert TargetsSound(final.records) by { RetargetedTargetsSound(inventory, mapping, scope); }
    assert forall r' :: r' in final.records ==> RecordSound(r', ById(final), scan.units) by {
      forall r' | r' in final.records
        ensures RecordSound(r', ById(final), scan.units)
      {
        RetargetKeepsSound(inventory, mapping, scan, r');
      }
    }
    assert ParentLinks(ById(final)) == ParentLinks(ById(inventory)) by { RetargetKeepsLinks(records, mapping); }
    assert AdoptionsSound(final, ById(final)) by { RetargetKeepsAdoptions(inventory, mapping); }
  }

  lemma RetargetKeepsLinks(records: seq<Record>, m: map<Id, int>)
    ensures ParentLinks(KeyedBy(RetargetAll(records, m), IdOf)) == ParentLinks(KeyedBy(records, IdOf))
  {
    RetargetKeepsIndex(records, m);
  }

  // ---- a finalized inventory accounts for its open work ----

  /** A finalized inventory has the records it had, in order; those of the mapping, all that migrate without a scope,
      now target their issue, and nothing else about any record has changed. */
  lemma FinalizedHasIssues(inventory: Inventory, mapping: map<Id, int>, scope: Option<set<Id>>, i: nat)
    requires Finalize(inventory, mapping, scope).Some? && i < |inventory.records|
    ensures var r, r' := inventory.records[i], Finalize(inventory, mapping, scope).value.records[i];
            && r' == (if r.id in mapping then r.(targetIssue := Some(mapping[r.id])) else r)
            && (scope.None? && r.disposition == Migrate ==> r.id in mapping)
  {
    var r := inventory.records[i];
    if scope.None? && r.disposition == Migrate { assert r.id in Migrating(inventory.records); }
  }

  lemma MappedAgain(r: Record, r': Record, byId: map<Id, Record>, after: map<Id, Record>)
    requires after.Keys == byId.Keys && forall id :: id in byId ==> after[id].disposition == byId[id].disposition
    requires if r.disposition == Migrate
             then r' == r.(targetIssue := r'.targetIssue) && r'.targetIssue.Some?
             else r' == r
    ensures RecordMapped(r', after) <==> r.disposition == Migrate || RecordMapped(r, byId)
  {
  }

  lemma FinalizedRecordMapped(inventory: Inventory, mapping: map<Id, int>, i: nat)
    requires DistinctKeys(inventory.records, IdOf) && Finalize(inventory, mapping, None).Some?
             && i < |inventory.records|
    ensures var r, final := inventory.records[i], Finalize(inventory, mapping, None).value;
            RecordMapped(final.records[i], ById(final)) <==>
              r.disposition == Migrate || RecordMapped(r, ById(inventory))
  {
    var r, final := inventory.records[i], Finalize(inventory, mapping, None).value;
    FinalizedHasIssues(inventory, mapping, None, i);
    RetargetKeepsIndex(inventory.records, mapping);
    if r.id in mapping { MappedMigrates(inventory, mapping, None, r); }
    MappedAgain(r, final.records[i], ById(inventory), ById(final));
  }

  /** After a full finalization `mapping_problems` has nothing left to ask of the migrating records: it is silent
      exactly when every other record was already mapped. */
  lemma FinalizedIsMapped(inventory: Inventory, mapping: map<Id, int>)
    requires DistinctKeys(inventory.records, IdOf) && Finalize(inventory, mapping, None).Some?
    ensures Mapped(Finalize(inventory, mapping, None).value) <==>
              forall r :: r in inventory.records && r.disposition != Migrate ==> RecordMapped(r, ById(inventory))
  {
    var records, final := inventory.records, Finalize(inventory, mapping, None).value;
    forall i | 0 <= i < |records|
      ensures RecordMapped(final.records[i], ById(final)) <==>
                records[i].disposition == Migrate || RecordMapped(records[i], ById(inventory))
    {
      FinalizedRecordMapped(inventory, mapping, i);
    }
    if Mapped(final) {
      forall r | r in records && r.disposition != Migrate ensures RecordMapped(r, ById(inventory)) {
        var i :| 0 <= i < |records| && records[i] == r;
        assert final.records[i] in final.records;
      }
    }
  }

  /** From a valid inventory to finalized issues no open work is lost: every open unit is claimed by one record of the
      finalized inventory, which has its own issue, stands for one that has, or says why the work ends. */
  lemma FinalizedLosesNothing(inventory: Inventory, scan: Scan, mapping: map<Id, int>, key: string)
    requires Validated(inventory, scan) && Finalize(inventory, mapping, None).Some?
    requires forall r :: r in inventory.records && r.disposition != Migrate ==> RecordMapped(r, ById(inventory))
    requires key in scan.units && scan.units[key].IsOpenWork()
    ensures var records := Finalize(inventory, mapping, None).value.records;
            exists i: nat :: i < |records| && key in records[i].units && Accounted(records, i)
                             && forall j :: 0 <= j < |records| && j != i ==> key !in records[j].units
  {
    FinalizedStaysValid(inventory, scan, mapping, None);
    FinalizedIsMapped(inventory, mapping);
    NoOpenWorkLost(Finalize(inventory, mapping, None).value, scan, key);
  }

  // ---- finalizing in batches ----

  function Restricted(mapping: map<Id, int>, ids: set<Id>): map<Id, int> {
    map id | id in mapping && id in ids :: mapping[id]
  }

  lemma RetargetKeepsMigrating(records: seq<Record>, m: map<Id, int>)
    ensures Migrating(RetargetAll(records, m)) == Migrating(records)
  {
    forall id ensures id in Migrating(RetargetAll(records, m)) <==> id in Migrating(records) {
      if id in Migrating(records) {
        var r :| r in records && r.disposition == Migrate && r.id == id;
        RetargetMember(records, m, Retargeted(r, m));
      }
      if id in Migrating(RetargetAll(records, m)) {
        var r' :| r' in RetargetAll(records, m) && r'.disposition == Migrate && r'.id == id;
        RetargetMember(records, m, r');
      }
    }
  }

  /** Part of a mapping that finalizes everything finalizes its own records. */
  lemma BatchFinalizes(inventory: Inventory, mapping: map<Id, int>, ids: set<Id>)
    requires TargetsSound(inventory.records) && Finalize(inventory, mapping, None).Some?
             && ids <= Migrating(inventory.records)
    ensures Finalize(inventory, Restricted(mapping, ids), Some(ids)).Some?
  {
    var part := Restricted(mapping, ids);
    assert part.Keys == ids;
    forall r, id | r in inventory.records && r.id !in part && id in part ensures r.targetIssue != Some(part[id]) {
      if r.id !in mapping { OutsideTargets(inventory, mapping, None, r, id); }
    }
  }

  lemma RetargetTwice(records: seq<Record>, part: map<Id, int>, m: map<Id, int>)
    requires forall id :: id in part ==> id in m && part[id] == m[id]
    ensures RetargetAll(RetargetAll(records, part), m) == RetargetAll(records, m)
  {
  }

  /** Finalizing any scope first and the rest afterwards gives the inventory that finalizing at once gives. */
  lemma BatchesMeet(inventory: Inventory, mapping: map<Id, int>, ids: set<Id>)
    requires TargetsSound(inventory.records) && Finalize(inventory, mapping, None).Some?
             && ids <= Migrating(inventory.records)
    ensures var first := Finalize(inventory, Restricted(mapping, ids), Some(ids));
            first.Some? && Finalize(first.value, mapping, None) == Finalize(inventory, mapping, None)
  {
    var part := Restricted(mapping, ids);
    BatchFinalizes(inventory, mapping, ids);
    var first := inventory.(records := RetargetAll(inventory.records, part));
    RetargetKeepsMigrating(inventory.records, part);
    RetargetTwice(inventory.records, part, mapping);
    forall r' | r' in first.records && r'.id in mapping && r'.targetIssue.Some?
      ensures r'.targetIssue.value == mapping[r'.id]
    {
      RetargetMember(inventory.records, part, r');
    }
  }
}
