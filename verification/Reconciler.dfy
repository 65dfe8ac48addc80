/** Reconciliation reads the repository back against the drafts; finalizing
    records the issue of every migrating record. */
module Reconciler {
  import opened Common
  import opened IssueBody
  import opened Labels
  import opened Inventory
  import opened Planner

  datatype Finding =
    | NoOwner(marker: string) | RepeatedOutside(marker: string)
    | TargetNotUsable(id: Id) | Undrafted(id: Id) | NotOnOneIssue(id: Id)
    | OtherIssue(id: Id) | NotOpen(id: Id) | OtherTitle(id: Id) | RegionUnreadable(id: Id) | RegionDiffers(id: Id)
    | WrongLabels(id: Id, dimension: string) | WrongTrial(id: Id)
    | WrongParent(id: Id) | SharedIssue(number: int)

  datatype Report = Report(findings: set<Finding>, mapping: map<Id, int>)

  /** What one record adds to the report. */
  datatype RecordReport = RecordReport(findings: set<Finding>, number: Option<int>)

  function MarkerOf(d: Draft): string { d.marker }

  function Owners(x: PlanInput): map<string, Draft> {
    KeyedBy(x.drafts, MarkerOf)
  }

  function MarkerFindings(x: PlanInput): set<Finding> {
    (set m | m in x.hits && !x.Owned(m) :: NoOwner(m)) +
    (set m | m in x.hits && |x.hits[m]| > 1 && m in Owners(x) && !x.InScope(Owners(x)[m].recordId) ::
       RepeatedOutside(m))
  }

  /** A defaulted dimension needs exactly one valid label, and a priority that is not a default its own value. */
  predicate DefaultedMatches(v: Vocabulary, wanted: set<string>, sourced: bool, labels: set<string>, d: string) {
    exists l :: l in labels && Present(labels, d) == {l} && ValidLabel(v, l)
                && (d == "priority" && sourced ==> l in wanted && HasPrefix(l, d))
  }

  function LabelFindings(x: PlanInput, d: Draft, issue: Issue): set<Finding> {
    (set k | k in SOURCE_DIMENSIONS && Present(issue.labels, k) != Present(d.labels, k) :: WrongLabels(d.recordId, k)) +
    (set k | k in DEFAULTED_DIMENSIONS
             && !DefaultedMatches(x.policy.vocabulary, d.labels, d.basis != DefaultPriority, issue.labels, k) ::
       WrongLabels(d.recordId, k)) +
    (if (TRIAL_LABEL in issue.labels) != (TRIAL_LABEL in d.labels) then {WrongTrial(d.recordId)} else {})
  }

  function RegionFindings(d: Draft, issue: Issue): set<Finding> {
    match GeneratedRegion(issue.body, d.marker)
    case Span(s, e) => if issue.body[s..e] != DraftRegion(d) then {RegionDiffers(d.recordId)} else {}
    case _ => {RegionUnreadable(d.recordId)}
  }

  function IssueFindings(x: PlanInput, r: Record, d: Draft, issue: Issue): set<Finding> {
    (if r.targetIssue.Some? && issue.number != r.targetIssue.value then {OtherIssue(r.id)} else {}) +
    (if issue.state != "open" then {NotOpen(r.id)} else {}) +
    (if r.targetIssue.None? && issue.title != d.title then {OtherTitle(r.id)} else {}) +
    RegionFindings(d, issue) +
    LabelFindings(x, d, issue)
  }

  function ReconcileRecord(x: PlanInput, r: Record): RecordReport {
    if r.disposition != Migrate || !x.InScope(r.id) then RecordReport({}, None)
    else if r.kind == EXTERNAL_ISSUE then
      if Usable(x, r.targetIssue)
      then RecordReport({}, Some(x.issues[r.targetIssue.value].number))
      else RecordReport({TargetNotUsable(r.id)}, None)
    else if r.id !in x.DraftsById() then RecordReport({Undrafted(r.id)}, None)
    else
      var d := x.DraftsById()[r.id];
      var found := Marked(x.hits, d.marker);
      if |found| != 1 || found[0] !in x.issues then
        RecordReport(if found != [] || x.selected.None? || r.id in x.selected.value then {NotOnOneIssue(r.id)} else {},
                     None)
      else
        var issue := x.issues[found[0]];
        RecordReport(IssueFindings(x, r, d, issue), Some(issue.number))
  }

  function RecordFindings(x: PlanInput, records: seq<Record>): set<Finding> {
    if records == []
    then {}
    else RecordFindings(x, records[..|records| - 1]) + ReconcileRecord(x, records[|records| - 1]).findings
  }

  function Mapping(x: PlanInput, records: seq<Record>): map<Id, int> {
    if records == [] then map[]
    else
      var r := records[|records| - 1];
      var before := Mapping(x, records[..|records| - 1]);
      match ReconcileRecord(x, r).number
      case None => before
      case Some(number) => before[r.id := number]
  }

  /** The issue number a native parent should have; an empty parent id and a zero number count as absent. */
  function ExpectedParent(mapping: map<Id, int>, known: map<Id, IssueRef>, d: Draft): Option<int> {
    if d.parent.None? || d.parent.value == "" then None
    else if d.parent.value in mapping && mapping[d.parent.value] != 0 then Some(mapping[d.parent.value])
    else if d.parent.value in known then Some(known[d.parent.value].number)
    else None
  }

  predicate ParentMatches(x: PlanInput, mapping: map<Id, int>, known: map<Id, IssueRef>, d: Draft) {
    d.recordId in mapping && mapping[d.recordId] in x.issues ==>
      x.issues[mapping[d.recordId]].parent == ExpectedParent(mapping, known, d)
  }

  function Reconcile(x: PlanInput): Report {
    var mapping, known := Mapping(x, x.inventory.records), Known(x, x.inventory.records);
    Report(MarkerFindings(x) + RecordFindings(x, x.inventory.records)
             + (set d | d in x.drafts && !ParentMatches(x, mapping, known, d) :: WrongParent(d.recordId))
             + (set id, id' | id in mapping && id' in mapping && id != id' && mapping[id] == mapping[id'] ::
                  SharedIssue(mapping[id])),
           mapping)
  }

  // ---- finalizing ----

  function Retargeted(r: Record, mapping: map<Id, int>): Record {
    if r.id in mapping then r.(targetIssue := Some(mapping[r.id])) else r
  }

  function RetargetAll(records: seq<Record>, mapping: map<Id, int>): seq<Record> {
    seq(|records|, i requires 0 <= i < |records| => Retargeted(records[i], mapping))
  }

  function Migrating(records: seq<Record>): set<Id> {
    set r | r in records && r.disposition == Migrate :: r.id
  }

  /** The records a finalization writes: the scoped ones, or every migrating one. */
  function Finalized(records: seq<Record>, scope: Option<set<Id>>): set<Id> {
    if scope.Some? then scope.value else Migrating(records)
  }

  /** `finalize_inventory`: the mapping names exactly the records to finalize, which all migrate; each gets its one
      positive issue, a reviewed target must agree, no issue serves two of them,
          and none belongs to a record outside the
      scope. Otherwise nothing is changed. */
  function Finalize(inventory: Inventory, mapping: map<Id, int>, scope: Option<set<Id>>): Option<Inventory> {
    if && mapping.Keys == Finalized(inventory.records, scope) <= Migrating(inventory.records)
       && (forall id :: id in mapping ==> mapping[id] >= 1)
       && (forall r ::
             r in inventory.records && r.id in mapping && r.targetIssue.Some? ==> r.targetIssue.value == mapping[r.id])
       && (forall id, id' :: id in mapping && id' in mapping && id != id' ==> mapping[id] != mapping[id'])
       && (forall r, id ::
             scope.Some? && r in inventory.records && r.id !in mapping && id in mapping ==>
               r.targetIssue != Some(mapping[id]))
    then Some(inventory.(records := RetargetAll(inventory.records, mapping)))
    else None
  }
}
