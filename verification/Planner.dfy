/** Drafts, and the plan made from them: its operations, its conflicts and the issues it reuses. */
module Planner {
  import opened Common
  import opened IssueBody
  import opened Labels
  import opened Inventory

  const TITLE_LIMIT := 256
  const BODY_LIMIT := 65536

  datatype LabelSpec = LabelSpec(name: string, description: string, color: string)
  datatype IssueRef = IssueRef(number: int, id: int)
  datatype Issue = Issue(number: int, id: int, title: string, body: Body, labels: set<string>, state: string,
                         stateReason: Option<string>, parent: Option<int>)

  /** The part of an issue that its fingerprint covers. */
  datatype Content = Content(title: string, body: Body, labels: set<string>, state: string, stateReason: Option<string>,
                             parent: Option<int>)

  /** The reviewed label specifications in sorted order, the label vocabulary and the digest behind fingerprints. */
  datatype Policy = Policy(names: seq<string>, specs: map<string, LabelSpec>, vocabulary: Vocabulary,
                           digest: Content -> nat)

  datatype Draft = Draft(recordId: Id, marker: string, title: string, inner: Body, labels: set<string>,
                         parent: Option<Id>, basis: PriorityBasis)

  datatype Operation =
    | CreateLabel(name: string, spec: LabelSpec)
    | CreateIssue(target: Id, title: string, body: Body, labels: set<string>)
    | UpdateIssue(target: Id, issue: int, title: string, body: Body, labels: set<string>, expected: nat)
    | BindSubIssue(child: Id, parent: Id)

  datatype Conflict =
    | ForeignMarker(marker: string) | RepeatedMarker(marker: string)
    | OutsideLimits(id: Id) | WrongMarkers(id: Id)
    | UnreviewedLabel(name: string) | LabelDiffers(name: string)
    | TargetUnusable(id: Id) | NoDraft(id: Id) | UnrecordedIdentity(id: Id) | MarkerMissing(id: Id)
    | LabelClash(id: Id, dimension: string)
    | NoRegion(id: Id) | ChangedSinceAdoption(id: Id) | LacksPassage(id: Id)
    | UnexpectedParent(id: Id) | ParentWithoutDraft(id: Id) | WouldReparent(id: Id) | ParentOutsideScope(id: Id)

  datatype Batch = Batch(operations: seq<Operation>, conflicts: set<Conflict>, reused: map<Id, IssueRef>)

  // ---- drafts ----

  function SourceMarker(id: Id): string {
    if "plan:" <= id then "PLAN-" + id[|"plan:"|..]
    else if "A2A-" <= id then "EVIDENCE-HANDOFF-" + id
    else id
  }

  /** The source's values, and the operator's defaults for what the source does not state. */
  function LabelValue(r: Record, dimension: string): string {
    if dimension == "status" then r.status
    else if dimension == "product" then r.product
    else if dimension == "kind" then r.kind
    else if dimension == "priority" then r.priority
    else if dimension == "difficulty" then "medium"
    else if dimension == "estimate" then "na"
    else "unassigned"
  }

  function LabelFor(r: Record, dimension: string): string {
    dimension + ":" + LabelValue(r, dimension)
  }

  function RecordLabels(r: Record, trial: bool): set<string> {
    (set d | d in DIMENSIONS :: LabelFor(r, d)) + (if trial then {TRIAL_LABEL} else {})
  }

  predicate Drafted(r: Record) {
    r.disposition == Migrate && r.kind != EXTERNAL_ISSUE
  }

  function DraftOf(r: Record, trial: bool): Draft {
    Draft(r.id, SourceMarker(r.id), r.title, r.inner, RecordLabels(r, trial), r.parent, r.basis)
  }

  /** The drafts of the records that `Drafted` admits, in order. */
  function DraftIssues(records: seq<Record>, trial: bool): seq<Draft> {
    if records == [] then []
    else
      var last := records[|records| - 1];
      DraftIssues(records[..|records| - 1], trial) + (if Drafted(last) then [DraftOf(last, trial)] else [])
  }

  function DraftId(d: Draft): Id { d.recordId }

  /** The generated region of a draft, its body without the trailing newline. */
  function DraftRegion(d: Draft): Body {
    RegionText(d.marker, d.inner)
  }

  function DraftBody(d: Draft): Body {
    DraftRegion(d) + [Text('\n')]
  }

  /** A marker the comment pattern can find: not empty and without white space. */
  predicate ReadableMarker(m: string) {
    m != "" && forall c :: c in m ==> !Space(c)
  }

  // ---- what a plan reads ----

  datatype PlanInput = PlanInput(policy: Policy, inventory: Inventory, drafts: seq<Draft>, issues: map<int, Issue>,
                                 hits: map<string, seq<int>>, labels: map<string, LabelSpec>,
                                 selected: Option<set<Id>>, scope: Option<set<Id>>)
  {
    function Selection(): Option<set<Id>> {
      if selected.Some? then selected else scope
    }

    predicate Chosen(id: Id) {
      Selection().None? || id in Selection().value
    }

    predicate InScope(id: Id) {
      scope.None? || id in scope.value
    }

    function DraftsById(): map<Id, Draft> {
      KeyedBy(drafts, DraftId)
    }

    predicate Owned(marker: string) {
      exists d :: d in drafts && d.marker == marker
    }
  }

  /** The numbers of the issues that carry a marker, once per copy. */
  function Marked(hits: map<string, seq<int>>, m: string): seq<int> {
    if m in hits then hits[m] else []
  }

  /** `hits` counts every opening comment of every issue. */
  ghost predicate HitsSound(hits: map<string, seq<int>>, issues: map<int, Issue>) {
    && (forall m, n :: multiset(Marked(hits, m))[n] == if n in issues then Count(issues[n].body, Open(m)) else 0)
    && (forall m :: m in hits ==> hits[m] != [])
  }

  ghost predicate NumbersSound(issues: map<int, Issue>) {
    forall n :: n in issues ==> issues[n].number == n
  }

  function Fingerprint(p: Policy, issue: Issue): nat {
    p.digest(Content(issue.title, issue.body, issue.labels, issue.state, issue.stateReason, issue.parent))
  }

  // ---- the plan, part by part ----

  function MarkerConflicts(x: PlanInput): set<Conflict> {
    (set m | m in x.hits && !x.Owned(m) :: ForeignMarker(m)) +
    (set m | m in x.hits && x.Owned(m) && |x.hits[m]| > 1 :: RepeatedMarker(m))
  }

  predicate WithinLimits(d: Draft) {
    0 < |d.title| <= TITLE_LIMIT && Length(DraftBody(d)) <= BODY_LIMIT
  }

  /** The body opens and closes one region, under the draft's own marker. */
  predicate OwnMarkersOnly(d: Draft) {
    ReadableMarker(d.marker) && Opens(DraftBody(d)) == [d.marker] && Closes(DraftBody(d)) == [d.marker]
  }

  function DraftConflicts(x: PlanInput): set<Conflict> {
    (set d | d in x.drafts && x.InScope(d.recordId) && !WithinLimits(d) :: OutsideLimits(d.recordId)) +
    (set d | d in x.drafts && x.InScope(d.recordId) && !OwnMarkersOnly(d) :: WrongMarkers(d.recordId))
  }

  predicate LabelUsed(x: PlanInput, name: string) {
    exists d :: d in x.drafts && x.InScope(d.recordId) && name in d.labels
  }

  /** Some chosen draft in scope carries the label. */
  predicate LabelNeeded(x: PlanInput, name: string) {
    exists d :: d in x.drafts && x.InScope(d.recordId) && x.Chosen(d.recordId) && name in d.labels
  }

  function LabelConflicts(x: PlanInput): set<Conflict> {
    (set d, name | d in x.drafts && x.InScope(d.recordId) && name in d.labels && name !in x.policy.specs ::
       UnreviewedLabel(name)) +
    (set name | name in x.policy.specs && LabelUsed(x, name) && Lower(name) in x.labels
                && x.labels[Lower(name)] != x.policy.specs[name] ::
       LabelDiffers(name))
  }

  function LabelOpOf(x: PlanInput, name: string): Option<Operation> {
    if name in x.policy.specs && Lower(name) !in x.labels && LabelNeeded(x, name)
    then Some(CreateLabel(name, x.policy.specs[name]))
    else None
  }

  function LabelOps(x: PlanInput, names: seq<string>): seq<Operation> {
    if names == [] then []
    else
      var op := LabelOpOf(x, names[|names| - 1]);
      LabelOps(x, names[..|names| - 1]) + (if op.Some? then [op.value] else [])
  }

  /** What one record adds to the plan. */
  datatype RecordPlan = RecordPlan(conflicts: set<Conflict>, ref: Option<IssueRef>, op: Option<Operation>)

  function Clash(c: Conflict): RecordPlan {
    RecordPlan({c}, None, None)
  }

  /** The body an update would write, or why there is none. */
  datatype NewBody = Fresh(body: Body) | Refused(conflict: Conflict)

  predicate Contains(b: Body, part: Body) {
    exists i :: 0 <= i <= |b| && part <= b[i..]
  }

  /** A pilot body: its marker once, and no region end. */
  predicate Legacy(b: Body, m: string) {
    Count(b, Open(m)) == 1 && Close(m) !in b
  }

  function UpdatedBody(x: PlanInput, r: Record, d: Draft, issue: Issue): NewBody {
    if GeneratedRegion(issue.body, d.marker).Span? then
      Fresh(Rewritten(issue.body, d.marker, DraftRegion(d)))
    else if !Legacy(issue.body, d.marker) || r.id !in x.inventory.adoptions then
      Refused(NoRegion(r.id))
    else if Fingerprint(x.policy, issue) != x.inventory.adoptions[r.id].fingerprint then
      Refused(ChangedSinceAdoption(r.id))
    else if exists passage :: passage in r.retained && !Contains(issue.body, passage) then
      Refused(LacksPassage(r.id))
    else
      Fresh(DraftRegion(d))
  }

  function UpdatedLabels(x: PlanInput, d: Draft, issue: Issue): set<string> {
    MergedLabels(x.policy.vocabulary, d.labels, d.basis != DefaultPriority, issue.labels)
  }

  function UpdateClashes(x: PlanInput, d: Draft, issue: Issue): set<string> {
    LabelClashes(x.policy.vocabulary, d.labels, d.basis != DefaultPriority, issue.labels)
  }

  function ClashConflicts(id: Id, dimensions: set<string>): (c: set<Conflict>)
    ensures forall k :: k in dimensions <==> LabelClash(id, k) in c
  {
    set j | j in dimensions :: LabelClash(id, j)
  }

  predicate Usable(x: PlanInput, target: Option<int>) {
    target.Some? && target.value in x.issues && x.issues[target.value].state == "open"
  }

  function RefOf(issue: Issue): IssueRef {
    IssueRef(issue.number, issue.id)
  }

  function PlanTargeted(x: PlanInput, r: Record, d: Draft): RecordPlan
    requires r.targetIssue.Some?
  {
    if !Usable(x, r.targetIssue) then Clash(TargetUnusable(r.id))
    else
      var issue := x.issues[r.targetIssue.value];
      if Open(d.marker) !in issue.body then Clash(MarkerMissing(r.id))
      else
        var clashes := ClashConflicts(r.id, UpdateClashes(x, d, issue));
        match UpdatedBody(x, r, d, issue)
        case Refused(c) => RecordPlan(clashes + {c}, Some(RefOf(issue)), None)
        case Fresh(body) =>
          var wanted := UpdatedLabels(x, d, issue);
          var op := if x.Chosen(r.id) && (issue.body != body || issue.labels != wanted)
                    then Some(UpdateIssue(r.id, issue.number, issue.title, body, wanted, Fingerprint(x.policy, issue)))
                    else None;
          RecordPlan(clashes, Some(RefOf(issue)), op)
  }

  function PlanUntargeted(x: PlanInput, r: Record, d: Draft): RecordPlan {
    var marked := Marked(x.hits, d.marker);
    if |marked| == 1 && !x.Chosen(r.id) && marked[0] in x.issues then
      RecordPlan({}, Some(IssueRef(marked[0], x.issues[marked[0]].id)), None)  // found by its marker
    else if marked != [] then
      Clash(UnrecordedIdentity(r.id))
    else if x.Chosen(r.id) then
      RecordPlan({}, None, Some(CreateIssue(r.id, d.title, DraftBody(d), d.labels)))
    else
      RecordPlan({}, None, None)
  }

  function PlanRecord(x: PlanInput, r: Record): RecordPlan {
    if r.disposition != Migrate || !x.InScope(r.id) then RecordPlan({}, None, None)
    else if r.kind == EXTERNAL_ISSUE then
      if Usable(x, r.targetIssue) then RecordPlan({}, Some(RefOf(x.issues[r.targetIssue.value])), None)
      else Clash(TargetUnusable(r.id))
    else if r.id !in x.DraftsById() then Clash(NoDraft(r.id))
    else if r.targetIssue.None? then PlanUntargeted(x, r, x.DraftsById()[r.id])
    else PlanTargeted(x, r, x.DraftsById()[r.id])
  }

  function RecordConflicts(x: PlanInput, records: seq<Record>): set<Conflict> {
    if records == []
    then {}
    else RecordConflicts(x, records[..|records| - 1]) + PlanRecord(x, records[|records| - 1]).conflicts
  }

  function IssueOps(x: PlanInput, records: seq<Record>): seq<Operation> {
    if records == [] then []
    else
      var op := PlanRecord(x, records[|records| - 1]).op;
      IssueOps(x, records[..|records| - 1]) + (if op.Some? then [op.value] else [])
  }

  /** The records whose issue already exists, by id. */
  function Reused(x: PlanInput, records: seq<Record>): map<Id, IssueRef> {
    if records == [] then map[]
    else
      var r := records[|records| - 1];
      var before := Reused(x, records[..|records| - 1]);
      match PlanRecord(x, r).ref
      case None => before
      case Some(ref) => before[r.id := ref]
  }

  /** Where a record outside the scope lives, if it lives anywhere: by its marker, else by its target. */
  function KnownRef(x: PlanInput, r: Record): Option<IssueRef> {
    if r.disposition != Migrate || x.InScope(r.id) then None
    else
      var marked := if r.id in x.DraftsById() then Marked(x.hits, x.DraftsById()[r.id].marker) else [];
      var number := if |marked| == 1 then Some(marked[0]) else r.targetIssue;
      if number.Some? && number.value in x.issues then Some(RefOf(x.issues[number.value])) else None
  }

  function Known(x: PlanInput, records: seq<Record>): map<Id, IssueRef> {
    if records == [] then map[]
    else
      var r := records[|records| - 1];
      var before := Known(x, records[..|records| - 1]);
      match KnownRef(x, r)
      case None => before
      case Some(ref) => before[r.id := ref]
  }

  function Created(ops: seq<Operation>): set<Id> {
    set op | op in ops && op.CreateIssue? :: op.target
  }

  /** What one draft's native parent adds to the plan; `reused`, `known` and
      `existing` are the records with an issue. */
  datatype BindPlan = Skip | Bind | Conflicting(conflict: Conflict)

  function PlanBinding(x: PlanInput, reused: map<Id, IssueRef>, known: map<Id, IssueRef>, existing: set<Id>,
                       d: Draft): BindPlan {
    var current := if d.recordId in reused && reused[d.recordId].number in x.issues
                   then x.issues[reused[d.recordId].number].parent
                   else None;
    if !x.InScope(d.recordId) then Skip
    else match d.parent
      case None => if current.Some? then Conflicting(UnexpectedParent(d.recordId)) else Skip
      case Some(parent) =>
        var parentRef := if parent in reused
                         then Some(reused[parent])
                         else if parent in known then Some(known[parent]) else None;
        if parent !in x.DraftsById() then Conflicting(ParentWithoutDraft(d.recordId))
        else if current.Some? then
          if parentRef.None? || current.value != parentRef.value.number
          then Conflicting(WouldReparent(d.recordId))
          else Skip
        else if parent in known && x.Chosen(d.recordId) then Conflicting(ParentOutsideScope(d.recordId))
        else if && x.Selection().Some?
                && !({d.recordId, parent} * x.Selection().value != {} && {d.recordId, parent} <= existing)
        then Skip
        else Bind
  }

  function BindConflicts(x: PlanInput, reused: map<Id, IssueRef>, known: map<Id, IssueRef>, existing: set<Id>,
                         drafts: seq<Draft>): set<Conflict> {
    if drafts == [] then {}
    else
      var plan := PlanBinding(x, reused, known, existing, drafts[|drafts| - 1]);
      BindConflicts(x, reused, known, existing, drafts[..|drafts| - 1]) +
        (if plan.Conflicting? then {plan.conflict} else {})
  }

  function BindOps(x: PlanInput, reused: map<Id, IssueRef>, known: map<Id, IssueRef>, existing: set<Id>,
                   drafts: seq<Draft>): seq<Operation> {
    if drafts == [] then []
    else
      var d := drafts[|drafts| - 1];
      BindOps(x, reused, known, existing, drafts[..|drafts| - 1]) +
      (if PlanBinding(x, reused, known, existing, d).Bind? && d.parent.Some?
       then [BindSubIssue(d.recordId, d.parent.value)]
       else [])
  }

  function Plan(x: PlanInput): Batch {
    var records := x.inventory.records;
    var reused, known, issueOps := Reused(x, records), Known(x, records), IssueOps(x, records);
    var existing := reused.Keys + Created(issueOps);
    Batch(LabelOps(x, x.policy.names) + issueOps + BindOps(x, reused, known, existing, x.drafts),
          MarkerConflicts(x) + DraftConflicts(x) + LabelConflicts(x) + RecordConflicts(x, records)
            + BindConflicts(x, reused, known, existing, x.drafts),
          reused)
  }
}
