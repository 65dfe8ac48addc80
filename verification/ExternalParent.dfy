/** A valid inventory that reconciles silently and whose draft cannot be planned: it hangs below an external issue. */
module ExternalParent {
  import opened Common
  import opened Chains
  import opened IssueBody
  import opened Inventory
  import opened Planner
  import opened PlanFacts
  import opened IdealGitHub
  import opened Reconciler
  import opened Replan
  import opened Agreement
  import opened ReconciledPlan
  import SharedMarkers

  /** Both records have their issue recorded; nothing else links them to other records. */
  ghost predicate Family(p: Policy, e: Record, c: Record) {
    && PolicySound(p)
    && e.kind == EXTERNAL_ISSUE && e.disposition == Migrate && e.units == [] && e.parent.None?
    && e.targetIssue == Some(1)
    && Drafted(c) && c.units == ["u"] && c.parent == Some(e.id) && c.targetIssue == Some(2) && c.inner == []
    && e.id != "" && e.id != c.id && Lone(e) && Lone(c) && |c.title| <= TITLE_LIMIT
    && RecordLabels(c, false) <= p.specs.Keys && ReadableMarker(SourceMarker(c.id)) && |SourceMarker(c.id)| <= 1000
  }

  predicate Lone(r: Record) {
    r.duplicateOf.None? && r.related == [] && r.retained == [] && !Blank(r.title)
  }

  function Sources(): Scan {
    Scan(map["u" := SourceUnit("s", "t", false, false, false, true, "open", Some("open"))], {})
  }

  function ChildIssue(c: Record): Issue {
    var d := DraftOf(c, false);
    Issue(2, 2, d.title, DraftBody(d), d.labels, "open", None, Some(1))
  }

  /** The child's issue is as its draft says and is bound to the external issue; every label exists. */
  function Input(p: Policy, e: Record, c: Record): PlanInput {
    PlanInput(p, Inventory([e, c], [], map[]), DraftIssues([e, c], false),
              map[1 := Issue(1, 1, e.title, [], {}, "open", None, None), 2 := ChildIssue(c)],
              map[SourceMarker(c.id) := [2]], p.specs, None, None)
  }

  lemma OneDraft(e: Record, c: Record)
    requires e.kind == EXTERNAL_ISSUE && Drafted(c)
    ensures DraftIssues([e, c], false) == [DraftOf(c, false)]
  {
    assert [e, c][..1] == [e] && [e][..0] == [];
    assert DraftIssues([e], false) == [];
  }

  lemma ClaimsAreSound(p: Policy, e: Record, c: Record)
    requires Family(p, e, c)
    ensures SourcesCovered(Input(p, e, c).inventory, Sources())
  {
    var inventory := Input(p, e, c).inventory;
    assert ClaimKeys([e, c]) == ["u"] by {
      assert [e, c][..1] == [e] && [e][..0] == [];
      assert ClaimKeys([e]) == [];
    }
    assert SectionsClassified(inventory, Sources());
    assert "u" in ClaimKeys(inventory.records);
  }

  lemma LinksAreAcyclic(e: Record, c: Record, byId: map<Id, Record>)
    requires e.id != c.id && e.parent.None? && c.parent == Some(e.id) && byId == map[e.id := e, c.id := c]
    ensures Acyclic(ParentLinks(byId))
  {
    SharedMarkers.RootsAreAcyclic(map[]);
    assert ParentLinks(map[]) == map[];
    AcyclicGrows(map[], c.id, e.id);
    assert ParentLinks(byId) == map[c.id := e.id];
  }

  lemma BothAreSound(p: Policy, e: Record, c: Record, byId: map<Id, Record>, units: map<string, SourceUnit>)
    requires Family(p, e, c) && byId == map[e.id := e, c.id := c]
    ensures RecordSound(e, byId, units) && RecordSound(c, byId, units)
  {
  }

  lemma InputIsValid(p: Policy, e: Record, c: Record)
    requires Family(p, e, c)
    ensures Validated(Input(p, e, c).inventory, Sources())
  {
    var inventory := Input(p, e, c).inventory;
    ClaimsAreSound(p, e, c);
    assert ById(inventory) == map[e.id := e, c.id := c] by {
      assert [e, c][..1] == [e] && [e][..0] == [];
      assert KeyedBy([e], IdOf) == map[e.id := e];
    }
    LinksAreAcyclic(e, c, ById(inventory));
    BothAreSound(p, e, c, ById(inventory), Sources().units);
    assert IdOf(e) != IdOf(c);
  }

  lemma OneMark(marker: string, m: string, n: int)
    ensures multiset(Marked(map[marker := [2]], m))[n] == if m == marker && n == 2 then 1 else 0
  {
  }

  lemma OneComment(d: Draft, m: string)
    requires OwnMarkersOnly(d)
    ensures Count(DraftBody(d), Open(m)) == if m == d.marker then 1 else 0
  {
    OpensCount(DraftBody(d), m);
    assert multiset([d.marker])[m] == if m == d.marker then 1 else 0;
  }

  lemma HitAt(d: Draft, issues: map<int, Issue>, m: string, n: int)
    requires OwnMarkersOnly(d) && issues.Keys == {1, 2} && issues[1].body == [] && issues[2].body == DraftBody(d)
    ensures multiset(Marked(map[d.marker := [2]], m))[n] == if n in issues then Count(issues[n].body, Open(m)) else 0
  {
    OneMark(d.marker, m, n);
    OneComment(d, m);
    assert n in issues <==> n in {1, 2};
  }

  lemma HitsAreSound(d: Draft, issues: map<int, Issue>)
    requires OwnMarkersOnly(d) && issues.Keys == {1, 2} && issues[1].body == [] && issues[2].body == DraftBody(d)
    ensures HitsSound(map[d.marker := [2]], issues)
  {
    forall m, n
      ensures multiset(Marked(map[d.marker := [2]], m))[n] == if n in issues then Count(issues[n].body, Open(m)) else 0
    {
      HitAt(d, issues, m, n);
    }
  }

  lemma IsRecorded(p: Policy, e: Record, c: Record)
    requires Family(p, e, c)
    ensures Recorded(Input(p, e, c), false) && OwnMarkersOnly(DraftOf(c, false))
  {
    var x, d := Input(p, e, c), DraftOf(c, false);
    SharedMarkers.DraftIsSound(d);
    HitsAreSound(d, x.issues);
    assert IdOf(e) != IdOf(c);
  }

  lemma ChildLabels(p: Policy, e: Record, c: Record)
    requires Family(p, e, c)
    ensures LabelFindings(Input(p, e, c), DraftOf(c, false), ChildIssue(c)) == {}
  {
    var x, d, issue := Input(p, e, c), DraftOf(c, false), ChildIssue(c);
    RecordLabelsShape(c, false);
    FreshLabels(p.vocabulary, d.labels, d.basis != DefaultPriority);
    LabelsMatch(x, d, issue);
  }

  lemma ChildRegion(p: Policy, e: Record, c: Record)
    requires Family(p, e, c)
    ensures RegionFindings(DraftOf(c, false), ChildIssue(c)) == {}
  {
    var d := DraftOf(c, false);
    assert Clean(d.inner, d.marker);
    CreatedIsFramed(d);
    RegionMatches(d, ChildIssue(c), [], [Text('\n')]);
  }

  /** The child's issue leaves nothing to find. */
  lemma ChildIsClean(p: Policy, e: Record, c: Record)
    requires Family(p, e, c)
    ensures ReconcileRecord(Input(p, e, c), c) == RecordReport({}, Some(2))
  {
    var x, d, issue := Input(p, e, c), DraftOf(c, false), ChildIssue(c);
    assert c.id in x.DraftsById() && x.DraftsById()[c.id] == d by {
      IsRecorded(p, e, c);
      DraftsFound(x, false);
      assert c in x.inventory.records;
    }
    assert IssueFindings(x, c, d, issue) == {} by {
      ChildLabels(p, e, c);
      ChildRegion(p, e, c);
    }
    assert Marked(x.hits, d.marker) == [2] && x.issues[2] == issue;
  }

  lemma MigratingBoth(e: Record, c: Record)
    requires e.disposition == Migrate && c.disposition == Migrate
    ensures Migrating([e, c]) == {e.id, c.id}
  {
    assert e in [e, c] && c in [e, c];
  }

  lemma ParentIsExpected(p: Policy, e: Record, c: Record, numbers: map<Id, int>)
    requires Family(p, e, c) && numbers == map[e.id := 1, c.id := 2]
    ensures forall d :: d in Input(p, e, c).drafts ==> ParentMatches(Input(p, e, c), numbers, map[], d)
  {
    OneDraft(e, c);
  }

  lemma RecordsAreClean(p: Policy, e: Record, c: Record, r: Record, numbers: map<Id, int>)
    requires Family(p, e, c) && numbers == map[e.id := 1, c.id := 2] && r in [e, c]
    ensures r.disposition == Migrate && r.id in numbers
            && ReconcileRecord(Input(p, e, c), r) == RecordReport({}, Some(numbers[r.id]))
  {
    if r == c { ChildIsClean(p, e, c); }
  }

  lemma MarkerIsOwned(p: Policy, e: Record, c: Record)
    requires Family(p, e, c)
    ensures MarkersPeaceful(Input(p, e, c))
  {
    var x := Input(p, e, c);
    OneDraft(e, c);
    assert x.drafts[0] in x.drafts && x.drafts[0].marker == SourceMarker(c.id);
  }

  lemma TwoCleanRecords(x: PlanInput, e: Record, c: Record, numbers: map<Id, int>)
    requires x.scope.None? && x.inventory.records == [e, c] && e.id != c.id && MarkersPeaceful(x)
             && numbers == map[e.id := 1, c.id := 2]
    requires forall r ::
               r in [e, c] ==>
                 r.disposition == Migrate && r.id in numbers
                 && ReconcileRecord(x, r) == RecordReport({}, Some(numbers[r.id]))
    requires forall d :: d in x.drafts ==> ParentMatches(x, numbers, map[], d)
    ensures Reconcile(x).findings == {}
  {
    MigratingBoth(e, c);
    assert IdOf(e) != IdOf(c);
    CleanReport(x, numbers);
  }

  lemma ReconcilesSilently(p: Policy, e: Record, c: Record)
    requires Family(p, e, c)
    ensures Reconcile(Input(p, e, c)).findings == {}
  {
    var x, numbers := Input(p, e, c), map[e.id := 1, c.id := 2];
    forall r | r in [e, c]
      ensures r.disposition == Migrate && r.id in numbers
              && ReconcileRecord(x, r) == RecordReport({}, Some(numbers[r.id]))
    {
      RecordsAreClean(p, e, c, r, numbers);
    }
    MarkerIsOwned(p, e, c);
    ParentIsExpected(p, e, c, numbers);
    TwoCleanRecords(x, e, c, numbers);
  }

  /** The same input, planned for a selection or within a scope. */
  function Planned(p: Policy, e: Record, c: Record, selected: Option<set<Id>>, scope: Option<set<Id>>): PlanInput {
    Input(p, e, c).(selected := selected, scope := scope)
  }

  lemma PlanRefuses(p: Policy, e: Record, c: Record, x: PlanInput)
    requires Family(p, e, c) && x == Planned(p, e, c, x.selected, x.scope) && x.InScope(c.id)
    ensures ParentWithoutDraft(c.id) in Plan(x).conflicts
  {
    var d := DraftOf(c, false);
    OneDraft(e, c);
    assert d in x.drafts;
    var reused, known := Reused(x, x.inventory.records), Known(x, x.inventory.records);
    assert e.id !in x.DraftsById() by { KeyedByFinds(x.drafts, DraftId); }
    assert PlanBinding(x, reused, known, Existing(x), d) == Conflicting(ParentWithoutDraft(c.id));
    BindConflictsMember(x, reused, known, Existing(x), x.drafts, ParentWithoutDraft(c.id));
  }

  lemma PlanAccepts(p: Policy, e: Record, c: Record, x: PlanInput)
    requires Family(p, e, c) && x == Planned(p, e, c, x.selected, x.scope) && !x.InScope(c.id)
    ensures Plan(x).conflicts == {}
  {
    OneDraft(e, c);
    assert forall d :: d in x.drafts ==> !x.InScope(d.recordId);
    assert MarkersPeaceful(x) by { assert x.drafts[0] in x.drafts && x.drafts[0].marker == SourceMarker(c.id); }
    assert PlanRecord(x, e).conflicts == {} && PlanRecord(x, c).conflicts == {};
    DraftsOutside(x);
  }

  /** A plan with every draft outside its scope can only conflict over markers and records. */
  lemma DraftsOutside(x: PlanInput)
    requires MarkersPeaceful(x) && RecordsPeaceful(x) && forall d :: d in x.drafts ==> !x.InScope(d.recordId)
    ensures Plan(x).conflicts == {}
  {
    PeacefulIff(x);
  }

  /** Silent reconciliation is not enough: a valid, fully recorded inventory without a finding, of which a plan is free
      of conflicts exactly when its scope leaves the child out, whatever it selects. */
  lemma SilentButUnplannable(p: Policy, e: Record, c: Record)
    requires Family(p, e, c)
    ensures var x := Input(p, e, c);
            Validated(x.inventory, Sources()) && Recorded(x, false) && Reconcile(x).findings == {}
    ensures forall selected, scope ::
              Plan(Planned(p, e, c, selected, scope)).conflicts == {} <==> scope.Some? && c.id !in scope.value
  {
    InputIsValid(p, e, c);
    IsRecorded(p, e, c);
    ReconcilesSilently(p, e, c);
    forall selected, scope
      ensures Plan(Planned(p, e, c, selected, scope)).conflicts == {} <==> scope.Some? && c.id !in scope.value
    {
      var x := Planned(p, e, c, selected, scope);
      if x.InScope(c.id) { PlanRefuses(p, e, c, x); } else { PlanAccepts(p, e, c, x); }
    }
  }

  /** A concrete member of the family. */
  lemma OneSuchInventory() returns (p: Policy, e: Record, c: Record)
    ensures Family(p, e, c)
  {
    p := SharedMarkers.FreePolicy();
    var r := SharedMarkers.PlainRecord();
    SharedMarkers.FreePolicyIsSound();
    SharedMarkers.PlainRecordIsSimple();
    e := r.(id := "E", kind := EXTERNAL_ISSUE, targetIssue := Some(1));
    c := r.(id := "C", units := ["u"], parent := Some("E"), targetIssue := Some(2));
    assert RecordLabels(c, false) == RecordLabels(r, false);
    assert e.id[0] == 'E' && c.id[0] == 'C';
    assert SourceMarker(c.id) == c.id;
  }
}
