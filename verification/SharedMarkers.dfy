/** Two records with different ids but one source marker: a full conflict-free plan whose replan is not empty. */
module SharedMarkers {
  import opened Common
  import opened Chains
  import opened IssueBody
  import opened Labels
  import opened Inventory
  import opened Planner
  import opened PlanFacts
  import opened IdealGitHub
  import opened PlanRun
  import opened Replan

  /** `plan:` and `PLAN-` ids name the same source. */
  lemma PlanIdsShareMarkers(s: string)
    ensures "plan:" + s != "PLAN-" + s && SourceMarker("plan:" + s) == SourceMarker("PLAN-" + s) == "PLAN-" + s
  {
    assert ("plan:" + s)[0] == 'p' && ("PLAN-" + s)[0] == 'P';
    assert ("plan:" + s)[|"plan:"|..] == s;
  }

  ghost predicate Shared(i: Id, j: Id, m: string) {
    i != j && SourceMarker(i) == SourceMarker(j) == m && ReadableMarker(m) && |m| <= 1000
  }

  /** A migrating record that refers to no other and needs nothing but labels the policy has. */
  ghost predicate Simple(p: Policy, r: Record) {
    && Drafted(r) && r.parent.None? && r.duplicateOf.None? && r.related == [] && r.retained == [] && r.targetIssue.None?
    && r.inner == [] && !Blank(r.title) && |r.title| <= TITLE_LIMIT
    && RecordLabels(r, false) <= p.specs.Keys
  }

  /** The two units of the sources, both open work. */
  function Sources(): Scan {
    var unit := SourceUnit("s", "t", false, false, false, true, "open", Some("open"));
    Scan(map["u" := unit, "v" := unit], {})
  }

  /** An empty repository, and an inventory of the record under both ids, each claiming a unit of its own. */
  function Input(p: Policy, r: Record, i: Id, j: Id): PlanInput {
    var records := [r.(id := i, units := ["u"]), r.(id := j, units := ["v"])];
    PlanInput(p, Inventory(records, [], map[]), DraftIssues(records, false), map[], map[], map[], None, None)
  }

  function Numbers(i: Id, j: Id): map<Id, IssueRef> {
    map[i := IssueRef(1, 1), j := IssueRef(2, 2)]
  }

  lemma TwoClaims(a: Record, b: Record)
    requires a.units == ["u"] && b.units == ["v"]
    ensures ClaimKeys([a, b]) == ["u", "v"]
  {
    assert [a, b][..1] == [a] && [a][..0] == [];
    assert ClaimKeys([a]) == ["u"];
  }

  lemma UnitsAreCovered(p: Policy, r: Record, i: Id, j: Id)
    ensures SourcesCovered(Input(p, r, i, j).inventory, Sources())
  {
    var inventory, scan := Input(p, r, i, j).inventory, Sources();
    TwoClaims(inventory.records[0], inventory.records[1]);
    assert SectionsClassified(inventory, scan);
    assert "u" != "v" && scan.units.Keys == {"u", "v"};
    assert "u" in ClaimKeys(inventory.records) && "v" in ClaimKeys(inventory.records);
  }

  lemma RootsAreAcyclic(byId: map<Id, Record>)
    requires forall id :: id in byId ==> byId[id].parent.None?
    ensures Acyclic(ParentLinks(byId))
  {
    forall k | OnCycle(ParentLinks(byId), k) ensures false { CycleNodesHaveLinks(ParentLinks(byId), k); }
  }

  lemma LoneRecordIsSound(p: Policy, r: Record, id: Id, unit: string, byId: map<Id, Record>, units: map<string,
                          SourceUnit>)
    requires Simple(p, r)
    ensures RecordSound(r.(id := id, units := [unit]), byId, units)
  {
  }

  /** Nothing in the inventory is refused: `validate_inventory` lets it through to the planner. */
  lemma InputIsValid(p: Policy, r: Record, i: Id, j: Id)
    requires Simple(p, r) && i != j
    ensures Validated(Input(p, r, i, j).inventory, Sources())
  {
    var inventory, scan := Input(p, r, i, j).inventory, Sources();
    UnitsAreCovered(p, r, i, j);
    LoneRecordIsSound(p, r, i, "u", ById(inventory), scan.units);
    LoneRecordIsSound(p, r, j, "v", ById(inventory), scan.units);
    assert IdOf(inventory.records[0]) != IdOf(inventory.records[1]);
    forall id | id in ById(inventory) ensures ById(inventory)[id].parent.None? {
      KeyedByFinds(inventory.records, IdOf);
    }
    RootsAreAcyclic(ById(inventory));
    assert TargetsSound(inventory.records) && AdoptionsSound(inventory, ById(inventory));
  }

  lemma TwoDrafts(p: Policy, r: Record, i: Id, j: Id, m: string, d: Draft)
    requires Simple(p, r) && Shared(i, j, m) && d in Input(p, r, i, j).drafts
    ensures d.marker == m && d.inner == [] && d.parent.None? && d.title == r.title && d.labels == RecordLabels(r, false)
  {
    DraftIssuesMember(Input(p, r, i, j).inventory.records, false, d);
  }

  lemma RunIsFull(p: Policy, r: Record, i: Id, j: Id, m: string)
    requires PolicySound(p) && Simple(p, r) && Shared(i, j, m)
    ensures FullRun(Input(p, r, i, j), false, Numbers(i, j))
  {
    var x := Input(p, r, i, j);
    assert IdOf(x.inventory.records[0]) != IdOf(x.inventory.records[1]);
    assert HitsSound(x.hits, x.issues);
    assert TargetsSound(x.inventory.records);
  }

  lemma ThreeTokens(a: Token, b: Token, c: Token)
    ensures Opens([a, b, c]) == Opens([a]) + Opens([b]) + Opens([c])
            && Closes([a, b, c]) == Closes([a]) + Closes([b]) + Closes([c])
    ensures Length([a, b, c]) == Length([a]) + Length([b]) + Length([c])
  {
    var abc, ab := [a, b, c], [a, b];
    assert abc[..2] == ab && ab[..1] == [a];
  }

  lemma DraftIsSound(d: Draft)
    requires ReadableMarker(d.marker) && |d.marker| <= 1000 && d.inner == [] && 0 < |d.title| <= TITLE_LIMIT
    ensures WithinLimits(d) && OwnMarkersOnly(d)
  {
    var a, b, c := Open(d.marker), Close(d.marker), Text('\n');
    assert DraftBody(d) == [a, b, c];
    ThreeTokens(a, b, c);
  }

  lemma RecordIsPeaceful(p: Policy, r: Record, i: Id, j: Id, m: string, a: Record)
    requires PolicySound(p) && Simple(p, r) && Shared(i, j, m) && a in Input(p, r, i, j).inventory.records
    ensures PlanRecord(Input(p, r, i, j), a).conflicts == {}
  {
    var x := Input(p, r, i, j);
    assert DraftsOf(x, false) by { RunIsFull(p, r, i, j, m); }
    DraftsFound(x, false);
    assert Drafted(a) && a.targetIssue.None?;
  }

  ghost predicate PlainDraft(p: Policy, d: Draft) {
    WithinLimits(d) && OwnMarkersOnly(d) && d.parent.None? && d.labels <= p.specs.Keys
  }

  lemma NothingConflicts(x: PlanInput)
    requires x.issues == map[] && x.hits == map[] && x.labels == map[]
    requires RecordsPeaceful(x) && forall d :: d in x.drafts ==> PlainDraft(x.policy, d)
    ensures Plan(x).conflicts == {}
  {
    var records := x.inventory.records;
    assert BindingsPeaceful(x, Reused(x, records), Known(x, records), Existing(x)) by {
      forall d | d in x.drafts
        ensures !PlanBinding(x, Reused(x, records), Known(x, records), Existing(x), d).Conflicting?
      {
        assert PlainDraft(x.policy, d);
      }
    }
    PeacefulIff(x);
  }

  lemma RunIsPeaceful(p: Policy, r: Record, i: Id, j: Id, m: string)
    requires PolicySound(p) && Simple(p, r) && Shared(i, j, m)
    ensures Plan(Input(p, r, i, j)).conflicts == {}
  {
    var x := Input(p, r, i, j);
    forall d | d in x.drafts ensures PlainDraft(p, d) {
      TwoDrafts(p, r, i, j, m, d);
      DraftIsSound(d);
    }
    forall a | a in x.inventory.records ensures PlanRecord(x, a).conflicts == {} { RecordIsPeaceful(p, r, i, j, m, a); }
    NothingConflicts(x);
  }

  /** A valid inventory and a full conflict-free plan; `hits` is what searching the repository it leaves finds, and the
      next plan is not empty. */
  ghost predicate FixpointFails(x: PlanInput, scan: Scan, alloc: map<Id, IssueRef>, hits: map<string, seq<int>>) {
    && Validated(x.inventory, scan) && FullRun(x, false, alloc) && Plan(x).conflicts == {}
    && var second := Plan(Next(x, alloc, ApplyAll(Before(x), alloc, Plan(x).operations), hits));
    !(second.conflicts == {} && second.operations == [])
  }

  ghost predicate HitsAfter(x: PlanInput, alloc: map<Id, IssueRef>, hits: map<string, seq<int>>) {
    HitsSound(hits, ApplyAll(Before(x), alloc, Plan(x).operations).issues)
  }

  lemma FoundAfter(x: PlanInput, alloc: map<Id, IssueRef>) returns (hits: map<string, seq<int>>)
    ensures HitsAfter(x, alloc, hits)
  {
    hits := IndexExists(ApplyAll(Before(x), alloc, Plan(x).operations).issues);
  }

  lemma SharedMarkersBreakTheFixpoint(p: Policy, r: Record, i: Id, j: Id, m: string, hits: map<string, seq<int>>)
    requires PolicySound(p) && Simple(p, r) && Shared(i, j, m) && HitsAfter(Input(p, r, i, j), Numbers(i, j), hits)
    ensures FixpointFails(Input(p, r, i, j), Sources(), Numbers(i, j), hits)
  {
    var x := Input(p, r, i, j);
    InputIsValid(p, r, i, j);
    RunIsFull(p, r, i, j, m);
    RunIsPeaceful(p, r, i, j, m);
    assert !MarkersDistinct(x.inventory.records) by {
      var a, b := x.inventory.records[0], x.inventory.records[1];
      assert Drafted(a) && Drafted(b) && a.id != b.id;
      assert a in x.inventory.records && b in x.inventory.records;
    }
    ReplanIsEmptyIffMarkersDistinct(x, false, Numbers(i, j), hits);
  }

  // ---- a policy and a record the lemma applies to ----

  const LABELS := ["status:open", "product:optimus", "kind:plan", "priority:low", "difficulty:medium", "estimate:na",
                   "handler:unassigned"]

  function FreePolicy(): Policy {
    Policy(LABELS, map name | name in LABELS :: LabelSpec(name, "", ""), map d | d in DEFAULTED_DIMENSIONS :: None,
           _ => 0)
  }

  function PlainRecord(): Record {
    Record("", "plan", Migrate, [], "t", None, None, [], "", "", "", false, None, "open", "low", "optimus",
           DefaultPriority, [], [])
  }

  lemma LabelIsLower(name: string)
    requires name in LABELS
    ensures Lower(name) == name
  {
    forall k | 0 <= k < |name| ensures Lower(name)[k] == name[k] {}
  }

  lemma {:induction false} ColonAt(name: string, d: string, rest: string)
    requires ':' !in d && name == d + ":" + rest
    ensures ColonIndex(name) == |d|
  {
    if d != "" {
      assert name[0] == d[0] && d[0] in d;
      assert name[1..] == d[1..] + ":" + rest;
      ColonAt(name[1..], d[1..], rest);
    }
  }

  lemma FreeLabelIsValid(v: Vocabulary, name: string, d: string)
    requires d in v && v[d].None? && ':' !in d && HasPrefix(name, d) && name[|name| - 1] != ':'
    ensures ValidLabel(v, name)
  {
    var rest := name[|d| + 1..];
    assert name == d + ":" + rest;
    assert name[|d|] == ':';
    ColonAt(name, d, rest);
    assert name[..|d|] == d;
  }

  lemma FreePolicyIsSound()
    ensures PolicySound(FreePolicy())
  {
    var p := FreePolicy();
    forall name | name in p.specs ensures Lower(name) == name { LabelIsLower(name); }
    forall d, name | d in DEFAULTED_DIMENSIONS && name in p.specs && HasPrefix(name, d)
      ensures ValidLabel(p.vocabulary, name)
    {
      DimensionsHaveNoColon(d);
      assert name in LABELS && name[|name| - 1] != ':';
      FreeLabelIsValid(p.vocabulary, name, d);
    }
  }

  lemma PlainLabel(r: Record, d: string)
    requires r.status == "open" && r.product == "optimus" && r.kind == "plan" && r.priority == "low" && d in DIMENSIONS
    ensures LabelFor(r, d) in LABELS
  {
    if d == "status" { assert "status" + ":" + "open" == LABELS[0]; }
    else if d == "product" { assert "product" + ":" + "optimus" == LABELS[1]; }
    else if d == "kind" { assert "kind" + ":" + "plan" == LABELS[2]; }
    else if d == "priority" { assert "priority" + ":" + "low" == LABELS[3]; }
    else if d == "difficulty" { assert "difficulty" + ":" + "medium" == LABELS[4]; }
    else if d == "estimate" { assert "estimate" + ":" + "na" == LABELS[5]; }
    else { assert d == "handler" && "handler" + ":" + "unassigned" == LABELS[6]; }
  }

  lemma PlainRecordIsSimple()
    ensures Simple(FreePolicy(), PlainRecord())
  {
    var r := PlainRecord();
    forall name | name in RecordLabels(r, false) ensures name in LABELS {
      var d :| d in DIMENSIONS && name == LabelFor(r, d);
      PlainLabel(r, d);
    }
    assert forall name :: name in LABELS ==> name in FreePolicy().specs;
    assert !Blank(r.title) by { assert r.title[0] == 't' && !Space('t'); }
    assert Drafted(r) by { assert |r.kind| != |EXTERNAL_ISSUE|; }
  }

  lemma PlanSevenIsShared(i: Id, j: Id)
    requires i == "plan:" + "7" && j == "PLAN-" + "7"
    ensures Shared(i, j, j)
  {
    PlanIdsShareMarkers("7");
  }

  /** The concrete failing input: the records `plan:7` and `PLAN-7` under this policy, in an empty repository. */
  lemma PlanSevenTwice(i: Id, j: Id) returns (hits: map<string, seq<int>>)
    requires i == "plan:" + "7" && j == "PLAN-" + "7"
    ensures HitsAfter(Input(FreePolicy(), PlainRecord(), i, j), Numbers(i, j), hits)
    ensures FixpointFails(Input(FreePolicy(), PlainRecord(), i, j), Sources(), Numbers(i, j), hits)
  {
    var p, r := FreePolicy(), PlainRecord();
    assert PolicySound(p) && Simple(p, r) by {
      FreePolicyIsSound();
      PlainRecordIsSimple();
    }
    PlanSevenIsShared(i, j);
    hits := FoundAfter(Input(p, r, i, j), Numbers(i, j));
    SharedMarkersBreakTheFixpoint(p, r, i, j, j, hits);
  }
}
