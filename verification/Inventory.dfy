/** The reviewed migration inventory: its records, the source units they claim, and the checks that fail closed. */
module Inventory {
  import opened Common
  import opened Chains
  import opened IssueBody

  type Id = string

  datatype Disposition = Migrate | Duplicate | History | Excluded | NotWork | UnknownDisposition
  datatype SectionClass = MigratedSection | MixedSection | RetiredSection | UnknownSection
  datatype StatusClass = Unresolved | Resolved | Statusless | UnknownStatus | MappingOnly
  datatype PriorityBasis = SourcePriority | ReviewedPriority | DefaultPriority

  const RESOLVED_STATUSES := {"closed", "retired", "reviewed disposition", "complete", "completed", "implemented",
                              "resolved", "merged"}
  const UNRESOLVED_STATUSES := {"open", "partially implemented", "promoted", "blocked", "active", "not drafted",
                                "in review", "ready", "accepted_open", "unrun_binding", "unrun"}
  const REVIEWED_DISPOSITION := "reviewed disposition"
  const EXTERNAL_ISSUE := "external-issue"

  /** What the scan takes for one piece of work; `token` is the status its text starts with, in lower case, if any. */
  datatype SourceUnit = SourceUnit(source: string, section: string, frozenMapping: bool, struck: bool,
                                   statusStruck: bool,
                                   hasStatusField: bool, stated: string, token: Option<string>)
  {
    function Status(): StatusClass {
      if frozenMapping then MappingOnly
      else if struck then (if statusStruck || Blank(stated) then Resolved else UnknownStatus)
      else if !hasStatusField then Statusless
      else if token.Some? && token.value in RESOLVED_STATUSES then Resolved
      else if token.Some? && token.value in UNRESOLVED_STATUSES then Unresolved
      else UnknownStatus
    }

    /** A status outside both lists is treated as if it were open. */
    predicate IsOpenWork() {
      Status().Unresolved? || Status().UnknownStatus?
    }
  }

  datatype SectionDisposition = SectionDisposition(source: string, title: string, classification: SectionClass,
                                                   rationale: string, statuslessReviewed: bool)

  /** A record; a text field that is absent is empty. `inner` is the rendered text between its two source markers. */
  datatype Record = Record(id: Id, kind: string, disposition: Disposition, units: seq<string>, title: string,
                           parent: Option<Id>, duplicateOf: Option<Id>, related: seq<Id>,
                           duplicateRationale: string, terminalDisposition: string, rationale: string,
                           mitigationOutstanding: bool, targetIssue: Option<int>,
                           status: string, priority: string, product: string, basis: PriorityBasis,
                           inner: Body, retained: seq<Body>)

  /** Permission to take over a live issue that has no region, valid for one fingerprint of it. */
  datatype Adoption = Adoption(issue: int, fingerprint: nat)

  datatype Inventory = Inventory(records: seq<Record>, sections: seq<SectionDisposition>, adoptions: map<Id, Adoption>)

  /** What scanning the pinned sources found. */
  datatype Scan = Scan(units: map<string, SourceUnit>, sections: set<(string, string)>)

  predicate Retires(d: Disposition) {
    d == History || d == Excluded || d == NotWork
  }

  function IdOf(r: Record): Id { r.id }

  function SectionKey(s: SectionDisposition): (string, string) { (s.source, s.title) }

  /** Every claimed unit key, record after record. */
  function ClaimKeys(records: seq<Record>): seq<string> {
    if records == [] then [] else ClaimKeys(records[..|records| - 1]) + records[|records| - 1].units
  }

  /** The parent links between records of the inventory. */
  function ParentLinks(byId: map<Id, Record>): map<Id, Id> {
    map id | id in byId && byId[id].parent.Some? && byId[id].parent.value in byId :: byId[id].parent.value
  }

  // ---- what a valid inventory is ----

  predicate SectionsClassified(inventory: Inventory, scan: Scan) {
    && (forall i, j ::
          0 <= i < j < |inventory.sections| ==> SectionKey(inventory.sections[i]) != SectionKey(inventory.sections[j]))
    && (forall s :: s in inventory.sections ==> s.classification != UnknownSection && !Blank(s.rationale))
    && (set s | s in inventory.sections :: SectionKey(s)) == scan.sections
  }

  /** A unit no record claims is resolved, or has no status in a section whose statusless
      rows are reviewed; its section is retired. */
  predicate MayStayUnclaimed(unit: SourceUnit, classified: map<(string, string), SectionDisposition>) {
    && !unit.IsOpenWork()
    && (unit.source, unit.section) in classified
    && var section := classified[(unit.source, unit.section)];
    && section.classification == RetiredSection
    && (unit.Status().Statusless? ==> section.statuslessReviewed)
    && unit.token != Some(REVIEWED_DISPOSITION)
  }

  predicate RecordSound(r: Record, byId: map<Id, Record>, units: map<string, SourceUnit>) {
    && r.disposition != UnknownDisposition
    && (r.units != [] || r.kind == EXTERNAL_ISSUE)
    && (r.disposition == Migrate ==> !Blank(r.title))
    && (forall x :: x in r.related ==> x in byId)
    && (r.parent.Some? ==> r.parent.value in byId)
    && (r.duplicateOf.Some? ==> r.duplicateOf.value in byId)
    && (r.disposition == Migrate && r.parent.Some? && r.parent.value in byId ==>
          byId[r.parent.value].disposition == Migrate)
    && (r.disposition == Duplicate ==>
          && r.duplicateOf.Some?
          && (r.duplicateOf.value in byId ==> byId[r.duplicateOf.value].disposition != Duplicate)
          && !Blank(r.duplicateRationale))
    && (Retires(r.disposition) ==>
          && ((exists key :: key in r.units && key in units && units[key].IsOpenWork()) ==>
                !Blank(r.terminalDisposition))
          && !(r.kind == "risk" && r.mitigationOutstanding))
  }

  predicate TargetsSound(records: seq<Record>) {
    && (forall r :: r in records && r.targetIssue.Some? ==> r.targetIssue.value >= 1 && r.disposition == Migrate)
    && (forall i, j ::
          0 <= i < j < |records| && records[i].targetIssue.Some? ==> records[i].targetIssue != records[j].targetIssue)
  }

  predicate AdoptionsSound(inventory: Inventory, byId: map<Id, Record>) {
    && (forall id :: id in inventory.adoptions ==>
          && id in byId && byId[id].disposition == Migrate
          && byId[id].targetIssue == Some(inventory.adoptions[id].issue))
    && (forall r :: r in inventory.records && r.retained != [] ==> r.id in inventory.adoptions)
  }

  function ById(inventory: Inventory): map<Id, Record> {
    KeyedBy(inventory.records, IdOf)
  }

  /** Every section is classified, every claim names one unit once, and an unclaimed unit may stay so. */
  ghost predicate SourcesCovered(inventory: Inventory, scan: Scan) {
    && SectionsClassified(inventory, scan)
    && Distinct(ClaimKeys(inventory.records))
    && (forall key :: key in ClaimKeys(inventory.records) ==> key in scan.units)
    && (forall key :: key in scan.units && key !in ClaimKeys(inventory.records) ==>
          MayStayUnclaimed(scan.units[key], KeyedBy(inventory.sections, SectionKey)))
  }

  ghost predicate RecordsValid(inventory: Inventory, scan: Scan) {
    && DistinctKeys(inventory.records, IdOf)
    && (forall r :: r in inventory.records ==> RecordSound(r, ById(inventory), scan.units))
    && TargetsSound(inventory.records)
    && AdoptionsSound(inventory, ById(inventory))
    && Acyclic(ParentLinks(ById(inventory)))
  }

  ghost predicate Validated(inventory: Inventory, scan: Scan) {
    SourcesCovered(inventory, scan) && RecordsValid(inventory, scan)
  }

  predicate RecordMapped(r: Record, byId: map<Id, Record>) {
    && (r.disposition == Migrate ==> r.targetIssue.Some?)
    && (Retires(r.disposition) ==> !Blank(r.rationale) || !Blank(r.terminalDisposition))
    && (r.disposition == Duplicate ==>
          r.duplicateOf.Some? && r.duplicateOf.value in byId && byId[r.duplicateOf.value].disposition == Migrate)
  }

  /** What `mapping_problems` asks of a finalized inventory. */
  predicate Mapped(inventory: Inventory) {
    forall r :: r in inventory.records ==> RecordMapped(r, ById(inventory))
  }

  // ---- no open work is lost ----

  lemma {:induction false} ClaimKeysMember(records: seq<Record>, key: string)
    ensures key in ClaimKeys(records) <==> exists i :: 0 <= i < |records| && key in records[i].units
  {
    if records != [] {
      var front := records[..|records| - 1];
      ClaimKeysMember(front, key);
      assert forall i :: 0 <= i < |front| ==> front[i] == records[i];
    }
  }

  /** With no key claimed twice, two records never claim the same unit. */
  lemma {:induction false} ClaimedOnce(records: seq<Record>, i: nat, j: nat, key: string)
    requires Distinct(ClaimKeys(records)) && i < j < |records|
    ensures !(key in records[i].units && key in records[j].units)
  {
    var front, last := records[..|records| - 1], records[|records| - 1];
    var keys := ClaimKeys(front);
    assert ClaimKeys(records)[..|keys|] == keys;
    if j < |front| {
      assert Distinct(keys) by {
        assert forall a :: 0 <= a < |keys| ==> keys[a] == ClaimKeys(records)[a];
      }
      ClaimedOnce(front, i, j, key);
    } else if key in records[i].units && key in last.units {
      assert front[i] == records[i];
      ClaimKeysMember(front, key);
    }
  }

  /** An issue of its own: a positive number no other record targets. */
  ghost predicate HasOwnIssue(records: seq<Record>, i: nat) {
    && i < |records| && records[i].disposition == Migrate
    && records[i].targetIssue.Some? && records[i].targetIssue.value >= 1
    && forall j :: 0 <= j < |records| && j != i ==> records[j].targetIssue != records[i].targetIssue
  }

  /** How the record's open work stays in sight. */
  ghost predicate Accounted(records: seq<Record>, i: nat) {
    i < |records| &&
    (|| HasOwnIssue(records, i)
     || (records[i].disposition == Duplicate
         && exists k: nat :: HasOwnIssue(records, k) && records[i].duplicateOf == Some(records[k].id))
     || (Retires(records[i].disposition) && !Blank(records[i].terminalDisposition)))
  }

  lemma MigratingHasOwnIssue(inventory: Inventory, scan: Scan, i: nat)
    requires Validated(inventory, scan) && Mapped(inventory)
    requires i < |inventory.records| && inventory.records[i].disposition == Migrate
    ensures HasOwnIssue(inventory.records, i)
  {
    var records := inventory.records;
    assert records[i] in records;
  }

  /** No open work is lost: one record and no other claims each open unit, and that record has an issue to itself,
      stands for another that has, or says why the work ends. */
  lemma NoOpenWorkLost(inventory: Inventory, scan: Scan, key: string)
    requires Validated(inventory, scan) && Mapped(inventory)
    requires key in scan.units && scan.units[key].IsOpenWork()
    ensures exists i: nat :: i < |inventory.records| && key in inventory.records[i].units
                             && (forall j ::
                                   0 <= j < |inventory.records| && j != i ==> key !in inventory.records[j].units)
                             && Accounted(inventory.records, i)
  {
    var records := inventory.records;
    ClaimKeysMember(records, key);
    var i: nat :| i < |records| && key in records[i].units;
    assert records[i] in records;
    forall j | 0 <= j < |records| && j != i ensures key !in records[j].units {
      if j < i { ClaimedOnce(records, j, i, key); } else { ClaimedOnce(records, i, j, key); }
    }
    if records[i].disposition == Migrate {
      MigratingHasOwnIssue(inventory, scan, i);
    } else if records[i].disposition == Duplicate {
      KeyedByFinds(records, IdOf);
      var original := ById(inventory)[records[i].duplicateOf.value];
      var k: nat :| k < |records| && records[k] == original;
      MigratingHasOwnIssue(inventory, scan, k);
    }
    assert Accounted(records, i);
  }

  // ---- the checks as they run ----

  datatype Problem = UnsoundSections | RepeatedId(id: Id) | ClaimedTwice(key: string) | UnknownUnit(key: string)
                   | UnclaimedUnit(key: string) | UnsoundRecord(id: Id) | BadTarget(id: Id) | UnsoundAdoptions
                   | ParentCycle(ids: set<Id>) | Unmapped(id: Id)

  lemma CycleNodesHaveLinks<K(!new)>(next: map<K, K>, k: K)
    requires OnCycle(next, k)
    ensures k in next
  {
    var n: nat :| n >= 1 && Walk(next, k, n) == Some(k);
    WalkDefined(next, k, 0, n);
  }

  /** A walk that meets a later node again, or ends, does not return to its start. */
  lemma NeverReturns<K(!new)>(next: map<K, K>, start: K, seen: seq<K>)
    requires Distinct(seen) && |seen| >= 1 && seen[0] == start
    requires forall i: nat :: i < |seen| ==> Walk(next, start, i) == Some(seen[i])
    requires var there := Walk(next, start, |seen|); there.Some? ==> there.value in seen[1..]
    ensures !OnCycle(next, start)
  {
    if n: nat :| n >= 1 && Walk(next, start, n) == Some(start) {
      var there := Walk(next, start, |seen|);
      if there.Some? {
        var i: nat :| 1 <= i < |seen| && seen[i] == there.value;
        if n >= i { var _ := WalkRepeats(next, start, i, |seen|, n); }
      } else if n > |seen| {
        WalkDefined(next, start, |seen|, n);
      }
      assert false;
    }
  }

  /** The walk of `_parent_cycles` from one record: it ends on every parent map and
      says whether the record lies on a cycle. */
  method LiesOnCycle(byId: map<Id, Record>, start: Id) returns (found: bool)
    requires start in byId
    ensures found <==> OnCycle(ParentLinks(byId), start)
  {
    ghost var links := ParentLinks(byId);
    var seen, current := [start], byId[start].parent;
    while current.Some? && current.value in byId
      invariant Distinct(seen) && |seen| >= 1 && seen[0] == start && forall x :: x in seen ==> x in byId
      invariant forall i: nat :: i < |seen| ==> Walk(links, start, i) == Some(seen[i])
      invariant Walk(links, start, |seen|) == if current.Some? && current.value in byId then current else None
      decreases |byId| - |seen|
    {
      DistinctFits(seen, byId.Keys);
      if current.value in seen {
        if current.value == start {
          return true;
        }
        NeverReturns(links, start, seen);
        return false;
      }
      seen := seen + [current.value];
      current := byId[current.value].parent;
      DistinctFits(seen, byId.Keys);
    }
    NeverReturns(links, start, seen);
    return false;
  }

  /** `_parent_cycles` reports exactly the records that lie on a cycle, so it is silent exactly when there is none. */
  method ParentCycles(byId: map<Id, Record>) returns (reported: set<Id>)
    ensures forall id :: id in reported <==> OnCycle(ParentLinks(byId), id)
    ensures reported == {} <==> Acyclic(ParentLinks(byId))
  {
    reported := {};
    var todo := byId.Keys;
    while todo != {}
      invariant todo <= byId.Keys
      invariant forall id :: id in reported <==> id in byId.Keys - todo && OnCycle(ParentLinks(byId), id)
      decreases todo
    {
      var start :| start in todo;
      var found := LiesOnCycle(byId, start);
      if found {
        reported := reported + {start};
      }
      todo := todo - {start};
    }
    forall id | OnCycle(ParentLinks(byId), id) ensures id in byId {
      CycleNodesHaveLinks(ParentLinks(byId), id);
    }
  }

  /** The parent links of a valid inventory form a forest: from every record, following parents reaches a record
      without one, in at most as many steps as there are links, and no record is met twice on the way. */
  lemma ParentsFormAForest(inventory: Inventory, scan: Scan, id: Id) returns (depth: nat)
    requires Validated(inventory, scan)
    ensures var links := ParentLinks(ById(inventory));
            && depth <= |links|
            && Walk(links, id, depth).Some? && Walk(links, id, depth).value !in links
            && forall i: nat, j: nat | i < j <= depth :: Walk(links, id, i) != Walk(links, id, j)
  {
    var links := ParentLinks(ById(inventory));
    depth := AcyclicWalkEnds(links, id);
    forall i: nat, j: nat | i < j <= depth ensures Walk(links, id, i) != Walk(links, id, j) {
      if Walk(links, id, i) == Walk(links, id, j) {
        WalkDefined(links, id, i, depth);
        WalkAdd(links, id, i, j - i);
        assert OnCycle(links, Walk(links, id, i).value);
        assert false;
      }
    }
  }

  /** `_target_issue_problems`: silent exactly when every target is positive, migrating and targeted once. */
  method TargetIssueProblems(records: seq<Record>) returns (problems: seq<Problem>)
    ensures problems == [] <==> TargetsSound(records)
  {
    problems := [];
    var targets: set<int> := {};
    for i := 0 to |records|
      invariant problems == [] <==> TargetsSound(records[..i])
      invariant problems == [] ==>
                  forall n :: n in targets <==> exists k :: 0 <= k < i && records[k].targetIssue == Some(n)
    {
      var r := records[i];
      assert records[..i + 1] == records[..i] + [r];
      assert TargetsSound(records[..i + 1]) ==> TargetsSound(records[..i]);
      if r.targetIssue.Some? {
        var target := r.targetIssue.value;
        if target < 1 || r.disposition != Migrate || target in targets {
          assert problems == [] ==> !TargetsSound(records[..i + 1]) by {
            assert records[..i + 1][i] == r;
            if target in targets && problems == [] {
              var k :| 0 <= k < i && records[k].targetIssue == Some(target);
              assert records[..i + 1][k].targetIssue == records[..i + 1][i].targetIssue;
            }
          }
          problems := problems + [BadTarget(r.id)];
        } else {
          targets := targets + {target};
        }
      }
    }
    assert records[..|records|] == records;
  }

  /** `mapping_problems`: silent exactly on the inventories that `Mapped` admits. */
  method MappingProblems(inventory: Inventory) returns (problems: seq<Problem>)
    ensures problems == [] <==> Mapped(inventory)
  {
    problems := [];
    var byId := ById(inventory);
    for i := 0 to |inventory.records|
      invariant problems == [] <==> forall k :: 0 <= k < i ==> RecordMapped(inventory.records[k], byId)
    {
      if !RecordMapped(inventory.records[i], byId) {
        problems := problems + [Unmapped(inventory.records[i].id)];
      }
    }
  }

  method RepeatedIds(records: seq<Record>) returns (problems: seq<Problem>, byId: map<Id, Record>)
    ensures problems == [] <==> DistinctKeys(records, IdOf)
    ensures byId == KeyedBy(records, IdOf)
  {
    problems, byId := [], map[];
    for i := 0 to |records|
      invariant byId == KeyedBy(records[..i], IdOf)
      invariant problems == [] <==> DistinctKeys(records[..i], IdOf)
    {
      assert records[..i + 1] == records[..i] + [records[i]];
      DistinctKeysExtend(records[..i], records[i], IdOf);
      if records[i].id in byId {
        problems := problems + [RepeatedId(records[i].id)];
      }
      byId := byId[records[i].id := records[i]];
    }
    assert records[..|records|] == records;
  }

  lemma {:induction false} DistinctByCount<T(!new)>(s: seq<T>)
    ensures Distinct(s) <==> forall x :: multiset(s)[x] <= 1
  {
    if s != [] {
      var front, last := s[..|s| - 1], s[|s| - 1];
      assert s == front + [last];
      DistinctByCount(front);
      if Distinct(s) {
        assert last !in front;
        assert forall i, j :: 0 <= i < j < |front| ==> front[i] == s[i] && front[j] == s[j];
      }
      if forall x :: multiset(s)[x] <= 1 {
        assert multiset(s)[last] == multiset(front)[last] + 1;
        assert last !in multiset(front);
        forall x ensures multiset(front)[x] <= 1 {
          assert multiset(s)[x] <= 1;
        }
      }
    }
  }

  ghost predicate Counts(claims: map<string, nat>, keys: multiset<string>) {
    forall key :: (key in claims <==> key in keys) && (key in claims ==> claims[key] == keys[key])
  }

  lemma CountsOneMore(claims: map<string, nat>, keys: multiset<string>, key: string)
    requires Counts(claims, keys)
    ensures Counts(claims[key := (if key in claims then claims[key] else 0) + 1], keys + multiset{key})
  {
  }

  method CountUnits(claims: map<string, nat>, units: seq<string>, ghost keys: multiset<string>)
    returns (counted: map<string, nat>)
    requires Counts(claims, keys)
    ensures Counts(counted, keys + multiset(units))
  {
    counted := claims;
    for j := 0 to |units|
      invariant Counts(counted, keys + multiset(units[..j]))
    {
      assert units[..j + 1] == units[..j] + [units[j]];
      assert keys + multiset(units[..j + 1]) == keys + multiset(units[..j]) + multiset{units[j]};
      CountsOneMore(counted, keys + multiset(units[..j]), units[j]);
      counted := counted[units[j] := (if units[j] in counted then counted[units[j]] else 0) + 1];
    }
    assert units[..|units|] == units;
  }

  /** The `Counter` of claims: how often each key is claimed, over all records. */
  method CountClaims(records: seq<Record>) returns (claims: map<string, nat>)
    ensures Counts(claims, multiset(ClaimKeys(records)))
  {
    claims := map[];
    for i := 0 to |records|
      invariant Counts(claims, multiset(ClaimKeys(records[..i])))
    {
      assert records[..i + 1][..i] == records[..i];
      claims := CountUnits(claims, records[i].units, multiset(ClaimKeys(records[..i])));
    }
    assert records[..|records|] == records;
  }

  method ClaimProblems(records: seq<Record>, units: map<string, SourceUnit>)
    returns (problems: seq<Problem>, claimed: set<string>)
    ensures problems == [] <==> Distinct(ClaimKeys(records)) && forall key :: key in ClaimKeys(records) ==> key in units
    ensures forall key :: key in claimed <==> key in ClaimKeys(records)
  {
    problems := [];
    var claims := CountClaims(records);
    claimed := claims.Keys;
    ghost var keys := ClaimKeys(records);
    assert forall key :: key in claimed <==> multiset(keys)[key] > 0;
    var todo := claimed;
    while todo != {}
      invariant todo <= claimed
      invariant problems == [] <==> forall key :: key in claimed - todo ==> claims[key] <= 1 && key in units
      decreases todo
    {
      var key :| key in todo;
      if claims[key] > 1 {
        problems := problems + [ClaimedTwice(key)];
      }
      if key !in units {
        problems := problems + [UnknownUnit(key)];
      }
      assert forall k :: k in claimed - (todo - {key}) <==> k in claimed - todo || k == key;
      todo := todo - {key};
    }
    DistinctByCount(keys);
  }

  method UnclaimedProblems(inventory: Inventory, units: map<string, SourceUnit>, claimed: set<string>)
    returns (problems: seq<Problem>)
    ensures problems == [] <==> forall key :: key in units && key !in claimed ==>
                                  MayStayUnclaimed(units[key], KeyedBy(inventory.sections, SectionKey))
  {
    problems := [];
    var classified := KeyedBy(inventory.sections, SectionKey);
    var todo := units.Keys - claimed;
    while todo != {}
      invariant todo <= units.Keys - claimed
      invariant problems == [] <==>
                  forall key :: key in units.Keys - claimed - todo ==> MayStayUnclaimed(units[key], classified)
      decreases todo
    {
      var key :| key in todo;
      if !MayStayUnclaimed(units[key], classified) {
        problems := problems + [UnclaimedUnit(key)];
      }
      assert forall k :: k in units.Keys - claimed - (todo - {key}) <==> k in units.Keys - claimed - todo || k == key;
      todo := todo - {key};
    }
  }

  method RecordProblems(records: seq<Record>, byId: map<Id, Record>, units: map<string, SourceUnit>)
    returns (problems: seq<Problem>)
    ensures problems == [] <==> forall r :: r in records ==> RecordSound(r, byId, units)
  {
    problems := [];
    for i := 0 to |records|
      invariant problems == [] <==> forall k :: 0 <= k < i ==> RecordSound(records[k], byId, units)
    {
      if !RecordSound(records[i], byId, units) {
        problems := problems + [UnsoundRecord(records[i].id)];
      }
    }
  }

  /** `validate_inventory`: silent exactly on a valid inventory. */
  method ValidateInventory(inventory: Inventory, scan: Scan) returns (problems: seq<Problem>)
    ensures problems == [] <==> Validated(inventory, scan)
  {
    var sections := if SectionsClassified(inventory, scan) then [] else [UnsoundSections];
    var repeated, byId := RepeatedIds(inventory.records);
    var claims, claimed := ClaimProblems(inventory.records, scan.units);
    var unclaimed := UnclaimedProblems(inventory, scan.units, claimed);
    var records := RecordProblems(inventory.records, byId, scan.units);
    var targets := TargetIssueProblems(inventory.records);
    var adoptions := if AdoptionsSound(inventory, byId) then [] else [UnsoundAdoptions];
    var cycles := ParentCycles(byId);
    var cyclic := if cycles == {} then [] else [ParentCycle(cycles)];
    problems := sections + repeated + claims + unclaimed + records + targets + adoptions + cyclic;
  }
}
