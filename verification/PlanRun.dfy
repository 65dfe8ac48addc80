/** Planning and reconciling as they run: dictionaries, lists and sets filled in
    loops, proved against their specifications. */
module PlanRun {
  import opened Common
  import opened IssueBody
  import opened Inventory
  import opened Planner
  import opened PlanFacts
  import opened Reconciler

  function IssueNumber(issue: Issue): int { issue.number }

  /** One more entry for issue `number` under each marker. */
  function Noted(hits: map<string, seq<int>>, number: int, markers: seq<string>): map<string, seq<int>> {
    if markers == [] then hits
    else
      var before, marker := Noted(hits, number, markers[..|markers| - 1]), markers[|markers| - 1];
      before[marker := Marked(before, marker) + [number]]
  }

  /** Which issues carry which marker: one entry per opening comment, in the order the issues are read. */
  function HitsOf(observed: seq<Issue>): map<string, seq<int>> {
    if observed == [] then map[]
    else Noted(HitsOf(observed[..|observed| - 1]), observed[|observed| - 1].number,
               Opens(observed[|observed| - 1].body))
  }

  /** What a plan or a reconciliation reads. */
  function Read(policy: Policy, inventory: Inventory, drafts: seq<Draft>, observed: seq<Issue>, labels: map<string,
                LabelSpec>,
                selected: Option<set<Id>>, scope: Option<set<Id>>): PlanInput {
    PlanInput(policy, inventory, drafts, KeyedBy(observed, IssueNumber), HitsOf(observed), labels, selected, scope)
  }

  method IndexIssues(observed: seq<Issue>) returns (byNumber: map<int, Issue>, hits: map<string, seq<int>>)
    ensures byNumber == KeyedBy(observed, IssueNumber) && hits == HitsOf(observed)
  {
    byNumber, hits := map[], map[];
    for i := 0 to |observed|
      invariant byNumber == KeyedBy(observed[..i], IssueNumber) && hits == HitsOf(observed[..i])
    {
      var issue := observed[i];
      assert observed[..i + 1][..i] == observed[..i];
      byNumber := byNumber[issue.number := issue];
      var markers := Opens(issue.body);
      for j := 0 to |markers|
        invariant hits == Noted(HitsOf(observed[..i]), issue.number, markers[..j])
      {
        assert markers[..j + 1][..j] == markers[..j];
        hits := hits[markers[j] := Marked(hits, markers[j]) + [issue.number]];
      }
      assert markers[..|markers|] == markers;
    }
    assert observed[..|observed|] == observed;
  }

  /** The index of distinct issues is right: each issue is found under its number, and every opening comment of every
      issue is counted. */
  lemma {:induction false} IndexIsSound(observed: seq<Issue>)
    requires DistinctKeys(observed, IssueNumber)
    ensures NumbersSound(KeyedBy(observed, IssueNumber)) && HitsSound(HitsOf(observed), KeyedBy(observed, IssueNumber))
  {
    KeyedByFinds(observed, IssueNumber);
    if observed != [] {
      var front, last := observed[..|observed| - 1], observed[|observed| - 1];
      DistinctFront(observed, IssueNumber);
      IndexIsSound(front);
      assert observed == front + [last];
      DistinctKeysExtend(front, last, IssueNumber);
      NotedAdds(HitsOf(front), last.number, Opens(last.body));
      AddedIsSound(HitsOf(front), HitsOf(observed), KeyedBy(front, IssueNumber), last);
    }
  }

  ghost predicate NoneEmpty(hits: map<string, seq<int>>) {
    forall m :: m in hits ==> hits[m] != []
  }

  lemma {:induction false} NotedAdds(before: map<string, seq<int>>, number: int, markers: seq<string>)
    requires NoneEmpty(before)
    ensures Added(before, Noted(before, number, markers), number, markers)
  {
    if markers == [] {
      forall m, n ensures AddedFor(before, before, number, markers, m, n) {}
    } else {
      var front, last := markers[..|markers| - 1], markers[|markers| - 1];
      NotedAdds(before, number, front);
      AddOne(before, Noted(before, number, front), number, front, last);
      assert markers == front + [last];
    }
  }

  ghost predicate AddedFor(before: map<string, seq<int>>, hits: map<string, seq<int>>, number: int,
                           markers: seq<string>, m: string, n: int) {
    multiset(Marked(hits, m))[n] == multiset(Marked(before, m))[n] + (if n == number then multiset(markers)[m] else 0)
  }

  /** `hits` is `before` with one entry for issue `number` per marker of `markers`. */
  ghost predicate Added(before: map<string, seq<int>>, hits: map<string, seq<int>>, number: int, markers: seq<string>) {
    NoneEmpty(hits) && forall m, n :: AddedFor(before, hits, number, markers, m, n)
  }

  lemma AddOneAt(hits: map<string, seq<int>>, number: int, markers: seq<string>, marker: string, m: string, n: int,
                 before: nat)
    requires multiset(Marked(hits, m))[n] == before + (if n == number then multiset(markers)[m] else 0)
    ensures multiset(Marked(hits[marker := Marked(hits, marker) + [number]], m))[n] ==
              before + (if n == number then multiset(markers + [marker])[m] else 0)
  {
    assert multiset(markers + [marker]) == multiset(markers) + multiset{marker};
    assert multiset(Marked(hits, marker) + [number]) == multiset(Marked(hits, marker)) + multiset{number};
  }

  lemma AddOne(before: map<string, seq<int>>, hits: map<string, seq<int>>, number: int, markers: seq<string>,
               marker: string)
    requires Added(before, hits, number, markers)
    ensures Added(before, hits[marker := Marked(hits, marker) + [number]], number, markers + [marker])
  {
    var after, all := hits[marker := Marked(hits, marker) + [number]], markers + [marker];
    forall m, n ensures AddedFor(before, after, number, all, m, n) {
      assert AddedFor(before, hits, number, markers, m, n);
      AddOneAt(hits, number, markers, marker, m, n, multiset(Marked(before, m))[n]);
    }
  }

  lemma AddedAt(before: map<string, seq<int>>, hits: map<string, seq<int>>, issues: map<int, Issue>, issue: Issue,
                m: string, n: int)
    requires multiset(Marked(before, m))[n] == if n in issues then Count(issues[n].body, Open(m)) else 0
    requires multiset(Marked(hits, m))[n] ==
               multiset(Marked(before, m))[n] + (if n == issue.number then multiset(Opens(issue.body))[m] else 0)
    requires issue.number !in issues
    ensures var after := issues[issue.number := issue];
            multiset(Marked(hits, m))[n] == if n in after then Count(after[n].body, Open(m)) else 0
  {
    OpensCount(issue.body, m);
  }

  lemma AddedIsSound(before: map<string, seq<int>>, hits: map<string, seq<int>>, issues: map<int, Issue>, issue: Issue)
    requires HitsSound(before, issues) && issue.number !in issues
             && Added(before, hits, issue.number, Opens(issue.body))
    ensures HitsSound(hits, issues[issue.number := issue])
  {
    forall m, n
      ensures var after := issues[issue.number := issue];
              multiset(Marked(hits, m))[n] == if n in after then Count(after[n].body, Open(m)) else 0
    {
      assert AddedFor(before, hits, issue.number, Opens(issue.body), m, n);
      AddedAt(before, hits, issues, issue, m, n);
    }
  }

  lemma SameBodies(hits: map<string, seq<int>>, issues: map<int, Issue>, others: map<int, Issue>)
    requires HitsSound(hits, issues) && issues.Keys == others.Keys
             && forall n :: n in issues ==> issues[n].body == others[n].body
    ensures HitsSound(hits, others)
  {
    forall m, n ensures multiset(Marked(hits, m))[n] == if n in others then Count(others[n].body, Open(m)) else 0 {}
  }

  /** Every repository has an index that counts its opening comments: note its issues one after another. */
  lemma {:induction false} IndexExists(issues: map<int, Issue>) returns (hits: map<string, seq<int>>)
    ensures HitsSound(hits, issues)
    decreases issues.Keys
  {
    if n :| n in issues {
      var rest, issue := map k | k in issues && k != n :: issues[k], issues[n].(number := n);
      assert n in issues.Keys && n !in rest.Keys;
      var before := IndexExists(rest);
      hits := Noted(before, n, Opens(issue.body));
      NotedAdds(before, n, Opens(issue.body));
      AddedIsSound(before, hits, rest, issue);
      SameBodies(hits, rest[n := issue], issues);
    } else {
      hits := map[];
    }
  }

  /** `plan_migration`: labels, then issues, then native parents; every conflict is found before any write. */
  method PlanMigration(policy: Policy, inventory: Inventory, drafts: seq<Draft>, observed: seq<Issue>,
                       labels: map<string, LabelSpec>,
                       selected: Option<set<Id>>, scope: Option<set<Id>>) returns (batch: Batch)
    ensures batch == Plan(Read(policy, inventory, drafts, observed, labels, selected, scope))
  {
    var byNumber, hits := IndexIssues(observed);
    var x := PlanInput(policy, inventory, drafts, byNumber, hits, labels, selected, scope);
    var labelOps := [];
    for i := 0 to |policy.names|
      invariant labelOps == LabelOps(x, policy.names[..i])
    {
      var name := policy.names[i];
      assert policy.names[..i + 1][..i] == policy.names[..i];
      if name in policy.specs && Lower(name) !in labels && LabelNeeded(x, name) {
        labelOps := labelOps + [CreateLabel(name, policy.specs[name])];
      }
    }
    assert policy.names[..|policy.names|] == policy.names;
    var reused, known, issueOps, conflicts := PlanRecords(x);
    var existing := reused.Keys + Created(issueOps);
    var bindOps, bindConflicts := PlanBindings(x, reused, known, existing);
    batch := Batch(labelOps + issueOps + bindOps,
                   MarkerConflicts(x) + DraftConflicts(x) + LabelConflicts(x) + conflicts + bindConflicts, reused);
  }

  /** One more record, in each of the four collections. */
  lemma RecordJoins(x: PlanInput, records: seq<Record>, i: nat, plan: RecordPlan, outside: Option<IssueRef>)
    requires i < |records| && plan == PlanRecord(x, records[i]) && outside == KnownRef(x, records[i])
    ensures Reused(x, records[..i + 1]) ==
              if plan.ref.Some?
              then Reused(x, records[..i])[records[i].id := plan.ref.value]
              else Reused(x, records[..i])
    ensures Known(x, records[..i + 1]) ==
              if outside.Some? then Known(x, records[..i])[records[i].id := outside.value] else Known(x, records[..i])
    ensures IssueOps(x, records[..i + 1]) == IssueOps(x, records[..i]) + if plan.op.Some? then [plan.op.value] else []
    ensures RecordConflicts(x, records[..i + 1]) == RecordConflicts(x, records[..i]) + plan.conflicts
  {
    var all := records[..i + 1];
    assert all[..|all| - 1] == records[..i] && all[|all| - 1] == records[i];
  }

  method PlanRecords(x: PlanInput) returns (reused: map<Id, IssueRef>, known: map<Id, IssueRef>, ops: seq<Operation>,
                     conflicts: set<Conflict>)
    ensures reused == Reused(x, x.inventory.records) && known == Known(x, x.inventory.records)
    ensures ops == IssueOps(x, x.inventory.records) && conflicts == RecordConflicts(x, x.inventory.records)
  {
    reused, known, ops, conflicts := map[], map[], [], {};
    var records := x.inventory.records;
    for i := 0 to |records|
      invariant reused == Reused(x, records[..i]) && known == Known(x, records[..i])
      invariant ops == IssueOps(x, records[..i]) && conflicts == RecordConflicts(x, records[..i])
    {
      var id, plan, outside := records[i].id, PlanRecord(x, records[i]), KnownRef(x, records[i]);
      RecordJoins(x, records, i, plan, outside);
      if plan.ref.Some? { reused := reused[id := plan.ref.value]; }
      if plan.op.Some? { ops := ops + [plan.op.value]; }
      if outside.Some? { known := known[id := outside.value]; }
      conflicts := conflicts + plan.conflicts;
    }
    assert records[..|records|] == records;
  }

  method PlanBindings(x: PlanInput, reused: map<Id, IssueRef>, known: map<Id, IssueRef>, existing: set<Id>)
    returns (ops: seq<Operation>, conflicts: set<Conflict>)
    ensures ops == BindOps(x, reused, known, existing, x.drafts)
            && conflicts == BindConflicts(x, reused, known, existing, x.drafts)
  {
    ops, conflicts := [], {};
    var drafts := x.drafts;
    for i := 0 to |drafts|
      invariant ops == BindOps(x, reused, known, existing, drafts[..i])
                && conflicts == BindConflicts(x, reused, known, existing, drafts[..i])
    {
      var d := drafts[i];
      assert drafts[..i + 1][..i] == drafts[..i];
      var plan := PlanBinding(x, reused, known, existing, d);
      if plan.Bind? && d.parent.Some? { ops := ops + [BindSubIssue(d.recordId, d.parent.value)]; }
      if plan.Conflicting? { conflicts := conflicts + {plan.conflict}; }
    }
    assert drafts[..|drafts|] == drafts;
  }

  /** `reconcile`: the specified report of the repository as read. */
  method ReconcileIssues(policy: Policy, inventory: Inventory, drafts: seq<Draft>, observed: seq<Issue>,
                         selected: Option<set<Id>>, scope: Option<set<Id>>)
    returns (report: Report)
    ensures report == Reconcile(Read(policy, inventory, drafts, observed, map[], selected, scope))
  {
    var byNumber, hits := IndexIssues(observed);
    var x := PlanInput(policy, inventory, drafts, byNumber, hits, map[], selected, scope);
    var findings, mapping, known := ReconcileRecords(x);
    report := Report(MarkerFindings(x) + findings
                       + (set d | d in drafts && !ParentMatches(x, mapping, known, d) :: WrongParent(d.recordId))
                       + (set id, id' | id in mapping && id' in mapping && id != id' && mapping[id] == mapping[id'] ::
                            SharedIssue(mapping[id])),
                     mapping);
  }

  lemma FindingsJoin(x: PlanInput, records: seq<Record>, i: nat, one: RecordReport, outside: Option<IssueRef>)
    requires i < |records| && one == ReconcileRecord(x, records[i]) && outside == KnownRef(x, records[i])
    ensures RecordFindings(x, records[..i + 1]) == RecordFindings(x, records[..i]) + one.findings
    ensures Mapping(x, records[..i + 1]) ==
              if one.number.Some?
              then Mapping(x, records[..i])[records[i].id := one.number.value]
              else Mapping(x, records[..i])
    ensures Known(x, records[..i + 1]) ==
              if outside.Some? then Known(x, records[..i])[records[i].id := outside.value] else Known(x, records[..i])
  {
    var all := records[..i + 1];
    assert all[..|all| - 1] == records[..i] && all[|all| - 1] == records[i];
  }

  method ReconcileRecords(x: PlanInput) returns (findings: set<Finding>, mapping: map<Id, int>, known: map<Id,
                          IssueRef>)
    ensures findings == RecordFindings(x, x.inventory.records)
    ensures mapping == Mapping(x, x.inventory.records) && known == Known(x, x.inventory.records)
  {
    findings, mapping, known := {}, map[], map[];
    var records := x.inventory.records;
    for i := 0 to |records|
      invariant findings == RecordFindings(x, records[..i]) && mapping == Mapping(x, records[..i])
                && known == Known(x, records[..i])
    {
      var id, one, outside := records[i].id, ReconcileRecord(x, records[i]), KnownRef(x, records[i]);
      FindingsJoin(x, records, i, one, outside);
      findings := findings + one.findings;
      if one.number.Some? { mapping := mapping[id := one.number.value]; }
      if outside.Some? { known := known[id := outside.value]; }
    }
    assert records[..|records|] == records;
  }
}
