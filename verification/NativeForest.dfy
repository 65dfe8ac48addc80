/** Native sub-issue parents: what a plan binds follows the inventory's parents,
    and applying it keeps a forest a forest. */
module NativeForest {
  import opened Common
  import opened Chains
  import opened Inventory
  import opened Planner
  import opened PlanFacts
  import opened IdealGitHub

  // ---- what a plan binds ----

  /** The child-to-parent pairs that the operations bind. */
  function PlannedLinks(ops: seq<Operation>): map<Id, Id> {
    if ops == [] then map[]
    else
      var before, op := PlannedLinks(ops[..|ops| - 1]), ops[|ops| - 1];
      if op.BindSubIssue? then before[op.child := op.parent] else before
  }

  lemma {:induction false} PlannedLinksMember(ops: seq<Operation>, id: Id)
    ensures id in PlannedLinks(ops) ==> BindSubIssue(id, PlannedLinks(ops)[id]) in ops
  {
    if ops != [] {
      PlannedLinksMember(ops[..|ops| - 1], id);
      assert ops == ops[..|ops| - 1] + [ops[|ops| - 1]];
    }
  }

  lemma BoundIsDraft(x: PlanInput, op: Operation) returns (d: Draft)
    requires op in Plan(x).operations && op.BindSubIssue?
    ensures d in x.drafts && d.parent.Some? && op == BindSubIssue(d.recordId, d.parent.value)
            && d.parent.value in x.DraftsById()
  {
    PlanShape(x);
    PartsAreOfTheirKind(x, op);
    var reused, known := Reused(x, x.inventory.records), Known(x, x.inventory.records);
    BindOpsMember(x, reused, known, Existing(x), x.drafts, op);
    d :| d in x.drafts && d.parent.Some? && PlanBinding(x, reused, known, Existing(x), d).Bind?
         && op == BindSubIssue(d.recordId, d.parent.value);
  }

  /** Every planned binding, of a full, selected or scoped plan, is a parent link of the inventory between two records
      that are drafted. */
  lemma BindingIsParentLink(x: PlanInput, trial: bool, op: Operation)
    requires DraftsOf(x, trial) && op in Plan(x).operations && op.BindSubIssue?
    ensures var byId := ById(x.inventory);
            && op.child in ParentLinks(byId) && ParentLinks(byId)[op.child] == op.parent
            && op.child in byId && Drafted(byId[op.child]) && op.parent in byId && Drafted(byId[op.parent])
  {
    var d := BoundIsDraft(x, op);
    DraftsFound(x, trial);
    KeyedByFinds(x.inventory.records, IdOf);
    var r :| r in x.inventory.records && Drafted(r) && d == DraftOf(r, trial);
    var q :| q in x.inventory.records && Drafted(q) && q.id == d.parent.value;
    assert ById(x.inventory)[IdOf(r)] == r && ById(x.inventory)[IdOf(q)] == q;
  }

  function ChildOf(op: Operation): Id {
    if op.BindSubIssue? then op.child else ""
  }

  lemma {:induction false} ChildrenDiffer(x: PlanInput, reused: map<Id, IssueRef>, known: map<Id, IssueRef>,
                                          existing: set<Id>, drafts: seq<Draft>)
    requires DistinctKeys(drafts, DraftId)
    ensures DistinctKeys(BindOps(x, reused, known, existing, drafts), ChildOf)
  {
    if drafts != [] {
      var front, last := drafts[..|drafts| - 1], drafts[|drafts| - 1];
      DistinctFront(drafts, DraftId);
      ChildrenDiffer(x, reused, known, existing, front);
      var ops := BindOps(x, reused, known, existing, front);
      forall i | 0 <= i < |ops| ensures ChildOf(ops[i]) != last.recordId {
        BindOpsMember(x, reused, known, existing, front, ops[i]);
        var d :| d in front && ops[i].BindSubIssue? && ops[i].child == d.recordId;
        assert DraftId(d) != DraftId(last);
      }
    }
  }

  lemma LateBindings(early: seq<Operation>, binds: seq<Operation>, i: nat, j: nat)
    requires DistinctKeys(binds, ChildOf) && i < j < |early + binds| && (early + binds)[i].BindSubIssue?
             && (early + binds)[j].BindSubIssue?
    requires forall op :: op in early ==> !op.BindSubIssue?
    ensures (early + binds)[i].child != (early + binds)[j].child
  {
    assert forall k :: 0 <= k < |early| ==> early[k] in early && (early + binds)[k] == early[k];
    var a, b := binds[i - |early|], binds[j - |early|];
    assert ChildOf(a) != ChildOf(b);
  }

  /** No plan binds a child twice. */
  lemma BoundOnce(x: PlanInput, trial: bool, i: nat, j: nat)
    requires DraftsOf(x, trial) && i < j < |Plan(x).operations|
    requires Plan(x).operations[i].BindSubIssue? && Plan(x).operations[j].BindSubIssue?
    ensures Plan(x).operations[i].child != Plan(x).operations[j].child
  {
    var records := x.inventory.records;
    var early := LabelOps(x, x.policy.names) + IssueOps(x, records);
    PlanShape(x);
    DraftIdsDistinct(records, trial);
    ChildrenDiffer(x, Reused(x, records), Known(x, records), Existing(x), x.drafts);
    forall op | op in early ensures !op.BindSubIssue? { PartsAreOfTheirKind(x, op); }
    LateBindings(early, BindOps(x, Reused(x, records), Known(x, records), Existing(x), x.drafts), i, j);
  }

  /** The bindings of any plan of a valid inventory form a forest. */
  lemma PlannedBindingsFormAForest(x: PlanInput, trial: bool, scan: Scan)
    requires DraftsOf(x, trial) && Validated(x.inventory, scan)
    ensures Acyclic(PlannedLinks(Plan(x).operations))
  {
    var links := PlannedLinks(Plan(x).operations);
    forall id | id in links
      ensures id in ParentLinks(ById(x.inventory)) && ParentLinks(ById(x.inventory))[id] == links[id]
    {
      PlannedLinksMember(Plan(x).operations, id);
      BindingIsParentLink(x, trial, BindSubIssue(id, links[id]));
    }
    SubmapAcyclic(links, ParentLinks(ById(x.inventory)));
  }

  // ---- what applying a plan leaves ----

  /** Each issue that has a native parent, and that parent. */
  function NativeLinks(issues: map<int, Issue>): map<int, int> {
    map n | n in issues && issues[n].parent.Some? :: issues[n].parent.value
  }

  function NumbersOf(x: PlanInput, alloc: map<Id, IssueRef>): map<Id, int> {
    var refs := RefsAfter(x, alloc);
    map id | id in refs :: refs[id].number
  }

  lemma DraftedById(x: PlanInput, trial: bool, alloc: map<Id, IssueRef>, id: Id) returns (r: Record)
    requires FullPlan(x, trial, alloc) && id in NumbersOf(x, alloc)
    ensures r in x.inventory.records && Drafted(r) && r.id == id
            && NumbersOf(x, alloc)[id] == RefAfter(x, alloc, id).number
    ensures id in ById(x.inventory) && ById(x.inventory)[id] == r
  {
    r :| r in x.inventory.records && Drafted(r) && r.id == id;
    KeyedByFinds(x.inventory.records, IdOf);
    assert ById(x.inventory)[IdOf(r)] == r;
  }

  /** Afterwards the issues of the drafted records are linked as the inventory links the records. */
  lemma LinksAreRenamed(x: PlanInput, trial: bool, alloc: map<Id, IssueRef>, g: GitHub)
    requires FullyPeaceful(x, trial, alloc) && Applied(x, trial, alloc, g)
    ensures Renames(ParentLinks(ById(x.inventory)), NativeLinks(g.issues), NumbersOf(x, alloc))
  {
    var name := NumbersOf(x, alloc);
    forall id | id in name
      ensures && (id in ParentLinks(ById(x.inventory)) <==> name[id] in NativeLinks(g.issues))
              && (id in ParentLinks(ById(x.inventory)) ==>
                    && ParentLinks(ById(x.inventory))[id] in name
                    && NativeLinks(g.issues)[name[id]] == name[ParentLinks(ById(x.inventory))[id]])
    {
      var r := DraftedById(x, trial, alloc, id);
      PlannedParent(x, trial, alloc, r);
      assert g.issues[name[id]] == Settled(x, trial, alloc, r);
      if r.parent.Some? { var _ := DraftedById(x, trial, alloc, r.parent.value); }
    }
  }

  lemma NumbersAreNames(x: PlanInput, trial: bool, alloc: map<Id, IssueRef>, a: Id, b: Id)
    requires FullPlan(x, trial, alloc) && a in NumbersOf(x, alloc) && b in NumbersOf(x, alloc)
             && NumbersOf(x, alloc)[a] == NumbersOf(x, alloc)[b]
    ensures a == b
  {
    var r := DraftedById(x, trial, alloc, a);
    var q := DraftedById(x, trial, alloc, b);
    if r != q { NumbersDiffer(x, trial, alloc, r, q); }
  }

  lemma OtherLinksStay(x: PlanInput, trial: bool, alloc: map<Id, IssueRef>, g: GitHub, n: int)
    requires FullPlan(x, trial, alloc) && Applied(x, trial, alloc, g) && n !in NumbersOf(x, alloc).Values
    ensures n in NativeLinks(x.issues) <==> n in NativeLinks(g.issues)
    ensures n in NativeLinks(x.issues) ==> NativeLinks(x.issues)[n] == NativeLinks(g.issues)[n]
  {
    assert OutsideDrafted(x, trial, alloc, n) by {
      forall r | r in x.inventory.records && Drafted(r) ensures RefAfter(x, alloc, r.id).number != n {
        AfterMaps(x, trial, alloc, r);
        assert NumbersOf(x, alloc)[r.id] == RefAfter(x, alloc, r.id).number;
        assert r.id in NumbersOf(x, alloc).Keys;
      }
    }
  }

  /** Applying a full conflict-free plan of a valid inventory to a repository whose native parents form a forest leaves
      one: no issue becomes its own ancestor, whether or not a record drafts it. */
  lemma NativeParentsStayAForest(x: PlanInput, trial: bool, alloc: map<Id, IssueRef>, scan: Scan)
    requires FullyPeaceful(x, trial, alloc) && Validated(x.inventory, scan) && Acyclic(NativeLinks(x.issues))
    ensures Acyclic(NativeLinks(ApplyAll(Before(x), alloc, Plan(x).operations).issues))
  {
    var g := ApplyAll(Before(x), alloc, Plan(x).operations);
    ApplyPlan(x, trial, alloc);
    var name, after, links := NumbersOf(x, alloc), NativeLinks(g.issues), ParentLinks(ById(x.inventory));
    LinksAreRenamed(x, trial, alloc, g);
    forall a, b | a in name && b in name && name[a] == name[b]
      ensures a == b
    {
      NumbersAreNames(x, trial, alloc, a, b);
    }
    forall n | n !in name.Values
      ensures (n in NativeLinks(x.issues) <==> n in after)
              && (n in NativeLinks(x.issues) ==> NativeLinks(x.issues)[n] == after[n])
    {
      OtherLinksStay(x, trial, alloc, g, n);
    }
    RenamedPart(links, after, name);
    ChangedInPart(NativeLinks(x.issues), after, name.Values);
  }

  /** The renamed nodes are closed under the links, and on no cycle where the originals are on none. */
  lemma RenamedPart<K(!new), L(!new)>(next: map<K, K>, image: map<L, L>, name: map<K, L>)
    requires Renames(next, image, name) && Acyclic(next)
    requires forall a, b :: a in name && b in name && name[a] == name[b] ==> a == b
    ensures Closed(image, name.Values) && forall n :: n in name.Values ==> !OnCycle(image, n)
  {
    forall n | n in name.Values ensures !OnCycle(image, n) && (n in image ==> image[n] in name.Values) {
      var k :| k in name && name[k] == n;
      if OnCycle(image, n) {
        CycleRenamed(next, image, name, k);
        assert false;
      }
      if n in image { assert next[k] in name.Keys; }
    }
  }
}
