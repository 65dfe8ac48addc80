/** The planner and the reconciler judge the same repository: once every issue is recorded, nothing is left to plan
    exactly when nothing is left to report and the few things only the planner looks at are in order. */
module ReconciledPlan {
  import opened Common
  import opened IssueBody
  import opened Labels
  import opened Inventory
  import opened Planner
  import opened PlanFacts
  import opened Reconciler
  import opened Replan
  import opened Agreement

  /** A full, unselected run over an inventory whose migrating records all have their issue recorded. */
  ghost predicate Recorded(x: PlanInput, trial: bool) {
    && DraftsOf(x, trial) && x.selected.None? && x.scope.None?
    && TargetsSound(x.inventory.records) && NumbersSound(x.issues) && HitsSound(x.hits, x.issues)
    && forall r :: r in x.inventory.records && r.disposition == Migrate ==> r.targetIssue.Some?
  }

  /** No label of an issue is the trial label in another letter case: the planner would remove it, the reconciler does
      not see it. */
  predicate TrialInOneCase(labels: set<string>) {
    forall l :: l in labels && Lower(l) == TRIAL_LABEL ==> l == TRIAL_LABEL
  }

  /** What only the planner checks: sound drafts, label definitions, drafted
      parents, and the case of the trial label. */
  ghost predicate OnlyPlanned(x: PlanInput) {
    && DraftsPeaceful(x) && LabelsPeaceful(x)
    && (forall d, name :: d in x.drafts && name in d.labels && name in x.policy.names ==> Lower(name) in x.labels)
    && (forall d :: d in x.drafts && d.parent.Some? ==> d.parent.value in x.DraftsById())
    && (forall r ::
          r in x.inventory.records && Drafted(r) && Usable(x, r.targetIssue) ==>
            TrialInOneCase(x.issues[r.targetIssue.value].labels))
  }

  // ---- labels ----

  /** A label the reconciler accepts in a source dimension, or the trial label, is the draft's own. */
  lemma SourceLabelKept(wanted: set<string>, labels: set<string>, d: string, l: string)
    requires WantedShape(wanted) && d in SOURCE_DIMENSIONS && Present(labels, d) == Present(wanted, d) && l in labels
             && InDimension(l, d)
    ensures l in wanted && FromSource(l)
  {
    assert l in Present(labels, d);
    assert l in wanted && d in DIMENSIONS;
    OneDimension(l, d, d);
    var e :| e in DIMENSIONS && HasPrefix(l, e);
    PrefixIsInDimension(l, e);
    OneDimension(l, d, e);
  }

  ghost predicate LabelsAgree(v: Vocabulary, wanted: set<string>, sourced: bool, labels: set<string>) {
    && (forall k :: k in SOURCE_DIMENSIONS ==> Present(labels, k) == Present(wanted, k))
    && (forall k :: k in DEFAULTED_DIMENSIONS ==> DefaultedMatches(v, wanted, sourced, labels, k))
    && (TRIAL_LABEL in labels <==> TRIAL_LABEL in wanted)
  }

  lemma NoFindingsAgree(x: PlanInput, d: Draft, issue: Issue)
    requires LabelFindings(x, d, issue) == {}
    ensures LabelsAgree(x.policy.vocabulary, d.labels, d.basis != DefaultPriority, issue.labels)
  {
    forall k | k in SOURCE_DIMENSIONS ensures Present(issue.labels, k) == Present(d.labels, k) {
      assert WrongLabels(d.recordId, k) !in LabelFindings(x, d, issue);
    }
    forall k | k in DEFAULTED_DIMENSIONS
      ensures DefaultedMatches(x.policy.vocabulary, d.labels, d.basis != DefaultPriority, issue.labels, k)
    {
      assert WrongLabels(d.recordId, k) !in LabelFindings(x, d, issue);
    }
    assert WrongTrial(d.recordId) !in LabelFindings(x, d, issue);
  }

  lemma AgreedLabelIsKept(v: Vocabulary, wanted: set<string>, sourced: bool, labels: set<string>, l: string)
    requires WantedShape(wanted) && LabelsAgree(v, wanted, sourced, labels) && TrialInOneCase(labels) && l in labels
    ensures Kept(v, wanted, sourced, labels, l)
  {
    if Managed(l) && Lower(l) != TRIAL_LABEL {
      var d :| d in DIMENSIONS && InDimension(l, d);
      if d in SOURCE_DIMENSIONS {
        SourceLabelKept(wanted, labels, d, l);
      } else {
        assert d in DEFAULTED_DIMENSIONS && DefaultedMatches(v, wanted, sourced, labels, d);
        var k :| k in labels && Present(labels, d) == {k} && ValidLabel(v, k)
                 && (d == "priority" && sourced ==> k in wanted && HasPrefix(k, d));
        assert l in Present(labels, d);
        assert Settles(v, wanted, sourced, labels, d, l);
      }
    }
  }

  lemma KeptLabelIsThere(v: Vocabulary, wanted: set<string>, sourced: bool, labels: set<string>, l: string)
    requires WantedShape(wanted) && LabelsAgree(v, wanted, sourced, labels) && l in wanted
             && Kept(v, wanted, sourced, labels, l)
    ensures l in labels
  {
    if FromSource(l) && l != TRIAL_LABEL {
      var d :| d in SOURCE_DIMENSIONS && HasPrefix(l, d);
      assert d in DIMENSIONS;
      PrefixIsInDimension(l, d);
      assert l in Present(wanted, d) && Present(wanted, d) == Present(labels, d);
    } else if !FromSource(l) {
      WantedIsManaged(wanted, l);
      var d :| d in DEFAULTED_DIMENSIONS && Settles(v, wanted, sourced, labels, d, l);
      SettledIsThere(v, wanted, sourced, labels, d, l);
    }
  }

  lemma SettledIsThere(v: Vocabulary, wanted: set<string>, sourced: bool, labels: set<string>, d: string, l: string)
    requires DefaultedMatches(v, wanted, sourced, labels, d) && Settles(v, wanted, sourced, labels, d, l)
    ensures l in labels
  {
    var k :| k in labels && Present(labels, d) == {k};
    assert k in Present(labels, d);
  }

  /** Labels without a finding leave the merge nothing to change, and nothing to refuse. */
  lemma AgreedLabelsAreSettled(x: PlanInput, d: Draft, issue: Issue)
    requires WantedShape(d.labels) && LabelFindings(x, d, issue) == {} && TrialInOneCase(issue.labels)
    ensures UpdateClashes(x, d, issue) == {} && UpdatedLabels(x, d, issue) == issue.labels
  {
    var v, wanted, sourced, labels := x.policy.vocabulary, d.labels, d.basis != DefaultPriority, issue.labels;
    NoFindingsAgree(x, d, issue);
    forall k | k in DEFAULTED_DIMENSIONS ensures k !in UpdateClashes(x, d, issue) {
      assert DefaultedMatches(v, wanted, sourced, labels, k);
      var l :| l in labels && Present(labels, k) == {l} && ValidLabel(v, l)
               && (k == "priority" && sourced ==> l in wanted && HasPrefix(l, k));
      assert l in labels + wanted && Settles(v, wanted, sourced, labels, k, l);
    }
    forall l | l in labels + wanted ensures Kept(v, wanted, sourced, labels, l) <==> l in labels {
      if l in labels { AgreedLabelIsKept(v, wanted, sourced, labels, l); }
      if l in wanted && Kept(v, wanted, sourced, labels, l) { KeptLabelIsThere(v, wanted, sourced, labels, l); }
    }
  }

  /** A settled merge keeps no trial label in another case. */
  lemma SettledTrialIsInOneCase(v: Vocabulary, wanted: set<string>, sourced: bool, labels: set<string>)
    requires WantedShape(wanted) && MergedLabels(v, wanted, sourced, labels) == labels
    ensures TrialInOneCase(labels)
  {
    forall l | l in labels && Lower(l) == TRIAL_LABEL ensures l == TRIAL_LABEL {
      assert l in MergedLabels(v, wanted, sourced, labels);
      assert Managed(l);
      if l in wanted && FromSource(l) && l != TRIAL_LABEL {
        var d :| d in SOURCE_DIMENSIONS && HasPrefix(l, d);
        PrefixIsInDimension(l, d);
        OneDimension(l, d, d);
      } else if !(l in wanted && FromSource(l)) {
        var d :| d in DEFAULTED_DIMENSIONS && Settles(v, wanted, sourced, labels, d, l);
        SettlesInDimension(v, wanted, sourced, labels, d, l);
        OneDimension(l, d, d);
      }
    }
  }

  // ---- from a clean report to an empty plan ----

  /** Every part's findings are in the report. */
  lemma ReportHolds(x: PlanInput)
    ensures forall r, f ::
              r in x.inventory.records && f in ReconcileRecord(x, r).findings ==> f in Reconcile(x).findings
    ensures forall m :: m in x.hits && !x.Owned(m) ==> NoOwner(m) in Reconcile(x).findings
    ensures forall d ::
              d in x.drafts && !ParentMatches(x, Mapping(x, x.inventory.records), Known(x, x.inventory.records), d) ==>
                          WrongParent(d.recordId) in Reconcile(x).findings
  {
    forall r, f | r in x.inventory.records && f in ReconcileRecord(x, r).findings ensures f in Reconcile(x).findings {
      RecordFindingsMember(x, x.inventory.records, f);
    }
    forall m | m in x.hits && !x.Owned(m) ensures NoOwner(m) in Reconcile(x).findings {
      assert NoOwner(m) in MarkerFindings(x);
    }
  }

  lemma CleanFindings(x: PlanInput, trial: bool)
    requires Recorded(x, trial) && Reconcile(x).findings == {}
    ensures forall r :: r in x.inventory.records ==> ReconcileRecord(x, r).findings == {}
    ensures forall m :: m in x.hits ==> x.Owned(m)
    ensures forall d ::
              d in x.drafts ==> ParentMatches(x, Mapping(x, x.inventory.records), Known(x, x.inventory.records), d)
  {
    ReportHolds(x);
  }

  /** A drafted record without a finding has its marker once, on its open target, with its own region and labels. */
  lemma CleanDrafted(x: PlanInput, trial: bool, r: Record)
    requires Recorded(x, trial) && r in x.inventory.records && Drafted(r) && ReconcileRecord(x, r).findings == {}
    ensures var d := DraftOf(r, trial);
            && r.id in x.DraftsById() && x.DraftsById()[r.id] == d
            && Usable(x, r.targetIssue) && Marked(x.hits, d.marker) == [r.targetIssue.value]
            && ReconcileRecord(x, r).number == r.targetIssue
            && RegionFindings(d, x.issues[r.targetIssue.value]) == {}
            && LabelFindings(x, d, x.issues[r.targetIssue.value]) == {}
  {
    var d := DraftOf(r, trial);
    assert r.id in x.DraftsById() && x.DraftsById()[r.id] == d by { DraftsFound(x, trial); }
    var found := Marked(x.hits, d.marker);
    assert NotOnOneIssue(r.id) !in ReconcileRecord(x, r).findings;
    assert |found| == 1 && found[0] in x.issues;
    var issue := x.issues[found[0]];
    assert IssueFindings(x, r, d, issue) == {};
    assert OtherIssue(r.id) !in IssueFindings(x, r, d, issue) && NotOpen(r.id) !in IssueFindings(x, r, d, issue);
    assert issue.number == found[0];
    assert RegionFindings(d, issue) <= IssueFindings(x, r, d, issue)
           && LabelFindings(x, d, issue) <= IssueFindings(x, r, d, issue);
  }

  lemma CleanRegionIsFramed(d: Draft, issue: Issue) returns (before: Body, after: Body)
    requires RegionFindings(d, issue) == {}
    ensures Framed(issue.body, d.marker, before, d.inner, after)
  {
    var region := GeneratedRegion(issue.body, d.marker);
    before, after := issue.body[..region.start], issue.body[region.end..];
    RegionFrames(issue.body, d.marker, region.start, region.end, d.inner);
  }

  lemma CleanDraftedIsQuiet(x: PlanInput, trial: bool, r: Record)
    requires Recorded(x, trial) && OnlyPlanned(x) && r in x.inventory.records && Drafted(r)
             && ReconcileRecord(x, r).findings == {}
    ensures Usable(x, r.targetIssue)
            && PlanRecord(x, r) == RecordPlan({}, Some(RefOf(x.issues[r.targetIssue.value])), None)
  {
    CleanDrafted(x, trial, r);
    var d, issue := DraftOf(r, trial), x.issues[r.targetIssue.value];
    var before, after := CleanRegionIsFramed(d, issue);
    RecordLabelsShape(r, trial);
    AgreedLabelsAreSettled(x, d, issue);
    PlansItsTarget(x, r, d);
    QuietTarget(x, r, d, issue, before, after);
  }

  lemma CleanRecordIsQuiet(x: PlanInput, trial: bool, r: Record)
    requires Recorded(x, trial) && OnlyPlanned(x) && r in x.inventory.records && ReconcileRecord(x, r).findings == {}
    ensures PlanRecord(x, r).conflicts == {} && PlanRecord(x, r).op.None?
    ensures r.disposition == Migrate ==>
              PlanRecord(x, r).ref.Some? && PlanRecord(x, r).ref.value.number == r.targetIssue.value
              && r.targetIssue.value in x.issues
    ensures r.disposition == Migrate ==> ReconcileRecord(x, r).number == r.targetIssue
  {
    if Drafted(r) {
      CleanDraftedIsQuiet(x, trial, r);
      CleanDrafted(x, trial, r);
    } else if r.disposition == Migrate {
      assert Usable(x, r.targetIssue);
    }
  }

  lemma CleanMarkers(x: PlanInput, trial: bool)
    requires Recorded(x, trial) && Reconcile(x).findings == {}
    ensures MarkersPeaceful(x)
  {
    CleanFindings(x, trial);
    forall m | m in x.hits ensures |x.hits[m]| <= 1 {
      assert x.Owned(m);
      var d :| d in x.drafts && d.marker == m;
      DraftIssuesMember(x.inventory.records, trial, d);
      var r :| r in x.inventory.records && Drafted(r) && d == DraftOf(r, trial);
      CleanDrafted(x, trial, r);
    }
  }

  /** Planner and reconciler both know the recorded issue of a clean migrating record. */
  lemma CleanRefs(x: PlanInput, trial: bool, r: Record)
    requires Recorded(x, trial) && OnlyPlanned(x) && Reconcile(x).findings == {} && r in x.inventory.records
             && Drafted(r)
    ensures var reused, mapping := Reused(x, x.inventory.records), Mapping(x, x.inventory.records);
            && r.targetIssue.Some? && r.targetIssue.value in x.issues && r.targetIssue.value >= 1
            && r.id in reused && reused[r.id].number == r.targetIssue.value
            && r.id in mapping && mapping[r.id] == r.targetIssue.value
  {
    CleanFindings(x, trial);
    CleanRecordIsQuiet(x, trial, r);
    ReusedFinds(x, x.inventory.records);
    MappingFinds(x, x.inventory.records);
  }

  /** A drafted record's native parent, read back without a finding, is the issue of its own parent. */
  lemma CleanParent(x: PlanInput, trial: bool, d: Draft, r: Record)
    requires Recorded(x, trial) && OnlyPlanned(x) && Reconcile(x).findings == {} && d in x.drafts
    requires r in x.inventory.records && Drafted(r) && d == DraftOf(r, trial)
    ensures var mapping := Mapping(x, x.inventory.records);
            && ParentMatches(x, mapping, map[], d)
            && d.recordId in mapping
            && d.recordId == r.id
  {
    var records := x.inventory.records;
    assert ParentMatches(x, Mapping(x, records), Known(x, records), d) by { CleanFindings(x, trial); }
    assert Known(x, records) == map[] by { KnownOutside(x, records); }
    CleanRefs(x, trial, r);
  }

  lemma CleanBinding(x: PlanInput, trial: bool, d: Draft, known: map<Id, IssueRef>, existing: set<Id>)
    requires Recorded(x, trial) && OnlyPlanned(x) && Reconcile(x).findings == {} && d in x.drafts
    ensures PlanBinding(x, Reused(x, x.inventory.records), known, existing, d) == Skip
  {
    var records := x.inventory.records;
    DraftIssuesMember(records, trial, d);
    var r :| r in records && Drafted(r) && d == DraftOf(r, trial);
    CleanParent(x, trial, d, r);
    CleanRefs(x, trial, r);
    if d.parent.Some? {
      var q := DraftedParent(x, trial, d);
      CleanRefs(x, trial, q);
    }
    BindingSettled(x, d, Reused(x, records), known, existing);
  }

  lemma DraftedParent(x: PlanInput, trial: bool, d: Draft) returns (q: Record)
    requires Recorded(x, trial) && OnlyPlanned(x) && d in x.drafts && d.parent.Some?
    ensures q in x.inventory.records && Drafted(q) && q.id == d.parent.value && q.id != "" && q.id in x.DraftsById()
  {
    DraftsFound(x, trial);
    q :| q in x.inventory.records && Drafted(q) && q.id == d.parent.value;
    ParentIdNotEmpty(x, trial, q.id);
  }

  lemma CleanBindings(x: PlanInput, trial: bool)
    requires Recorded(x, trial) && OnlyPlanned(x) && Reconcile(x).findings == {}
    ensures var reused, known := Reused(x, x.inventory.records), Known(x, x.inventory.records);
            BindingsPeaceful(x, reused, known, Existing(x)) && BindOps(x, reused, known, Existing(x), x.drafts) == []
  {
    var reused, known, existing := Reused(x, x.inventory.records), Known(x, x.inventory.records), Existing(x);
    forall d | d in x.drafts
      ensures PlanBinding(x, reused, known, existing, d) == Skip
    {
      CleanBinding(x, trial, d, known, existing);
    }
    forall op
      ensures op !in BindOps(x, reused, known, existing, x.drafts)
    {
      BindOpsMember(x, reused, known, existing, x.drafts, op);
    }
    NoMember(BindOps(x, reused, known, existing, x.drafts));
  }

  lemma CleanIssueOps(x: PlanInput, trial: bool)
    requires Recorded(x, trial) && OnlyPlanned(x) && Reconcile(x).findings == {}
    ensures RecordsPeaceful(x) && IssueOps(x, x.inventory.records) == []
  {
    CleanFindings(x, trial);
    forall r | r in x.inventory.records
      ensures PlanRecord(x, r).conflicts == {} && PlanRecord(x, r).op.None?
    {
      CleanRecordIsQuiet(x, trial, r);
    }
    forall op ensures op !in IssueOps(x, x.inventory.records) { IssueOpsMember(x, x.inventory.records, op); }
    NoMember(IssueOps(x, x.inventory.records));
  }

  lemma NoLabelOps(x: PlanInput)
    requires OnlyPlanned(x)
    ensures LabelOps(x, x.policy.names) == []
  {
    forall op ensures op !in LabelOps(x, x.policy.names) { LabelOpsMember(x, x.policy.names, op); }
    NoMember(LabelOps(x, x.policy.names));
  }

  lemma ReconciledIsQuiet(x: PlanInput, trial: bool)
    requires Recorded(x, trial) && OnlyPlanned(x) && Reconcile(x).findings == {}
    ensures Plan(x).conflicts == {} && Plan(x).operations == []
  {
    CleanMarkers(x, trial);
    CleanBindings(x, trial);
    CleanIssueOps(x, trial);
    NoLabelOps(x);
    PeacefulIff(x);
    PlanShape(x);
  }

  // ---- from an empty plan to what only the planner checks ----

  lemma QuietLabelsExist(x: PlanInput, trial: bool)
    requires Recorded(x, trial) && LabelOps(x, x.policy.names) == [] && LabelsPeaceful(x)
    ensures forall d, name :: d in x.drafts && name in d.labels && name in x.policy.names ==> Lower(name) in x.labels
  {
    forall d, name | d in x.drafts && name in d.labels && name in x.policy.names ensures Lower(name) in x.labels {
      assert name in x.policy.specs;
      assert LabelNeeded(x, name);
      LabelOpsMember(x, x.policy.names, CreateLabel(name, x.policy.specs[name]));
    }
  }

  lemma StillTrialInOneCase(x: PlanInput, trial: bool, r: Record)
    requires Still(x, trial) && r in x.inventory.records && Drafted(r)
    ensures Usable(x, r.targetIssue) && TrialInOneCase(x.issues[r.targetIssue.value].labels)
  {
    StillTargeted(x, trial, r);
    RecordLabelsShape(r, trial);
    var d := DraftOf(r, trial);
    SettledTrialIsInOneCase(x.policy.vocabulary, d.labels, d.basis != DefaultPriority,
                            x.issues[r.targetIssue.value].labels);
  }

  lemma QuietIsOnlyPlanned(x: PlanInput, trial: bool)
    requires Recorded(x, trial) && Plan(x).conflicts == {} && Plan(x).operations == []
    ensures OnlyPlanned(x)
  {
    PeacefulIff(x);
    assert LabelOps(x, x.policy.names) == [] by { PlanShape(x); }
    QuietLabelsExist(x, trial);
    QuietIsStill(x, trial);
    var records := x.inventory.records;
    forall d | d in x.drafts && d.parent.Some? ensures d.parent.value in x.DraftsById() {
      assert !PlanBinding(x, Reused(x, records), Known(x, records), Existing(x), d).Conflicting?;
    }
    forall r | r in records && Drafted(r)
      ensures Usable(x, r.targetIssue) && TrialInOneCase(x.issues[r.targetIssue.value].labels)
    {
      StillTrialInOneCase(x, trial, r);
    }
  }

  /** With every issue recorded, the planner has no conflict and nothing to do exactly when the reconciler reports
      nothing and what only the planner checks is in order. */
  lemma NothingToPlanIffReconciled(x: PlanInput, trial: bool)
    requires Recorded(x, trial)
    ensures Plan(x).conflicts == {} && Plan(x).operations == [] <==> Reconcile(x).findings == {} && OnlyPlanned(x)
  {
    if Plan(x).conflicts == {} && Plan(x).operations == [] {
      PlannerAgreesWithReconciler(x, trial);
      QuietIsOnlyPlanned(x, trial);
    }
    if Reconcile(x).findings == {} && OnlyPlanned(x) { ReconciledIsQuiet(x, trial); }
  }
}
