/** The label namespaces the migration manages, and how an update merges a draft's labels into an issue's. */
module Labels {
  import opened Common

  const TRIAL_LABEL := "shadow-pilot"
  /** Dimensions in which the draft decides. */
  const SOURCE_DIMENSIONS := ["status", "product", "kind"]
  /** Dimensions in which a valid label already on the issue is kept against a draft that only has a default. */
  const DEFAULTED_DIMENSIONS := ["priority", "difficulty", "estimate", "handler"]
  const DIMENSIONS := SOURCE_DIMENSIONS + DEFAULTED_DIMENSIONS

  /** What may follow the colon in each dimension; `None` where anything may. */
  type Vocabulary = map<string, Option<set<string>>>

  predicate HasPrefix(name: string, dimension: string) {
    dimension + ":" <= name
  }

  /** The dimension's prefix stands at the front of the name, whatever the letter case. */
  predicate InDimension(name: string, dimension: string) {
    dimension + ":" <= Lower(name)
  }

  predicate Managed(name: string) {
    Lower(name) == TRIAL_LABEL || exists d :: d in DIMENSIONS && InDimension(name, d)
  }

  predicate FromSource(name: string) {
    name == TRIAL_LABEL || exists d :: d in SOURCE_DIMENSIONS && HasPrefix(name, d)
  }

  /** The index of the first colon, or the length when there is none. */
  function ColonIndex(name: string): (k: nat)
    ensures k <= |name|
  {
    if name == [] || name[0] == ':' then 0 else 1 + ColonIndex(name[1..])
  }

  predicate ValidLabel(v: Vocabulary, name: string) {
    var k := ColonIndex(name);
    && k + 1 < |name|
    && name[..k] in v
    && (v[name[..k]].None? || name[k + 1..] in v[name[..k]].value)
  }

  /** What every draft's labels look like: the trial label or one of the managed
      dimensions, each of which occurs once. */
  ghost predicate WantedShape(wanted: set<string>) {
    && (forall l :: l in wanted ==> l == TRIAL_LABEL || exists d :: d in DIMENSIONS && HasPrefix(l, d))
    && (forall d :: d in DIMENSIONS ==> exists l :: l in wanted && HasPrefix(l, d))
    && (forall d, l, l' ::
          d in DIMENSIONS && l in wanted && l' in wanted && HasPrefix(l, d) && HasPrefix(l', d) ==> l == l')
  }

  function Present(labels: set<string>, d: string): set<string> {
    set l | l in labels && InDimension(l, d)
  }

  /** `l` is the label the update leaves in the defaulted dimension `d`: the draft's when the issue has none, otherwise
      the issue's only one, which must be known and must agree with a priority that is not a default. */
  predicate Settles(v: Vocabulary, wanted: set<string>, sourced: bool, labels: set<string>, d: string, l: string) {
    || (Present(labels, d) == {} && l in wanted && HasPrefix(l, d))
    || (&& Present(labels, d) == {l} && ValidLabel(v, l)
        && (d == "priority" && sourced ==> l in wanted && HasPrefix(l, d)))
  }

  /** The defaulted dimensions in which the issue's labels forbid the update. */
  function LabelClashes(v: Vocabulary, wanted: set<string>, sourced: bool, labels: set<string>): set<string> {
    set d | d in DEFAULTED_DIMENSIONS && !exists l :: l in labels + wanted && Settles(v, wanted, sourced, labels, d, l)
  }

  predicate Kept(v: Vocabulary, wanted: set<string>, sourced: bool, labels: set<string>, l: string) {
    || (l in labels && !Managed(l))
    || (l in wanted && FromSource(l))
    || exists d :: d in DEFAULTED_DIMENSIONS && Settles(v, wanted, sourced, labels, d, l)
  }

  function MergedLabels(v: Vocabulary, wanted: set<string>, sourced: bool, labels: set<string>): set<string> {
    set l | l in labels + wanted && Kept(v, wanted, sourced, labels, l)
  }

  lemma DimensionsHaveNoColon(d: string)
    requires d in DIMENSIONS
    ensures ':' !in d && Lower(d + ":") == d + ":"
  {
    assert d in ["status", "product", "kind", "priority", "difficulty", "estimate", "handler"];
  }

  /** An exact prefix is also a prefix in any case. */
  lemma PrefixIsInDimension(l: string, d: string)
    requires d in DIMENSIONS && HasPrefix(l, d)
    ensures InDimension(l, d) && Managed(l)
  {
    DimensionsHaveNoColon(d);
    forall i | 0 <= i < |d| + 1 ensures Lower(l)[i] == (d + ":")[i] {
      assert Lower(d + ":")[i] == LowerChar((d + ":")[i]) && l[i] == (d + ":")[i];
    }
  }

  lemma SamePrefix(x: string, d: string, d': string)
    requires ':' !in d && ':' !in d' && d + ":" <= x && d' + ":" <= x
    ensures d == d'
  {
    assert x[|d|] == ':' && x[|d'|] == ':';
    if |d| == |d'| {
      assert d == x[..|d|] == d';
    }
  }

  /** A label belongs to at most one dimension, and the trial label to none. */
  lemma OneDimension(l: string, d: string, d': string)
    requires d in DIMENSIONS && d' in DIMENSIONS && InDimension(l, d)
    ensures InDimension(l, d') ==> d == d'
    ensures Lower(l) != TRIAL_LABEL && l != TRIAL_LABEL
  {
    DimensionsHaveNoColon(d);
    DimensionsHaveNoColon(d');
    var x := Lower(l);
    assert x[|d|] == ':';
    assert forall i :: 0 <= i < |TRIAL_LABEL| ==> TRIAL_LABEL[i] != ':' && Lower(TRIAL_LABEL)[i] == TRIAL_LABEL[i];
    if InDimension(l, d') { SamePrefix(x, d, d'); }
  }

  /** Every kept label of a managed dimension is the draft's or the one that settles that dimension. */
  lemma KeptInDimension(v: Vocabulary, wanted: set<string>, sourced: bool, labels: set<string>, d: string, l: string)
    requires WantedShape(wanted) && d in DIMENSIONS && InDimension(l, d) && Kept(v, wanted, sourced, labels, l)
    ensures d in SOURCE_DIMENSIONS ==> l in wanted && HasPrefix(l, d)
    ensures d in DEFAULTED_DIMENSIONS ==> Settles(v, wanted, sourced, labels, d, l)
  {
    OneDimension(l, d, d);
    if l in wanted && FromSource(l) {
      SourceLabelDimension(l, d);
    } else {
      var e :| e in DEFAULTED_DIMENSIONS && Settles(v, wanted, sourced, labels, e, l);
      SettlesInDimension(v, wanted, sourced, labels, e, l);
      OneDimension(l, d, e);
    }
  }

  lemma SourceLabelDimension(l: string, d: string)
    requires FromSource(l) && d in DIMENSIONS && InDimension(l, d)
    ensures d in SOURCE_DIMENSIONS && HasPrefix(l, d)
  {
    OneDimension(l, d, d);
    var e :| e in SOURCE_DIMENSIONS && HasPrefix(l, e);
    PrefixIsInDimension(l, e);
    OneDimension(l, d, e);
  }

  lemma SettlesInDimension(v: Vocabulary, wanted: set<string>, sourced: bool, labels: set<string>, d: string, l: string)
    requires d in DEFAULTED_DIMENSIONS && Settles(v, wanted, sourced, labels, d, l)
    ensures InDimension(l, d) && l in labels + wanted
  {
    assert d in DIMENSIONS;
    if Present(labels, d) == {} {
      PrefixIsInDimension(l, d);
    } else {
      assert l in Present(labels, d);
    }
  }

  lemma TrialIsManaged()
    ensures Lower(TRIAL_LABEL) == TRIAL_LABEL && Managed(TRIAL_LABEL)
  {
    assert forall i :: 0 <= i < |TRIAL_LABEL| ==> Lower(TRIAL_LABEL)[i] == TRIAL_LABEL[i];
  }

  lemma WantedIsManaged(wanted: set<string>, l: string)
    requires WantedShape(wanted) && l in wanted
    ensures Managed(l)
  {
    TrialIsManaged();
    if l != TRIAL_LABEL {
      var d :| d in DIMENSIONS && HasPrefix(l, d);
      PrefixIsInDimension(l, d);
    }
  }

  /** The merge leaves every unmanaged label, and nothing else that is unmanaged. */
  lemma MergeKeepsUnmanaged(v: Vocabulary, wanted: set<string>, sourced: bool, labels: set<string>, l: string)
    requires WantedShape(wanted) && !Managed(l)
    ensures l in MergedLabels(v, wanted, sourced, labels) <==> l in labels
  {
    if l in wanted { WantedIsManaged(wanted, l); }
  }

  /** In each source dimension the merge leaves exactly the draft's label, and the
      trial label exactly as the draft has it. */
  lemma MergeTakesSource(v: Vocabulary, wanted: set<string>, sourced: bool, labels: set<string>, d: string)
    requires WantedShape(wanted) && d in SOURCE_DIMENSIONS
    ensures Present(MergedLabels(v, wanted, sourced, labels), d) == Present(wanted, d)
    ensures TRIAL_LABEL in MergedLabels(v, wanted, sourced, labels) <==> TRIAL_LABEL in wanted
  {
    var merged := MergedLabels(v, wanted, sourced, labels);
    assert d in DIMENSIONS;
    forall l | l in Present(merged, d) ensures l in Present(wanted, d) {
      KeptInDimension(v, wanted, sourced, labels, d, l);
    }
    forall l | l in Present(wanted, d) ensures l in Present(merged, d) {
      OneDimension(l, d, d);
      var e :| e in DIMENSIONS && HasPrefix(l, e);
      PrefixIsInDimension(l, e);
      OneDimension(l, d, e);
      assert FromSource(l) && Kept(v, wanted, sourced, labels, l);
    }
    TrialIsManaged();
    if TRIAL_LABEL in merged && TRIAL_LABEL !in wanted {
      var e :| e in DEFAULTED_DIMENSIONS && Settles(v, wanted, sourced, labels, e, TRIAL_LABEL);
      SettlesInDimension(v, wanted, sourced, labels, e, TRIAL_LABEL);
      OneDimension(TRIAL_LABEL, e, e);
    }
    assert TRIAL_LABEL in wanted ==> Kept(v, wanted, sourced, labels, TRIAL_LABEL);
  }

  /** Without a clash the merge leaves exactly one label in each defaulted dimension: the one that settles it. */
  lemma MergeSettlesDefaulted(v: Vocabulary, wanted: set<string>, sourced: bool, labels: set<string>, d: string)
    returns (l: string)
    requires WantedShape(wanted) && d in DEFAULTED_DIMENSIONS && d !in LabelClashes(v, wanted, sourced, labels)
    ensures Settles(v, wanted, sourced, labels, d, l)
    ensures Present(MergedLabels(v, wanted, sourced, labels), d) == {l}
  {
    l :| l in labels + wanted && Settles(v, wanted, sourced, labels, d, l);
    SettlesInDimension(v, wanted, sourced, labels, d, l);
    assert d in DIMENSIONS;
    var merged := MergedLabels(v, wanted, sourced, labels);
    assert Kept(v, wanted, sourced, labels, l);
    forall x | x in Present(merged, d) ensures x == l {
      KeptInDimension(v, wanted, sourced, labels, d, x);
      if Present(labels, d) != {} {
        assert x in Present(labels, d);
      }
    }
  }

  /** A draft's defaulted labels are values the vocabulary knows. */
  ghost predicate KnownDefaults(v: Vocabulary, wanted: set<string>) {
    forall d, l :: d in DEFAULTED_DIMENSIONS && l in wanted && HasPrefix(l, d) ==> ValidLabel(v, l)
  }

  /** Merging again finds no clash and changes nothing. */
  lemma MergeIsIdempotent(v: Vocabulary, wanted: set<string>, sourced: bool, labels: set<string>)
    requires WantedShape(wanted) && KnownDefaults(v, wanted) && LabelClashes(v, wanted, sourced, labels) == {}
    ensures var merged := MergedLabels(v, wanted, sourced, labels);
            && LabelClashes(v, wanted, sourced, merged) == {}
            && MergedLabels(v, wanted, sourced, merged) == merged
  {
    var merged := MergedLabels(v, wanted, sourced, labels);
    forall d, l | d in DEFAULTED_DIMENSIONS && l in labels + wanted
      ensures Settles(v, wanted, sourced, merged, d, l) <==> Settles(v, wanted, sourced, labels, d, l)
    {
      var settled := MergeSettlesDefaulted(v, wanted, sourced, labels, d);
      assert d in DIMENSIONS;
      if l == settled {
        assert ValidLabel(v, l);
      } else {
        assert l !in Present(merged, d);
        if Settles(v, wanted, sourced, labels, d, l) {
          SettlesInDimension(v, wanted, sourced, labels, d, l);
          assert Kept(v, wanted, sourced, labels, l);
        }
      }
    }
    forall d | d in DEFAULTED_DIMENSIONS ensures d !in LabelClashes(v, wanted, sourced, merged) {
      var settled := MergeSettlesDefaulted(v, wanted, sourced, labels, d);
      SettlesInDimension(v, wanted, sourced, labels, d, settled);
      assert settled in merged by { assert settled in Present(merged, d); }
    }
    forall l | l in labels + wanted + merged
      ensures l in MergedLabels(v, wanted, sourced, merged) <==> l in merged
    {
      if !Managed(l) { MergeKeepsUnmanaged(v, wanted, sourced, labels, l); }
    }
  }

  ghost predicate Unsettled(v: Vocabulary, wanted: set<string>, sourced: bool, labels: set<string>, d: string) {
    forall l :: !Settles(v, wanted, sourced, labels, d, l)
  }

  /** One defaulted dimension of `merged_labels`: the one label that settles it, or `None` for a conflict. */
  method SettleDimension(v: Vocabulary, wanted: set<string>, sourced: bool, labels: set<string>, d: string)
    returns (r: Option<string>)
    requires WantedShape(wanted) && d in DEFAULTED_DIMENSIONS
    ensures r.Some? ==> forall l :: Settles(v, wanted, sourced, labels, d, l) <==> l == r.value
    ensures r.None? <==> Unsettled(v, wanted, sourced, labels, d)
  {
    assert d in DIMENSIONS;
    var want :| want in wanted && HasPrefix(want, d);
    var present := Present(labels, d);
    if present == {} {
      assert Settles(v, wanted, sourced, labels, d, want);
      return Some(want);
    }
    var found :| found in present;
    if |present| > 1 {
      return None;
    }
    OnlyMember(present, found);
    if !ValidLabel(v, found) || (d == "priority" && sourced && found != want) {
      return None;
    }
    assert Settles(v, wanted, sourced, labels, d, found);
    return Some(found);
  }

  /** `merged_labels`: unmanaged labels, then the draft's source labels, then one label per defaulted dimension. */
  method MergeLabels(v: Vocabulary, wanted: set<string>, sourced: bool, labels: set<string>)
    returns (merged: set<string>, clashes: set<string>)
    requires WantedShape(wanted)
    ensures merged == MergedLabels(v, wanted, sourced, labels)
    ensures clashes == LabelClashes(v, wanted, sourced, labels)
  {
    merged := (set l | l in labels && !Managed(l)) + (set l | l in wanted && FromSource(l));
    ghost var start := merged;
    clashes := {};
    for i := 0 to |DEFAULTED_DIMENSIONS|
      invariant forall l ::
                  l in merged <==>
                    l in start
                    || exists d :: d in DEFAULTED_DIMENSIONS[..i] && Settles(v, wanted, sourced, labels, d, l)
      invariant forall d :: d in clashes <==> d in DEFAULTED_DIMENSIONS[..i] && Unsettled(v, wanted, sourced, labels, d)
    {
      var d := DEFAULTED_DIMENSIONS[i];
      assert forall e :: e in DEFAULTED_DIMENSIONS[..i + 1] <==> e in DEFAULTED_DIMENSIONS[..i] || e == d;
      var settled := SettleDimension(v, wanted, sourced, labels, d);
      match settled {
        case Some(l) => merged := merged + {l};
        case None => clashes := clashes + {d};
      }
    }
    assert DEFAULTED_DIMENSIONS[..|DEFAULTED_DIMENSIONS|] == DEFAULTED_DIMENSIONS;
    forall d, l | d in DEFAULTED_DIMENSIONS && Settles(v, wanted, sourced, labels, d, l) ensures l in labels + wanted {
      SettlesInDimension(v, wanted, sourced, labels, d, l);
    }
  }

  lemma OnlyMember<T>(s: set<T>, x: T)
    requires x in s && |s| <= 1
    ensures s == {x}
  {
    assert s == {x} + (s - {x});
  }
}
