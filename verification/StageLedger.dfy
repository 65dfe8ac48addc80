/** The custody contract's stage ledger: chains of superseding records, and the ordinals of those that stand. */
module StageLedger {
  import opened Common
  import opened Chains

  const AMENDMENT := "5BB327D88761AE329869B90866839D03F61EFF6AF0E5AE47F8D3D7551F849A4D"
  const ORIGIN := "origin-a-3"
  const MAX_ORDINAL := 3

  const SUPPORTED_REASONS: set<string> := {
    "invalid_probe_relay_capture_tooling_failure", "invalid_probe_origin_attempt_original_mismatch",
    "invalid_probe_attempt_supersession_chain", "invalid_probe_stage_accounting",
        "invalid_probe_retry_budget_exhausted",
    "invalid_probe_fixture_identity_mismatch", "invalid_probe_execution_identity_mismatch",
        "invalid_probe_jsonc_settings_safety",
    "blocked_probe_same_session_prompt_retry_unavailable", "blocked_probe_gateway_usage_cost_unavailable",
    "invalid_probe_retry_ledger_unavailable", "invalid_probe_retry_proof_unavailable",
    "invalid_probe_retry_process_identity_mismatch", "invalid_probe_retry_connection_identity_mismatch",
    "invalid_probe_retry_acp_session_identity_mismatch", "invalid_probe_retry_control_channel_failure",
    "invalid_probe_retry_second_prompt_failure", "AMBIGUOUS_WORKSPACE_REFERENCE", "REQUIRED_WORKSPACE_FILE_TOO_LARGE",
    "stop_probe_zed_client_crashed", "gateway_timeout", "transient_capture"
  }

  datatype Stage = Correlation | Prompt
  datatype Status = NotStarted | Succeeded | Failed | Superseded
  datatype FailureClass = NoFailure | Transient | Permanent

  datatype Attempt = Attempt(id: string, runId: string, stage: Stage, ordinal: int, status: Status,
                             failure: FailureClass,
                             reason: Option<string>, evidence: seq<string>, supersedes: Option<string>,
                             supersedesSha: Option<string>, amendment: string, created: string)

  /** The digest of a record's canonical form; nothing is assumed of it. */
  type RecordSha = Attempt -> string

  function AttemptId(a: Attempt): string {
    a.id
  }

  function ById(records: seq<Attempt>): map<string, Attempt> {
    KeyedBy(records, AttemptId)
  }

  predicate Sha64(s: string) {
    |s| == 64 && forall i :: 0 <= i < |s| ==> '0' <= s[i] <= '9' || 'a' <= s[i] <= 'f'
  }

  // ---- supersession chains ----

  /** A link carries the digest of the record it supersedes, when that record is present; an absent one is tolerated. */
  predicate LinkSound(sha: RecordSha, byId: map<string, Attempt>, a: Attempt) {
    && HexEqual(a.amendment, AMENDMENT)
    && if a.supersedes.None? then a.supersedesSha.None?
       else
         && a.supersedesSha.Some? && Sha64(Lower(a.supersedesSha.value))
         && (a.reason.Some? ==> a.reason.value in SUPPORTED_REASONS)
         && (a.supersedes.value in byId ==> HexEqual(sha(byId[a.supersedes.value]), a.supersedesSha.value))
  }

  /** No two records supersede the same one, present or absent. */
  predicate NoForks(records: seq<Attempt>) {
    forall a, b :: a in records && b in records && a.supersedes.Some? && a.supersedes == b.supersedes ==> a == b
  }

  /** The supersession links between present records. */
  function Links(byId: map<string, Attempt>): map<string, string> {
    map id | id in byId && byId[id].supersedes.Some? && byId[id].supersedes.value in byId :: byId[id].supersedes.value
  }

  ghost predicate ChainSound(sha: RecordSha, records: seq<Attempt>) {
    && DistinctKeys(records, AttemptId)
    && (forall a :: a in records ==> LinkSound(sha, ById(records), a))
    && NoForks(records)
    && Acyclic(Links(ById(records)))
  }

  method IndexRecords(records: seq<Attempt>) returns (byId: Option<map<string, Attempt>>)
    ensures byId == if DistinctKeys(records, AttemptId) then Some(ById(records)) else None
  {
    var found: map<string, Attempt> := map[];
    for i := 0 to |records|
      invariant DistinctKeys(records[..i], AttemptId) && found == ById(records[..i])
    {
      assert records[..i + 1] == records[..i] + [records[i]];
      DistinctKeysExtend(records[..i], records[i], AttemptId);
      if records[i].id in found {
        KeyRepeats(records, i, AttemptId);
        return None;
      }
      found := found[records[i].id := records[i]];
    }
    assert records[..|records|] == records;
    return Some(found);
  }

  /** The children of each superseded record, as they are met. */
  function Children(records: seq<Attempt>): map<string, seq<string>> {
    if records == [] then map[]
    else
      var front, last := Children(records[..|records| - 1]), records[|records| - 1];
      if last.supersedes.None? then front
      else
        var parent := last.supersedes.value;
        front[parent := (if parent in front then front[parent] else []) + [last.id]]
  }

  predicate Single(children: map<string, seq<string>>) {
    forall p :: p in children ==> |children[p]| == 1
  }

  lemma {:induction false} ChildrenMember(records: seq<Attempt>, p: string)
    ensures p in Children(records) <==> exists a :: a in records && a.supersedes == Some(p)
    ensures p in Children(records) ==> |Children(records)[p]| >= 1
  {
    if records != [] {
      var front, last := records[..|records| - 1], records[|records| - 1];
      ChildrenMember(front, p);
      assert forall a :: a in records <==> a in front || a == last;
    }
  }

  /** One more record keeps every parent single exactly when its own parent had no child yet. */
  lemma SingleExtends(front: seq<Attempt>, last: Attempt)
    ensures Single(Children(front + [last])) <==>
              Single(Children(front)) && (last.supersedes.Some? ==> last.supersedes.value !in Children(front))
  {
    var all, before := Children(front + [last]), Children(front);
    assert (front + [last])[..|front|] == front;
    if last.supersedes.Some? {
      var p := last.supersedes.value;
      ChildrenMember(front, p);
      assert p in before ==> |all[p]| >= 2;
      assert forall q :: q in before && q != p ==> q in all && all[q] == before[q];
    }
  }

  lemma NoForksExtends(front: seq<Attempt>, last: Attempt)
    requires last !in front
    ensures NoForks(front + [last]) <==>
              NoForks(front) && (last.supersedes.Some? ==> last.supersedes.value !in Children(front))
  {
    var all := front + [last];
    assert forall a :: a in all <==> a in front || a == last;
    if last.supersedes.Some? { ChildrenMember(front, last.supersedes.value); }
  }

  /** Every superseded record having one child each means no forks. */
  lemma {:induction false} SingleIffNoForks(records: seq<Attempt>)
    requires DistinctKeys(records, AttemptId)
    ensures Single(Children(records)) <==> NoForks(records)
  {
    if records != [] {
      var front, last := records[..|records| - 1], records[|records| - 1];
      SingleIffNoForks(front);
      assert records == front + [last];
      forall i | 0 <= i < |front| ensures front[i] != last {
        assert AttemptId(records[i]) != AttemptId(records[|front|]);
      }
      SingleExtends(front, last);
      NoForksExtends(front, last);
    }
  }

  /** Walks one record's links until they run out or a record is met again. */
  method Repeats(byId: map<string, Attempt>, start: string) returns (repeats: bool)
    requires start in byId
    ensures repeats ==> !Acyclic(Links(byId))
    ensures OnCycle(Links(byId), start) ==> repeats
  {
    ghost var links := Links(byId);
    var seen, current := [start], start;
    while byId[current].supersedes.Some? && byId[current].supersedes.value in byId
      invariant current in byId && |seen| >= 1 && current == seen[|seen| - 1]
      invariant Distinct(seen) && forall x :: x in seen ==> x in byId
      invariant forall i: nat :: i < |seen| ==> Walk(links, start, i) == Some(seen[i])
      decreases |byId| - |seen|
    {
      var next := byId[current].supersedes.value;
      assert Walk(links, start, |seen|) == Some(next) by { assert Walk(links, start, |seen| - 1) == Some(current); }
      if next in seen {
        var i: nat :| i < |seen| && seen[i] == next;
        MetAgainIsCycle(links, start, i, |seen|);
        return true;
      }
      DistinctFits(seen, byId.Keys);
      seen := seen + [next];
      current := next;
      DistinctFits(seen, byId.Keys);
    }
    assert Walk(links, start, |seen| - 1) == Some(current);
    EndedIsNoCycle(links, start, |seen| - 1);
    return false;
  }

  /** `verify_supersession_chain` accepts exactly the records whose present links form sound disjoint chains. */
  method VerifyChain(sha: RecordSha, records: seq<Attempt>) returns (accepted: bool)
    ensures accepted <==> ChainSound(sha, records)
  {
    var indexed := IndexRecords(records);
    if indexed.None? { return false; }
    var byId := indexed.value;
    var children: map<string, seq<string>> := map[];
    for i := 0 to |records|
      invariant children == Children(records[..i])
      invariant forall j :: 0 <= j < i ==> LinkSound(sha, byId, records[j])
    {
      var a := records[i];
      assert records[..i + 1][..i] == records[..i] && a in records;
      if !LinkSound(sha, byId, a) { return false; }
      if a.supersedes.Some? {
        var p := a.supersedes.value;
        children := children[p := (if p in children then children[p] else []) + [a.id]];
      }
    }
    assert records[..|records|] == records;
    SingleIffNoForks(records);
    if exists p :: p in children && |children[p]| > 1 { return false; }
    forall p | p in children ensures |children[p]| == 1 { ChildrenMember(records, p); }
    var todo := byId.Keys;
    while todo != {}
      invariant todo <= byId.Keys && forall id :: id in byId.Keys - todo ==> !OnCycle(Links(byId), id)
      decreases todo
    {
      var start :| start in todo;
      var repeats := Repeats(byId, start);
      if repeats { return false; }
      todo := todo - {start};
    }
    forall id ensures !OnCycle(Links(byId), id) {
      if OnCycle(Links(byId), id) {
        var n: nat :| n >= 1 && Walk(Links(byId), id, n) == Some(id);
        WalkDefined(Links(byId), id, 0, n);
      }
    }
    return true;
  }

  // ---- terminals and ordinals ----

  predicate SupersededIn(records: seq<Attempt>, id: string) {
    exists a :: a in records && a.supersedes == Some(id)
  }

  predicate IsTerminal(records: seq<Attempt>, a: Attempt) {
    !SupersededIn(records, a.id) && (a.status.Succeeded? || a.status.Failed?)
  }

  function Terms(records: seq<Attempt>): set<Attempt> {
    set a | a in records && IsTerminal(records, a)
  }

  function Ordinals(terms: set<Attempt>, stage: Stage): set<int> {
    set a | a in terms && a.stage == stage :: a.ordinal
  }

  function Range(k: int): (r: set<int>)
    ensures forall o :: o in r <==> 1 <= o <= k
    decreases if k < 1 then 0 else k
  {
    if k < 1 then {} else Range(k - 1) + {k}
  }

  predicate OneEach(terms: set<Attempt>) {
    forall a, b :: a in terms && b in terms && a.stage == b.stage && a.ordinal == b.ordinal ==> a == b
  }

  predicate OriginSound(a: Attempt) {
    a.runId == ORIGIN && a.stage == Correlation ==> a.ordinal == 3
  }

  /** The ordinals of a stage are exactly 1 to `k`, within the amendment's budget. */
  predicate Counted(terms: set<Attempt>, stage: Stage, k: nat) {
    k <= MAX_ORDINAL && Ordinals(terms, stage) == Range(k)
  }

  ghost predicate StageSound(terms: set<Attempt>, stage: Stage) {
    exists k: nat :: Counted(terms, stage, k)
  }

  ghost predicate AccountingSound(terms: set<Attempt>) {
    && OneEach(terms) && (forall a :: a in terms ==> OriginSound(a))
    && StageSound(terms, Correlation) && StageSound(terms, Prompt)
  }

  ghost predicate Accepted(sha: RecordSha, records: seq<Attempt>) {
    ChainSound(sha, records) && AccountingSound(Terms(records))
  }

  datatype Ledger = Ledger(records: seq<Attempt>, nextCorrelation: nat, nextPrompt: nat)

  predicate Before(a: Attempt, b: Attempt) {
    if a.stage == b.stage then a.ordinal < b.ordinal else a.stage.Correlation?
  }

  predicate Ordered(s: seq<Attempt>) {
    forall i, j :: 0 <= i < j < |s| ==> Before(s[i], s[j])
  }

  function Elements(s: seq<Attempt>): set<Attempt> {
    set a | a in s
  }

  /** The terminals in order, and for each stage the ordinal after those used. */
  ghost predicate IsLedger(l: Ledger, terms: set<Attempt>) {
    && Ordered(l.records) && Elements(l.records) == terms
    && l.nextCorrelation >= 1 && Counted(terms, Correlation, l.nextCorrelation - 1)
    && l.nextPrompt >= 1 && Counted(terms, Prompt, l.nextPrompt - 1)
  }

  method Terminals(records: seq<Attempt>) returns (terminals: seq<Attempt>)
    requires DistinctKeys(records, AttemptId)
    ensures Elements(terminals) == Terms(records) && DistinctKeys(terminals, AttemptId)
  {
    var superseded := set a | a in records && a.supersedes.Some?
                              && (exists b :: b in records && b.id == a.supersedes.value) ::
                        a.supersedes.value;
    terminals := [];
    ghost var places: seq<nat> := [];
    for i := 0 to |records|
      invariant forall a :: a in terminals <==> a in records[..i] && IsTerminal(records, a)
      invariant |places| == |terminals|
      invariant forall p :: 0 <= p < |places| ==> places[p] < i && terminals[p] == records[places[p]]
      invariant forall p, q :: 0 <= p < q < |places| ==> places[p] < places[q]
    {
      var a := records[i];
      assert records[..i + 1] == records[..i] + [a];
      assert a.id in superseded <==> SupersededIn(records, a.id) by {
        if SupersededIn(records, a.id) {
          var b :| b in records && b.supersedes == Some(a.id);
          assert a in records && a.id == b.supersedes.value;
        }
      }
      if a.id in superseded || a.status == Superseded || a.status == NotStarted { continue; }
      terminals := terminals + [a];
      places := places + [i];
    }
    assert records[..|records|] == records;
  }

  function KeyOf(a: Attempt): (Stage, int) {
    (a.stage, a.ordinal)
  }

  lemma KeysIffOneEach(terminals: seq<Attempt>)
    requires DistinctKeys(terminals, AttemptId)
    ensures DistinctKeys(terminals, KeyOf) <==> OneEach(Elements(terminals))
  {
    if DistinctKeys(terminals, KeyOf) {
      forall a, b | a in Elements(terminals) && b in Elements(terminals) && a != b ensures KeyOf(a) != KeyOf(b) {
        var i :| 0 <= i < |terminals| && terminals[i] == a;
        var j :| 0 <= j < |terminals| && terminals[j] == b;
        assert KeyOf(terminals[if i < j then i else j]) != KeyOf(terminals[if i < j then j else i]);
      }
    } else {
      var i, j :| 0 <= i < j < |terminals| && KeyOf(terminals[i]) == KeyOf(terminals[j]);
      assert AttemptId(terminals[i]) != AttemptId(terminals[j]);
      assert terminals[i] in Elements(terminals) && terminals[j] in Elements(terminals);
    }
  }

  /** Whether each terminal has a positive ordinal of its own. */
  method KeyTerminals(terminals: seq<Attempt>) returns (ok: bool)
    ensures ok <==> DistinctKeys(terminals, KeyOf) && forall i :: 0 <= i < |terminals| ==> terminals[i].ordinal >= 1
  {
    var byKey: map<(Stage, int), Attempt> := map[];
    for i := 0 to |terminals|
      invariant DistinctKeys(terminals[..i], KeyOf) && byKey == KeyedBy(terminals[..i], KeyOf)
      invariant forall j :: 0 <= j < i ==> terminals[j].ordinal >= 1
    {
      if terminals[i].ordinal < 1 { return false; }
      if KeyOf(terminals[i]) in byKey {
        KeyRepeats(terminals, i, KeyOf);
        return false;
      }
      KeyJoins(terminals, i, KeyOf);
      byKey := byKey[KeyOf(terminals[i]) := terminals[i]];
    }
    assert terminals[..|terminals|] == terminals;
    return true;
  }

  /** The largest ordinal of a stage when its ordinals run from 1 without a gap and within budget. */
  method CountStage(terminals: seq<Attempt>, stage: Stage) returns (k: Option<nat>)
    requires forall a :: a in terminals ==> a.ordinal >= 1
    ensures k.Some? ==> Counted(Elements(terminals), stage, k.value)
    ensures k.None? ==> forall n: nat :: !Counted(Elements(terminals), stage, n)
  {
    ghost var all := Ordinals(Elements(terminals), stage);
    var ordinals, max := {}, 0;
    for i := 0 to |terminals|
      invariant ordinals == Ordinals(Elements(terminals[..i]), stage)
      invariant max >= 0 && (forall o :: o in ordinals ==> 1 <= o <= max) && (max == 0 || max in ordinals)
    {
      var a := terminals[i];
      assert terminals[..i + 1] == terminals[..i] + [a] && a in terminals;
      assert Elements(terminals[..i + 1]) == Elements(terminals[..i]) + {a};
      ElementJoins(Elements(terminals[..i]), a, stage);
      if a.stage == stage {
        ordinals := ordinals + {a.ordinal};
        if a.ordinal > max { max := a.ordinal; }
      }
    }
    assert terminals[..|terminals|] == terminals;
    forall n: nat | ordinals == Range(n) ensures n == max {
      assert n >= 1 ==> n in Range(n);
    }
    if max > MAX_ORDINAL { return None; }
    for o := 1 to max + 1
      invariant forall q :: 1 <= q < o ==> q in ordinals
    {
      if o !in ordinals {
        assert o in Range(max);
        return None;
      }
    }
    assert ordinals == Range(max);
    return Some(max);
  }

  lemma ElementJoins(terms: set<Attempt>, a: Attempt, stage: Stage)
    ensures Ordinals(terms + {a}, stage) == Ordinals(terms, stage) + if a.stage == stage then {a.ordinal} else {}
  {
  }

  function Insert(s: seq<Attempt>, a: Attempt): seq<Attempt> {
    if s == [] || !Before(a, s[|s| - 1]) then s + [a] else Insert(s[..|s| - 1], a) + [s[|s| - 1]]
  }

  lemma {:induction false} InsertSorts(s: seq<Attempt>, a: Attempt)
    requires Ordered(s) && forall b :: b in s ==> a.stage != b.stage || a.ordinal != b.ordinal
    ensures Ordered(Insert(s, a)) && forall b :: b in Insert(s, a) <==> b in s || b == a
  {
    if s != [] && Before(a, s[|s| - 1]) {
      var front, last := s[..|s| - 1], s[|s| - 1];
      InsertSorts(front, a);
      assert s == front + [last];
      forall b | b in Insert(front, a) ensures Before(b, last) {
        if b in front { var i :| 0 <= i < |front| && front[i] == b; }
      }
    } else if s != [] {
      forall i | 0 <= i < |s| ensures Before(s[i], a) {
        assert i < |s| - 1 ==> Before(s[i], s[|s| - 1]);
        assert s[|s| - 1] in s;
      }
    }
  }

  method SortTerminals(terminals: seq<Attempt>) returns (ordered: seq<Attempt>)
    requires DistinctKeys(terminals, AttemptId) && OneEach(Elements(terminals))
    ensures Ordered(ordered) && Elements(ordered) == Elements(terminals)
  {
    ordered := [];
    for i := 0 to |terminals|
      invariant Ordered(ordered) && forall a :: a in ordered <==> a in terminals[..i]
    {
      var a := terminals[i];
      assert terminals[..i + 1] == terminals[..i] + [a];
      forall b | b in ordered ensures a.stage != b.stage || a.ordinal != b.ordinal {
        var j :| 0 <= j < i && terminals[j] == b;
        assert AttemptId(terminals[j]) != AttemptId(terminals[i]);
        assert a in Elements(terminals) && b in Elements(terminals);
      }
      InsertSorts(ordered, a);
      ordered := Insert(ordered, a);
    }
    assert terminals[..|terminals|] == terminals;
  }

  /** `normalize_stage_ledger` accepts exactly the sound records and returns their ledger. */
  method NormalizeLedger(sha: RecordSha, records: seq<Attempt>) returns (ledger: Option<Ledger>)
    ensures ledger.Some? <==> Accepted(sha, records)
    ensures ledger.Some? ==> IsLedger(ledger.value, Terms(records))
  {
    var sound := VerifyChain(sha, records);
    if !sound { return None; }
    var terminals := Terminals(records);
    var keyed := KeyTerminals(terminals);
    KeysIffOneEach(terminals);
    if !keyed {
      assert forall i :: 0 <= i < |terminals| ==> terminals[i] in Terms(records);
      NotKeyed(Terms(records));
      return None;
    }
    var correlation := CountStage(terminals, Correlation);
    var prompt := CountStage(terminals, Prompt);
    if correlation.None? || prompt.None? {
      assert !StageSound(Terms(records), Correlation) || !StageSound(Terms(records), Prompt);
      return None;
    }
    for i := 0 to |terminals|
      invariant forall j :: 0 <= j < i ==> OriginSound(terminals[j])
    {
      if !OriginSound(terminals[i]) {
        assert terminals[i] in Terms(records);
        return None;
      }
    }
    forall a | a in Terms(records) ensures OriginSound(a) {
      assert a in Elements(terminals);
    }
    assert Counted(Terms(records), Correlation, correlation.value) && Counted(Terms(records), Prompt, prompt.value);
    var ordered := SortTerminals(terminals);
    return Some(Ledger(ordered, correlation.value + 1, prompt.value + 1));
  }

  lemma NotKeyed(terms: set<Attempt>)
    requires !OneEach(terms) || exists a :: a in terms && a.ordinal < 1
    ensures !AccountingSound(terms)
  {
    if a :| a in terms && a.ordinal < 1 {
      assert a.ordinal in Ordinals(terms, a.stage);
      assert !StageSound(terms, a.stage);
    }
  }
}
