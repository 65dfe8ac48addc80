/** What an accepted stage ledger means, and when it still grants a third prompt. */
module RetryLedger {
  import opened Common
  import opened Chains
  import opened StageLedger

  // ---- chains ----

  lemma ByIdFinds(records: seq<Attempt>, a: Attempt)
    requires DistinctKeys(records, AttemptId)
    ensures a in records ==> a.id in ById(records) && ById(records)[a.id] == a
    ensures forall id :: id in ById(records) ==> ById(records)[id] in records && ById(records)[id].id == id
  {
    KeyedByFinds(records, AttemptId);
    assert a in records ==> AttemptId(a) in ById(records);
    forall id | id in ById(records) ensures ById(records)[id].id == id {
      assert AttemptId(ById(records)[id]) == id;
    }
  }

  lemma ChainsNeverMeet(sha: RecordSha, records: seq<Attempt>)
    requires ChainSound(sha, records)
    ensures NeverMeet(Links(ById(records)))
  {
    var byId := ById(records);
    forall a, b | a in Links(byId) && b in Links(byId) && Links(byId)[a] == Links(byId)[b] ensures a == b {
      ByIdFinds(records, byId[a]);
      assert byId[a] in records && byId[b] in records && byId[a].supersedes == byId[b].supersedes;
    }
  }

  /** A terminal is the head of its chain: nothing present supersedes it. */
  lemma TerminalIsHead(sha: RecordSha, records: seq<Attempt>, t: Attempt)
    requires ChainSound(sha, records) && t in Terms(records)
    ensures Head(Links(ById(records)), t.id)
  {
    var byId := ById(records);
    forall a | a in Links(byId) ensures Links(byId)[a] != t.id {
      ByIdFinds(records, byId[a]);
      assert byId[a] in records;
    }
  }

  /** The links between present records are disjoint acyclic chains: every record lies below exactly one unsuperseded
      head, and a terminal above it can only be that head. */
  lemma OneHeadPerChain(sha: RecordSha, records: seq<Attempt>, id: string) returns (head: string)
    requires ChainSound(sha, records)
    ensures var links := Links(ById(records));
            && Head(links, head) && Leads(links, head, id)
            && (forall h :: Head(links, h) && Leads(links, h, id) ==> h == head)
            && (forall t :: t in Terms(records) && Leads(links, t.id, id) ==> t.id == head)
  {
    var links := Links(ById(records));
    ChainsNeverMeet(sha, records);
    head := HeadExists(links, id);
    forall h | Head(links, h) && Leads(links, h, id) ensures h == head { OneHead(links, h, head, id); }
    forall t | t in Terms(records) && Leads(links, t.id, id) ensures t.id == head { TerminalIsHead(sha, records, t); }
  }

  // ---- order of the input ----

  /** The same keys stay different when the records are permuted. */
  lemma DistinctKeysPermute(a: seq<Attempt>, b: seq<Attempt>)
    requires multiset(a) == multiset(b) && DistinctKeys(a, AttemptId)
    ensures DistinctKeys(b, AttemptId)
  {
    forall i, j | 0 <= i < j < |b| ensures AttemptId(b[i]) != AttemptId(b[j]) {
      var x, y := b[i], b[j];
      AtMostOnce(a, x);
      if x == y {
        Twice(b, i, j);
      } else {
        assert x in multiset(b) && y in multiset(b);
        var p :| 0 <= p < |a| && a[p] == x;
        var q :| 0 <= q < |a| && a[q] == y;
        assert AttemptId(a[if p < q then p else q]) != AttemptId(a[if p < q then q else p]);
      }
    }
  }

  lemma Twice(s: seq<Attempt>, i: nat, j: nat)
    requires i < j < |s| && s[i] == s[j]
    ensures multiset(s)[s[i]] >= 2
  {
    assert s == s[..j] + [s[j]] + s[j + 1..];
    assert s[i] in s[..j];
  }

  lemma TwoPlaces(s: seq<Attempt>, x: Attempt) returns (i: nat, j: nat)
    requires multiset(s)[x] >= 2
    ensures i < j < |s| && s[i] == x && s[j] == x
  {
    i :| 0 <= i < |s| && s[i] == x;
    assert s == s[..i] + [x] + s[i + 1..];
    var rest := s[..i] + s[i + 1..];
    assert multiset(rest)[x] >= 1;
    var k :| 0 <= k < |rest| && rest[k] == x;
    j := if k < i then k else k + 1;
    if j < i { i, j := j, i; }
  }

  lemma AtMostOnce(s: seq<Attempt>, x: Attempt)
    requires DistinctKeys(s, AttemptId)
    ensures multiset(s)[x] <= 1
  {
    if multiset(s)[x] >= 2 {
      var i, j := TwoPlaces(s, x);
      assert false;
    }
  }

  lemma ByIdPermutes(a: seq<Attempt>, b: seq<Attempt>)
    requires multiset(a) == multiset(b) && DistinctKeys(a, AttemptId) && DistinctKeys(b, AttemptId)
    ensures ById(a) == ById(b)
  {
    SameMembers(a, b);
    forall id ensures id in ById(a) <==> id in ById(b) {
      if id in ById(a) { ByIdFinds(a, ById(a)[id]); ByIdFinds(b, ById(a)[id]); }
      if id in ById(b) { ByIdFinds(b, ById(b)[id]); ByIdFinds(a, ById(b)[id]); }
    }
    forall id | id in ById(a) ensures ById(a)[id] == ById(b)[id] {
      ByIdFinds(a, ById(a)[id]);
      ByIdFinds(b, ById(a)[id]);
    }
  }

  lemma SameMembers(a: seq<Attempt>, b: seq<Attempt>)
    requires multiset(a) == multiset(b)
    ensures forall x :: x in a <==> x in b
  {
    forall x ensures x in a <==> x in b {
      assert x in a <==> x in multiset(a);
      assert x in b <==> x in multiset(b);
    }
  }

  lemma ChainPermutes(sha: RecordSha, a: seq<Attempt>, b: seq<Attempt>)
    requires multiset(a) == multiset(b) && ChainSound(sha, a)
    ensures ChainSound(sha, b)
  {
    DistinctKeysPermute(a, b);
    ByIdPermutes(a, b);
    SameMembers(a, b);
  }

  lemma TermsPermute(a: seq<Attempt>, b: seq<Attempt>)
    requires multiset(a) == multiset(b)
    ensures Terms(a) == Terms(b)
  {
    SameMembers(a, b);
    forall x: Attempt ensures SupersededIn(a, x.id) <==> SupersededIn(b, x.id) {}
  }

  /** Two ordered listings of the same terminals are the same listing. */
  lemma {:induction false} OrderedIsUnique(s: seq<Attempt>, t: seq<Attempt>)
    requires Ordered(s) && Ordered(t) && Elements(s) == Elements(t)
    ensures s == t
  {
    NoElements(s);
    NoElements(t);
    if s != [] && t != [] {
      var x, y := s[|s| - 1], t[|t| - 1];
      assert x in Elements(s) && y in Elements(t);
      var i :| 0 <= i < |t| && t[i] == x;
      var j :| 0 <= j < |s| && s[j] == y;
      assert i < |t| - 1 ==> Before(x, y);
      assert j < |s| - 1 ==> Before(y, x);
      assert x == y;
      FrontElements(s);
      FrontElements(t);
      OrderedIsUnique(s[..|s| - 1], t[..|t| - 1]);
    }
  }

  lemma NoElements(s: seq<Attempt>)
    ensures Elements(s) == {} <==> s == []
  {
    if s != [] { assert s[0] in Elements(s); }
  }

  lemma FrontElements(s: seq<Attempt>)
    requires s != [] && Ordered(s)
    ensures Elements(s[..|s| - 1]) == Elements(s) - {s[|s| - 1]}
  {
    var front, last := s[..|s| - 1], s[|s| - 1];
    forall i | 0 <= i < |front| ensures front[i] != last { assert Before(s[i], s[|s| - 1]); }
    assert s == front + [last];
  }

  lemma CountsAgree(terms: set<Attempt>, stage: Stage, k: nat, n: nat)
    requires Counted(terms, stage, k) && Counted(terms, stage, n)
    ensures k == n
  {
    assert k >= 1 ==> k in Range(k);
    assert n >= 1 ==> n in Range(n);
  }

  /** The order in which the records are given changes neither acceptance nor the ledger. */
  lemma OrderIsIrrelevant(sha: RecordSha, a: seq<Attempt>, b: seq<Attempt>)
    requires multiset(a) == multiset(b)
    ensures Accepted(sha, a) <==> Accepted(sha, b)
    ensures forall l, m :: IsLedger(l, Terms(a)) && IsLedger(m, Terms(b)) ==> l == m
  {
    AcceptancePermutes(sha, a, b);
    forall l, m | IsLedger(l, Terms(a)) && IsLedger(m, Terms(b)) ensures l == m { OneLedger(a, b, l, m); }
  }

  lemma OneLedger(a: seq<Attempt>, b: seq<Attempt>, l: Ledger, m: Ledger)
    requires multiset(a) == multiset(b) && IsLedger(l, Terms(a)) && IsLedger(m, Terms(b))
    ensures l == m
  {
    TermsPermute(a, b);
    OrderedIsUnique(l.records, m.records);
    CountsAgree(Terms(a), Correlation, l.nextCorrelation - 1, m.nextCorrelation - 1);
    CountsAgree(Terms(a), Prompt, l.nextPrompt - 1, m.nextPrompt - 1);
  }

  lemma AcceptancePermutes(sha: RecordSha, a: seq<Attempt>, b: seq<Attempt>)
    requires multiset(a) == multiset(b)
    ensures Accepted(sha, a) <==> Accepted(sha, b)
  {
    TermsPermute(a, b);
    if ChainSound(sha, a) { ChainPermutes(sha, a, b); }
    if ChainSound(sha, b) { ChainPermutes(sha, b, a); }
  }

  /** In a ledger each stage's terminals have the ordinals 1 up to the next one,
      each exactly once, and at most three. */
  lemma LedgerOrdinals(l: Ledger, terms: set<Attempt>, stage: Stage, o: int)
    requires IsLedger(l, terms) && OneEach(terms)
    ensures var next := if stage.Correlation? then l.nextCorrelation else l.nextPrompt;
            && next <= MAX_ORDINAL + 1
            && ((exists t :: t in l.records && t.stage == stage && t.ordinal == o) <==> 1 <= o < next)
            && (forall s, t ::
                  s in l.records && t in l.records && s.stage == t.stage == stage && s.ordinal == t.ordinal == o ==>
                    s == t)
  {
    assert o in Ordinals(terms, stage) <==> exists t :: t in terms && t.stage == stage && t.ordinal == o;
    assert forall t :: t in l.records <==> t in terms by {
      forall t ensures t in l.records <==> t in terms { assert t in l.records <==> t in Elements(l.records); }
    }
  }

  // ---- the retry preflight ----

  datatype Identity = Identity(runId: string, pid: int, startTime: string, connection: string, session: string)
  datatype Proof = Proof(who: Identity, zedAlive: bool, relayAlive: bool, sessionObserved: bool, evidence: seq<string>,
                         digest: string)

  datatype Retry = Retry(runId: string, launch: Identity, fixture: string, expectedFixture: string,
                         target: string, expectedTarget: string, proof: Option<Proof>)

  datatype Preflight = Grant(ordinal: int) | Deny(reason: string)

  /** The part of a proof its digest covers: everything but the digest itself. */
  function Undigested(proof: Proof): Proof {
    proof.(digest := "")
  }

  /** Why a proof disagrees with the launch it should prove, or `None`. */
  function ProofProblem(proofSha: Proof -> string, proof: Proof, launch: Identity): Option<string> {
    if proof.evidence == [] || !HexEqual(proofSha(Undigested(proof)), proof.digest)
    then Some("invalid_probe_retry_proof_unavailable")
    else if || proof.who.runId != launch.runId
            || proof.who.pid != launch.pid
            || !proof.zedAlive
            || proof.who.startTime != launch.startTime
    then Some("invalid_probe_retry_process_identity_mismatch")
    else if !proof.relayAlive || proof.who.connection != launch.connection
    then Some("invalid_probe_retry_connection_identity_mismatch")
    else if !proof.sessionObserved || proof.who.session != launch.session
    then Some("invalid_probe_retry_acp_session_identity_mismatch")
    else None
  }

  /** The proof is intact and names the launched run, process, connection and session, all alive. */
  predicate ProofMatches(proofSha: Proof -> string, proof: Proof, launch: Identity) {
    && proof.evidence != [] && HexEqual(proofSha(Undigested(proof)), proof.digest)
    && proof.who == launch && proof.zedAlive && proof.relayAlive && proof.sessionObserved
  }

  predicate CorrelationThree(t: Attempt) {
    t.runId == ORIGIN && t.stage == Correlation && t.status == Succeeded && t.ordinal == 3
  }

  predicate PromptTwo(t: Attempt) {
    t.runId == ORIGIN && t.stage == Prompt && t.ordinal == 2 && t.status == Failed && t.failure == Transient
    && t.evidence != []
  }

  function Evaluate(proofSha: Proof -> string, q: Retry, l: Ledger): Preflight {
    if q.runId != ORIGIN || q.launch.runId != ORIGIN then Deny("invalid_probe_stage_accounting")
    else if l.nextCorrelation > MAX_ORDINAL + 1 then Deny("invalid_probe_retry_budget_exhausted")
    else if l.nextCorrelation != MAX_ORDINAL + 1 then Deny("invalid_probe_stage_accounting")
    else if !exists t :: t in l.records && CorrelationThree(t) then Deny("invalid_probe_stage_accounting")
    else if !exists t :: t in l.records && PromptTwo(t) then Deny("invalid_probe_stage_accounting")
    else if l.nextPrompt != 3 then Deny("invalid_probe_retry_budget_exhausted")
    else if !HexEqual(q.fixture, q.expectedFixture) || !HexEqual(q.target, q.expectedTarget)
    then Deny("invalid_probe_fixture_identity_mismatch")
    else if q.proof.None? then Deny("blocked_probe_same_session_prompt_retry_unavailable")
    else if q.proof.value.who.runId != ORIGIN then Deny("invalid_probe_stage_accounting")
    else match ProofProblem(proofSha, q.proof.value, q.launch)
      case Some(reason) => Deny(reason)
      case None => Grant(3)
  }

  /** Everything the preflight asks besides the ledger's ordinals. */
  predicate RequestSound(proofSha: Proof -> string, q: Retry) {
    && q.runId == ORIGIN && q.launch.runId == ORIGIN
    && HexEqual(q.fixture, q.expectedFixture) && HexEqual(q.target, q.expectedTarget)
    && q.proof.Some? && ProofMatches(proofSha, q.proof.value, q.launch)
  }

  ghost predicate PromptThreeSpent(terms: set<Attempt>) {
    exists t :: t in terms && t.stage == Prompt && t.ordinal == 3
  }

  lemma Present(l: Ledger, terms: set<Attempt>, t: Attempt)
    requires IsLedger(l, terms)
    ensures t in l.records <==> t in terms
  {
    assert t in l.records <==> t in Elements(l.records);
  }

  /** A granted retry takes the ledger's next prompt ordinal, with exactly three correlations and two prompts used. */
  lemma GrantIsNextOrdinal(proofSha: Proof -> string, q: Retry, l: Ledger, terms: set<Attempt>)
    requires IsLedger(l, terms) && Evaluate(proofSha, q, l).Grant?
    ensures Evaluate(proofSha, q, l) == Grant(l.nextPrompt) && l.nextPrompt == 3
    ensures Ordinals(terms, Correlation) == Range(3) && Ordinals(terms, Prompt) == Range(2)
    ensures RequestSound(proofSha, q) && !PromptThreeSpent(terms)
  {
    forall t | t in terms && t.stage == Prompt ensures t.ordinal != 3 {
      assert t.ordinal in Ordinals(terms, Prompt);
    }
  }

  /** Over a ledger with its third correlation succeeded and its second prompt failed transiently, a sound request is
      granted exactly when no prompt of ordinal 3 is terminal. */
  lemma GrantedIffThirdUnspent(proofSha: Proof -> string, q: Retry, l: Ledger, terms: set<Attempt>, c: Attempt,
                               p: Attempt)
    requires IsLedger(l, terms) && RequestSound(proofSha, q) && c in terms && CorrelationThree(c) && p in terms
             && PromptTwo(p)
    ensures Evaluate(proofSha, q, l).Grant? <==> !PromptThreeSpent(terms)
  {
    Present(l, terms, c);
    Present(l, terms, p);
    assert c.ordinal in Ordinals(terms, Correlation) && p.ordinal in Ordinals(terms, Prompt);
    if l.nextPrompt == 4 {
      assert 3 in Range(3) && 3 in Ordinals(terms, Prompt);
      var t :| t in terms && t.stage == Prompt && t.ordinal == 3;
    } else {
      forall t | t in terms && t.stage == Prompt ensures t.ordinal != 3 { assert t.ordinal in Ordinals(terms, Prompt); }
    }
  }

  /** After a terminal prompt of ordinal 3, no accepted extension that leaves it unsuperseded grants another retry. */
  lemma NoSecondRetry(sha: RecordSha, proofSha: Proof -> string, records: seq<Attempt>, third: Attempt, q: Retry,
                      l: Ledger)
    requires Accepted(sha, records) && IsLedger(l, Terms(records))
    requires third in records && third.stage == Prompt && third.ordinal == 3
             && (third.status == Succeeded || third.status == Failed)
    requires !SupersededIn(records, third.id)
    ensures Evaluate(proofSha, q, l).Deny?
  {
    assert third in Terms(records);
    if Evaluate(proofSha, q, l).Grant? {
      GrantIsNextOrdinal(proofSha, q, l, Terms(records));
      assert false;
    }
  }

  // ---- superseding the third prompt reopens the retry ----

  predicate Unmentioned(records: seq<Attempt>, id: string) {
    forall a :: a in records ==> a.id != id && a.supersedes != Some(id)
  }

  lemma ByIdExtends(records: seq<Attempt>, a: Attempt)
    requires DistinctKeys(records, AttemptId) && Unmentioned(records, a.id)
    ensures DistinctKeys(records + [a], AttemptId) && ById(records + [a]) == ById(records)[a.id := a]
            && a.id !in ById(records)
  {
    DistinctKeysExtend(records, a, AttemptId);
    ByIdFinds(records, a);
  }

  /** A new record that supersedes nothing, or the present record it names with the
      right digest, keeps the chains sound. */
  lemma ChainExtends(sha: RecordSha, records: seq<Attempt>, a: Attempt)
    requires ChainSound(sha, records) && Unmentioned(records, a.id) && a.supersedes != Some(a.id)
    requires LinkSound(sha, ById(records), a) && (a.supersedes.Some? ==> !SupersededIn(records, a.supersedes.value))
    ensures ChainSound(sha, records + [a])
  {
    var all, byId := records + [a], ById(records);
    ByIdExtends(records, a);
    assert forall b :: b in all <==> b in records || b == a;
    forall b | b in all ensures LinkSound(sha, ById(all), b) {
      if b in records { assert LinkSound(sha, byId, b); }
    }
    LinksExtend(records, a);
    if a.supersedes.Some? && a.supersedes.value in byId {
      forall x | x in Links(byId) ensures Links(byId)[x] != a.id { ByIdFinds(records, byId[x]); }
      AcyclicGrows(Links(byId), a.id, a.supersedes.value);
    }
  }

  lemma LinksExtend(records: seq<Attempt>, a: Attempt)
    requires DistinctKeys(records, AttemptId) && Unmentioned(records, a.id) && a.supersedes != Some(a.id)
    ensures var links := Links(ById(records));
            Links(ById(records + [a])) ==
              if a.supersedes.Some? && a.supersedes.value in ById(records)
              then links[a.id := a.supersedes.value]
              else links
  {
    ByIdExtends(records, a);
    var byId := ById(records);
    forall x | x in byId ensures byId[x].supersedes != Some(a.id) { ByIdFinds(records, byId[x]); }
  }

  lemma TermsGain(records: seq<Attempt>, a: Attempt)
    requires Unmentioned(records, a.id) && a.supersedes.None? && (a.status == Succeeded || a.status == Failed)
    ensures Terms(records + [a]) == Terms(records) + {a}
  {
    var all := records + [a];
    assert forall b :: b in all <==> b in records || b == a;
    forall id ensures SupersededIn(all, id) <==> SupersededIn(records, id) {}
  }

  lemma TermsLose(records: seq<Attempt>, a: Attempt, over: Attempt)
    requires DistinctKeys(records, AttemptId) && a in records && over.supersedes == Some(a.id)
             && over.status == Superseded
    ensures Terms(records + [over]) == Terms(records) - {a}
  {
    var all := records + [over];
    assert forall b :: b in all <==> b in records || b == over;
    forall id ensures SupersededIn(all, id) <==> SupersededIn(records, id) || id == a.id {}
    forall b | b in records && b.id == a.id ensures b == a { ByIdFinds(records, b); ByIdFinds(records, a); }
  }

  predicate SpendsThird(a: Attempt) {
    a.stage == Prompt && a.ordinal == 3 && (a.status == Succeeded || a.status == Failed)
  }

  lemma ThirdIsCounted(terms: set<Attempt>, third: Attempt)
    requires AccountingSound(terms) && Counted(terms, Correlation, 3) && Counted(terms, Prompt, 2) && SpendsThird(third)
    ensures AccountingSound(terms + {third})
  {
    var all := terms + {third};
    ElementJoins(terms, third, Prompt);
    ElementJoins(terms, third, Correlation);
    assert Range(3) == Range(2) + {3};
    assert Counted(all, Correlation, 3) && Counted(all, Prompt, 3);
    forall a | a in terms && a.stage == Prompt ensures a.ordinal != 3 { assert a.ordinal in Ordinals(terms, Prompt); }
  }

  lemma ThirdCloses(sha: RecordSha, records: seq<Attempt>, third: Attempt)
    requires Accepted(sha, records) && Counted(Terms(records), Correlation, 3) && Counted(Terms(records), Prompt, 2)
    requires Unmentioned(records, third.id) && SpendsThird(third) && third.supersedes.None?
             && LinkSound(sha, ById(records), third)
    ensures Accepted(sha, records + [third]) && third in Terms(records + [third])
            && Terms(records + [third]) - {third} == Terms(records)
  {
    ChainExtends(sha, records, third);
    TermsGain(records, third);
    ThirdIsCounted(Terms(records), third);
    assert third !in records;
  }

  lemma OverReopens(sha: RecordSha, records: seq<Attempt>, third: Attempt, over: Attempt)
    requires ChainSound(sha, records) && third in Terms(records)
    requires Unmentioned(records, over.id) && over.status == Superseded && over.supersedes == Some(third.id)
             && LinkSound(sha, ById(records), over)
    ensures ChainSound(sha, records + [over]) && Terms(records + [over]) == Terms(records) - {third}
  {
    ChainExtends(sha, records, over);
    TermsLose(records, third, over);
  }

  /** Whenever a retry is granted: recording its third prompt closes the budget, and superseding that record by one
      whose own status is `superseded` leaves an accepted ledger that grants the retry again. */
  lemma SupersedingReopens(sha: RecordSha, proofSha: Proof -> string, records: seq<Attempt>, l: Ledger, q: Retry,
                           third: Attempt, over: Attempt)
    requires Accepted(sha, records) && IsLedger(l, Terms(records)) && Evaluate(proofSha, q, l).Grant?
    requires Unmentioned(records, third.id) && SpendsThird(third) && third.supersedes.None?
             && LinkSound(sha, ById(records), third)
    requires Unmentioned(records + [third], over.id) && over.status == Superseded && over.supersedes == Some(third.id)
    requires LinkSound(sha, ById(records + [third]), over)
    ensures Accepted(sha, records + [third]) && third in Terms(records + [third])
    ensures Accepted(sha, records + [third] + [over]) && IsLedger(l, Terms(records + [third] + [over]))
  {
    assert Counted(Terms(records), Correlation, 3) && Counted(Terms(records), Prompt, 2) by {
      GrantIsNextOrdinal(proofSha, q, l, Terms(records));
    }
    ThirdCloses(sha, records, third);
    OverReopens(sha, records + [third], third, over);
  }

  // ---- a ledger that grants the retry ----

  function Plain(id: string, stage: Stage, ordinal: int, runId: string): Attempt {
    Attempt(id, runId, stage, ordinal,
            if stage == Prompt then Failed else Succeeded, if stage == Prompt then Transient else NoFailure,
            None, ["capture"], None, None, AMENDMENT, "")
  }

  predicate IsPlain(a: Attempt) {
    a == Plain(a.id, a.stage, a.ordinal, a.runId)
  }

  lemma PlainIsSound(sha: RecordSha, records: seq<Attempt>)
    requires DistinctKeys(records, AttemptId) && forall a :: a in records ==> IsPlain(a)
    ensures ChainSound(sha, records) && Terms(records) == Elements(records)
  {
    var links := Links(ById(records));
    forall id | id in ById(records) ensures id !in links {
      ByIdFinds(records, ById(records)[id]);
      assert IsPlain(ById(records)[id]);
    }
    forall k: string ensures !OnCycle(links, k) {
      if n: nat :| n >= 1 && Walk(links, k, n) == Some(k) {
        WalkDefined(links, k, 0, n);
        assert false;
      }
    }
  }

  lemma FiveAreCounted(a: Attempt, b: Attempt, c: Attempt, o: Attempt, p: Attempt)
    requires KeyOf(a) == (Correlation, 1) && KeyOf(b) == (Correlation, 2) && KeyOf(c) == (Correlation, 3)
             && KeyOf(o) == (Prompt, 1) && KeyOf(p) == (Prompt, 2)
    ensures Counted({a, b, c, o, p}, Correlation, 3) && Counted({a, b, c, o, p}, Prompt, 2) && OneEach({a, b, c, o, p})
  {
    var terms := {a, b, c, o, p};
    assert Ordinals(terms, Correlation) == {a.ordinal, b.ordinal, c.ordinal} == Range(3);
    assert Ordinals(terms, Prompt) == {o.ordinal, p.ordinal} == Range(2);
  }

  lemma FiveAreALedger(records: seq<Attempt>, terms: set<Attempt>)
    requires |records| == 5 && terms == Elements(records)
    requires KeyOf(records[0]) == (Correlation, 1) && KeyOf(records[1]) == (Correlation, 2)
             && KeyOf(records[2]) == (Correlation, 3)
    requires KeyOf(records[3]) == (Prompt, 1) && KeyOf(records[4]) == (Prompt, 2)
    ensures IsLedger(Ledger(records, 4, 3), terms) && OneEach(terms) && !PromptThreeSpent(terms)
  {
    assert terms == {records[0], records[1], records[2], records[3], records[4]};
    FiveAreCounted(records[0], records[1], records[2], records[3], records[4]);
    forall t | t in terms && t.stage == Prompt ensures t.ordinal != 3 { assert t.ordinal in Ordinals(terms, Prompt); }
  }

  lemma FiveDiffer(records: seq<Attempt>)
    requires |records| == 5 && records[0].id == "1" && records[1].id == "2" && records[2].id == "3"
             && records[3].id == "4" && records[4].id == "5"
    ensures DistinctKeys(records, AttemptId)
  {
    forall i | 0 <= i < |records|
      ensures AttemptId(records[i]) == ["1", "2", "3", "4", "5"][i] && AttemptId(records[i])[0] == "12345"[i]
    {
    }
  }

  lemma FiveAreAccepted(sha: RecordSha, records: seq<Attempt>)
    requires |records| == 5 && DistinctKeys(records, AttemptId)
    requires forall i :: 0 <= i < |records| ==> IsPlain(records[i]) && OriginSound(records[i])
    requires KeyOf(records[0]) == (Correlation, 1) && KeyOf(records[1]) == (Correlation, 2)
             && KeyOf(records[2]) == (Correlation, 3)
    requires KeyOf(records[3]) == (Prompt, 1) && KeyOf(records[4]) == (Prompt, 2)
    ensures Accepted(sha, records) && Terms(records) == Elements(records)
    ensures IsLedger(Ledger(records, 4, 3), Terms(records)) && !PromptThreeSpent(Terms(records))
  {
    PlainIsSound(sha, records);
    FiveAreALedger(records, Terms(records));
    assert Counted(Terms(records), Correlation, 3) && Counted(Terms(records), Prompt, 2);
  }

  /** Three correlations and two prompts, none superseding another: a ledger the preflight grants the retry on. */
  lemma FivePlainRecords(sha: RecordSha, records: seq<Attempt>)
    requires records ==
               [Plain("1", Correlation, 1, "a"), Plain("2", Correlation, 2, "b"), Plain("3", Correlation, 3, ORIGIN),
                         Plain("4", Prompt, 1, "b"), Plain("5", Prompt, 2, ORIGIN)]
    ensures Accepted(sha, records) && IsLedger(Ledger(records, 4, 3), Terms(records))
            && !PromptThreeSpent(Terms(records))
    ensures CorrelationThree(records[2]) && PromptTwo(records[4]) && records[2] in Terms(records)
            && records[4] in Terms(records)
  {
    FiveDiffer(records);
    assert |"a"| != |ORIGIN| && |"b"| != |ORIGIN|;
    FiveAreAccepted(sha, records);
  }

  // ---- a ledger whose retry is reopened ----

  /** The record that supersedes another, with its digest, and is itself no terminal. */
  function Over(id: string, a: Attempt, digest: string): Attempt {
    Attempt(id, a.runId, a.stage, a.ordinal, Superseded, NoFailure, None, [], Some(a.id), Some(digest), AMENDMENT, "")
  }

  /** A request whose proof names its own launch. */
  function Request(proofSha: Proof -> string): Retry {
    var launch := Identity(ORIGIN, 1, "t", "c", "s");
    var proof := Proof(launch, true, true, true, ["capture"], "");
    Retry(ORIGIN, launch, "f", "f", "t", "t", Some(proof.(digest := proofSha(proof))))
  }

  lemma RequestIsSound(proofSha: Proof -> string)
    ensures RequestSound(proofSha, Request(proofSha))
  {
    var proof := Request(proofSha).proof.value;
    assert Undigested(proof) == Proof(proof.who, true, true, true, ["capture"], "");
  }

  lemma IdsOfFive(records: seq<Attempt>, a: Attempt)
    requires |records| == 5 && records[0].id == "1" && records[1].id == "2" && records[2].id == "3"
             && records[3].id == "4" && records[4].id == "5"
    requires a in records
    ensures |a.id| == 1 && a.id[0] <= '5'
  {
  }

  lemma NewIds(records: seq<Attempt>, third: Attempt)
    requires EarlyIds(records)
    requires third.id == "6" && third.supersedes.None?
    ensures Unmentioned(records, "6") && Unmentioned(records + [third], "7")
  {
    assert "6"[0] == '6' && "7"[0] == '7';
    assert forall a :: a in records + [third] <==> a in records || a == third;
  }

  lemma OverIsSound(sha: RecordSha, records: seq<Attempt>, third: Attempt)
    requires DistinctKeys(records, AttemptId) && Unmentioned(records, third.id) && Sha64(Lower(sha(third)))
    ensures LinkSound(sha, ById(records + [third]), Over("7", third, sha(third)))
  {
    ByIdExtends(records, third);
  }

  /** The three ledgers of a retry that is granted, spent and reopened. */
  ghost predicate Reopened(sha: RecordSha, proofSha: Proof -> string, q: Retry, l: Ledger, before: seq<Attempt>,
                           spent: seq<Attempt>, after: seq<Attempt>) {
    && Accepted(sha, before) && IsLedger(l, Terms(before)) && Evaluate(proofSha, q, l) == Grant(3)
    && Accepted(sha, spent) && (forall m :: IsLedger(m, Terms(spent)) ==> Evaluate(proofSha, q, m).Deny?)
    && Accepted(sha, after) && IsLedger(l, Terms(after))
  }

  lemma GrantedIsReopened(sha: RecordSha, proofSha: Proof -> string, q: Retry, l: Ledger, records: seq<Attempt>,
                          third: Attempt)
    requires Accepted(sha, records) && IsLedger(l, Terms(records)) && Evaluate(proofSha, q, l).Grant?
    requires third == Plain("6", Prompt, 3, ORIGIN) && Sha64(Lower(sha(third))) && Unmentioned(records, "6")
             && Unmentioned(records + [third], "7")
    ensures Reopened(sha, proofSha, q, l, records, records + [third],
                     records + [third] + [Over("7", third, sha(third))])
  {
    OverIsSound(sha, records, third);
    SupersedingReopens(sha, proofSha, records, l, q, third, Over("7", third, sha(third)));
    forall m | IsLedger(m, Terms(records + [third])) ensures Evaluate(proofSha, q, m).Deny? {
      NoSecondRetry(sha, proofSha, records + [third], third, q, m);
    }
    GrantIsNextOrdinal(proofSha, q, l, Terms(records));
  }

  predicate EarlyIds(records: seq<Attempt>) {
    forall a :: a in records ==> |a.id| == 1 && a.id[0] <= '5' && a.supersedes.None?
  }

  lemma FiveIds(records: seq<Attempt>)
    requires records ==
               [Plain("1", Correlation, 1, "a"), Plain("2", Correlation, 2, "b"), Plain("3", Correlation, 3, ORIGIN),
                         Plain("4", Prompt, 1, "b"), Plain("5", Prompt, 2, ORIGIN)]
    ensures EarlyIds(records)
  {
    forall a | a in records ensures |a.id| == 1 && a.id[0] <= '5' && a.supersedes.None? { IdsOfFive(records, a); }
  }

  lemma FiveGrant(sha: RecordSha, proofSha: Proof -> string, records: seq<Attempt>)
    requires records ==
               [Plain("1", Correlation, 1, "a"), Plain("2", Correlation, 2, "b"), Plain("3", Correlation, 3, ORIGIN),
                         Plain("4", Prompt, 1, "b"), Plain("5", Prompt, 2, ORIGIN)]
    ensures Accepted(sha, records) && IsLedger(Ledger(records, 4, 3), Terms(records))
    ensures Evaluate(proofSha, Request(proofSha), Ledger(records, 4, 3)).Grant?
  {
    FivePlainRecords(sha, records);
    RequestIsSound(proofSha);
    GrantedIffThirdUnspent(proofSha, Request(proofSha), Ledger(records, 4, 3), Terms(records), records[2], records[4]);
  }

  /** A concrete run of events, for every digest that is one: the retry is granted, its third prompt closes the budget,
      and superseding that record with one that is no terminal opens it again. */
  lemma RetryIsReopened(sha: RecordSha, proofSha: Proof -> string, records: seq<Attempt>, third: Attempt)
    requires records ==
               [Plain("1", Correlation, 1, "a"), Plain("2", Correlation, 2, "b"), Plain("3", Correlation, 3, ORIGIN),
                         Plain("4", Prompt, 1, "b"), Plain("5", Prompt, 2, ORIGIN)]
    requires third == Plain("6", Prompt, 3, ORIGIN) && Sha64(Lower(sha(third)))
    ensures Reopened(sha, proofSha, Request(proofSha), Ledger(records, 4, 3), records, records + [third],
                     records + [third] + [Over("7", third, sha(third))])
  {
    FiveGrant(sha, proofSha, records);
    FiveIds(records);
    NewIds(records, third);
    GrantedIsReopened(sha, proofSha, Request(proofSha), Ledger(records, 4, 3), records, third);
  }
}
