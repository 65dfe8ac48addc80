/** The spend-capped two-call qualification of a summarizer, for every behaviour of the host that makes the calls. */
module Qualification {
  import opened Common

  const MAX_FIXTURE_CALLS: nat := 2
  const MAX_ROUTE_ATTEMPTS := 2.0
  const MILLION := 1000000.0
  const SUMMARY_MAX_BYTES: nat := 8192

  datatype Candidate = Candidate(inputPrice: real, outputPrice: real, framing: nat)
  datatype Policy = Policy(candidate: Candidate, cap: real)

  /** What one attempt costs, at dollars per million tokens. */
  function AttemptCost(c: Candidate, input: nat, output: nat): real {
    (input as real * c.inputPrice + output as real * c.outputPrice) / MILLION
  }

  /** The reservation of a request: a token per prompt byte and the framing, the
      full output, every attempt of the route. */
  function Reservation(c: Candidate, promptBytes: nat, maxOutput: nat): real {
    AttemptCost(c, promptBytes + c.framing, maxOutput) * MAX_ROUTE_ATTEMPTS
  }

  // ---- what a host may do within one step ----

  datatype Action = Ask(promptBytes: nat, maxOutput: nat) | Note(cost: Option<real>)
  datatype Event = Sent(reservation: real) | Receipt(cost: Option<real>)

  datatype State = State(calls: nat, receipts: seq<Option<real>>, log: seq<Event>)

  const START := State(0, [], [])

  /** Every receipt's cost together; `None` once one is unknown. */
  function KnownSpend(receipts: seq<Option<real>>): Option<real> {
    if receipts == [] then Some(0.0)
    else
      var front, last := KnownSpend(receipts[..|receipts| - 1]), receipts[|receipts| - 1];
      if front.None? || last.None? then None else Some(front.value + last.value)
  }

  predicate Affordable(p: Policy, receipts: seq<Option<real>>, promptBytes: nat, maxOutput: nat) {
    var spent := KnownSpend(receipts);
    spent.Some? && spent.value + Reservation(p.candidate, promptBytes, maxOutput) <= p.cap
  }

  function Act(p: Policy, s: State, a: Action): State {
    match a
    case Note(cost) => s.(receipts := s.receipts + [cost], log := s.log + [Receipt(cost)])
    case Ask(promptBytes, maxOutput) =>
      if s.calls >= MAX_FIXTURE_CALLS || !Affordable(p, s.receipts, promptBytes, maxOutput) then s
      else s.(calls := s.calls + 1, log := s.log + [Sent(Reservation(p.candidate, promptBytes, maxOutput))])
  }

  function Acts(p: Policy, s: State, actions: seq<Action>): State {
    if actions == [] then s else Act(p, Acts(p, s, actions[..|actions| - 1]), actions[|actions| - 1])
  }

  // ---- the run ----

  /** One step: what the host did, and then that it raised or what it returned. */
  datatype Step = Step(actions: seq<Action>, raised: bool, summaryBytes: nat, passed: bool)

  datatype Result =
    | Raised(state: State)
    | Result(state: State, step1: bool, final: Option<bool>, reported: Option<real>, unrun: bool, overBudget: bool,
             inadmissible: bool)

  predicate Passed(r: Result) {
    r.Result? && r.final == Some(true) && r.step1 && !r.overBudget && !r.inadmissible
  }

  function Finish(p: Policy, s: State, step1: bool, final: Option<bool>, unrun: bool, refused: bool,
                  inadmissible: bool): Result {
    var reported := KnownSpend(s.receipts);
    var over := if reported.Some? then reported.value > p.cap || refused else final.Some? || refused;
    Result(s, step1, final, reported, unrun, over, inadmissible)
  }

  function Qualify(p: Policy, first: Step, promptBytes: nat, maxOutput: nat, second: Step): Result {
    var s := Acts(p, START, first.actions);
    if first.raised then Raised(s)
    else if !first.passed then Finish(p, s, false, None, false, false, false)
    else if first.summaryBytes > SUMMARY_MAX_BYTES then Finish(p, s, true, None, true, false, false)
    else if !Affordable(p, s.receipts, promptBytes, maxOutput) then Finish(p, s, true, None, true, true, false)
    else
      var t := Acts(p, s, second.actions);
      if second.raised
      then Raised(t)
      else Finish(p, t, true, Some(second.passed), false, false, second.summaryBytes > SUMMARY_MAX_BYTES)
  }

  class Qualifier {
    const policy: Policy
    var calls: nat
    var receipts: seq<Option<real>>
    ghost var log: seq<Event>

    constructor (policy: Policy)
      ensures this.policy == policy && Now() == START
    {
      this.policy := policy;
      calls, receipts, log := 0, [], [];
    }

    ghost function Now(): State
      reads this
    {
      State(calls, receipts, log)
    }

    method Record(cost: Option<real>)
      modifies this
      ensures Now() == Act(policy, old(Now()), Note(cost))
    {
      receipts := receipts + [cost];
      log := log + [Receipt(cost)];
    }

    method Spend() returns (spent: Option<real>)
      ensures spent == KnownSpend(receipts)
    {
      var sum := 0.0;
      for i := 0 to |receipts|
        invariant KnownSpend(receipts[..i]) == Some(sum)
      {
        assert receipts[..i + 1][..i] == receipts[..i];
        if receipts[i].None? {
          UnknownStays(receipts, i + 1);
          return None;
        }
        sum := sum + receipts[i].value;
      }
      assert receipts[..|receipts|] == receipts;
      return Some(sum);
    }

    method Unaffordable(promptBytes: nat, maxOutput: nat) returns (refused: bool)
      ensures refused == !Affordable(policy, receipts, promptBytes, maxOutput)
    {
      var spent := Spend();
      if spent.None? { return true; }
      refused := spent.value + Reservation(policy.candidate, promptBytes, maxOutput) > policy.cap;
    }

    /** Sends, and counts, exactly the calls that `Act` sends. */
    method Capped(promptBytes: nat, maxOutput: nat) returns (sent: bool)
      modifies this
      ensures Now() == Act(policy, old(Now()), Ask(promptBytes, maxOutput)) && sent == (calls == old(calls) + 1)
    {
      if calls >= MAX_FIXTURE_CALLS { return false; }
      var refused := Unaffordable(promptBytes, maxOutput);
      if refused { return false; }
      calls := calls + 1;
      log := log + [Sent(Reservation(policy.candidate, promptBytes, maxOutput))];
      sent := true;
    }

    method Host(actions: seq<Action>)
      modifies this
      ensures Now() == Acts(policy, old(Now()), actions)
    {
      ghost var start := Now();
      for i := 0 to |actions|
        invariant Now() == Acts(policy, start, actions[..i])
      {
        assert actions[..i + 1][..i] == actions[..i];
        match actions[i] {
          case Note(cost) => Record(cost);
          case Ask(promptBytes, maxOutput) => var _ := Capped(promptBytes, maxOutput);
        }
      }
      assert actions[..|actions|] == actions;
    }

    /** Returns `None` when the host raised; the receipts recorded so far are kept. */
    method Run(first: Step, promptBytes: nat, maxOutput: nat, second: Step) returns (passed: Option<bool>)
      requires Now() == START
      modifies this
      ensures Now() == Qualify(policy, first, promptBytes, maxOutput, second).state
      ensures passed ==
                var r := Qualify(policy, first, promptBytes, maxOutput, second);
                if r.Raised? then None else Some(Passed(r))
    {
      Host(first.actions);
      if first.raised { return None; }
      if !first.passed || first.summaryBytes > SUMMARY_MAX_BYTES { return Some(false); }
      var refused := Unaffordable(promptBytes, maxOutput);
      if refused { return Some(false); }
      Host(second.actions);
      if second.raised { return None; }
      var reported := Spend();
      passed := Some(&& second.passed
                     && second.summaryBytes <= SUMMARY_MAX_BYTES
                     && reported.Some?
                     && reported.value <= policy.cap);
    }
  }

  lemma {:induction false} UnknownStays(receipts: seq<Option<real>>, n: nat)
    requires n <= |receipts| && KnownSpend(receipts[..n]).None?
    ensures KnownSpend(receipts).None?
  {
    if n == |receipts| {
      assert receipts[..n] == receipts;
    } else {
      assert receipts[..|receipts| - 1][..n] == receipts[..n];
      UnknownStays(receipts[..|receipts| - 1], n);
    }
  }

  // ---- what every host behaviour keeps ----

  function CallsIn(log: seq<Event>): nat {
    if log == [] then 0 else CallsIn(log[..|log| - 1]) + if log[|log| - 1].Sent? then 1 else 0
  }

  function SpendIn(log: seq<Event>): Option<real> {
    if log == [] then Some(0.0)
    else
      var front, last := SpendIn(log[..|log| - 1]), log[|log| - 1];
      if last.Sent? then front else if front.None? || last.cost.None? then None else Some(front.value + last.cost.value)
  }

  /** Every call started with the spend so far known and its whole reservation within the cap. */
  ghost predicate CapHeld(p: Policy, log: seq<Event>) {
    forall i ::
      0 <= i < |log| && log[i].Sent? ==>
        SpendIn(log[..i]).Some? && SpendIn(log[..i]).value + log[i].reservation <= p.cap
  }

  ghost predicate Accounted(p: Policy, s: State) {
    s.calls == CallsIn(s.log) <= MAX_FIXTURE_CALLS && KnownSpend(s.receipts) == SpendIn(s.log) && CapHeld(p, s.log)
  }

  lemma CapHeldMore(p: Policy, log: seq<Event>, e: Event)
    requires CapHeld(p, log) && (e.Sent? ==> SpendIn(log).Some? && SpendIn(log).value + e.reservation <= p.cap)
    ensures CapHeld(p, log + [e])
  {
    var all := log + [e];
    forall i | 0 <= i < |all| && all[i].Sent?
      ensures SpendIn(all[..i]).Some? && SpendIn(all[..i]).value + all[i].reservation <= p.cap
    {
      if i < |log| {
        assert all[..i] == log[..i] && all[i] == log[i];
      } else {
        assert all[..i] == log;
      }
    }
  }

  lemma NoteKeeps(p: Policy, s: State, cost: Option<real>)
    requires Accounted(p, s)
    ensures Accounted(p, Act(p, s, Note(cost)))
  {
    var receipts, log := s.receipts + [cost], s.log + [Receipt(cost)];
    assert receipts[..|s.receipts|] == s.receipts && log[..|s.log|] == s.log;
    CapHeldMore(p, s.log, Receipt(cost));
  }

  lemma CallKeeps(p: Policy, s: State, reservation: real)
    requires Accounted(p, s) && s.calls < MAX_FIXTURE_CALLS
    requires KnownSpend(s.receipts).Some? && KnownSpend(s.receipts).value + reservation <= p.cap
    ensures Accounted(p, s.(calls := s.calls + 1, log := s.log + [Sent(reservation)]))
  {
    var log := s.log + [Sent(reservation)];
    assert log[..|s.log|] == s.log;
    CapHeldMore(p, s.log, Sent(reservation));
  }

  lemma ActKeeps(p: Policy, s: State, a: Action)
    requires Accounted(p, s)
    ensures Accounted(p, Act(p, s, a))
  {
    match a
    case Note(cost) => NoteKeeps(p, s, cost);
    case Ask(promptBytes, maxOutput) =>
      if s.calls < MAX_FIXTURE_CALLS && Affordable(p, s.receipts, promptBytes, maxOutput) {
        CallKeeps(p, s, Reservation(p.candidate, promptBytes, maxOutput));
      }
  }

  /** Whatever the host does: at most two calls, none after an unknown cost, each
      with its reservation within the cap. */
  lemma {:induction false} CallsStayWithinCap(p: Policy, s: State, actions: seq<Action>)
    requires Accounted(p, s)
    ensures Accounted(p, Acts(p, s, actions))
  {
    if actions != [] {
      CallsStayWithinCap(p, s, actions[..|actions| - 1]);
      ActKeeps(p, Acts(p, s, actions[..|actions| - 1]), actions[|actions| - 1]);
    }
  }

  /** The same for a whole run, finished or broken off by the host. */
  lemma RunStaysWithinCap(p: Policy, first: Step, promptBytes: nat, maxOutput: nat, second: Step)
    ensures Accounted(p, Qualify(p, first, promptBytes, maxOutput, second).state)
  {
    CallsStayWithinCap(p, START, first.actions);
    CallsStayWithinCap(p, Acts(p, START, first.actions), second.actions);
  }

  /** A run that passed knows its whole spend, and the spend is within the cap. */
  lemma PassedIsWithinCap(p: Policy, first: Step, promptBytes: nat, maxOutput: nat, second: Step)
    ensures var r := Qualify(p, first, promptBytes, maxOutput, second);
            Passed(r) ==> && r.reported.Some? && r.reported.value <= p.cap && r.reported == SpendIn(r.state.log)
                          && first.passed && second.passed && first.summaryBytes <= SUMMARY_MAX_BYTES
                          && second.summaryBytes <= SUMMARY_MAX_BYTES
  {
    RunStaysWithinCap(p, first, promptBytes, maxOutput, second);
  }

  // ---- receipts within reservations keep the spend within the cap ----

  /** The reservation of the latest call. */
  function Latest(log: seq<Event>): Option<real> {
    if log == [] then None
    else if log[|log| - 1].Sent? then Some(log[|log| - 1].reservation) else Latest(log[..|log| - 1])
  }

  /** What was charged since the latest call. */
  function Since(log: seq<Event>): Option<real> {
    if log == [] || log[|log| - 1].Sent? then Some(0.0)
    else
      var front, last := Since(log[..|log| - 1]), log[|log| - 1];
      if front.None? || last.cost.None? then None else Some(front.value + last.cost.value)
  }

  /** The receipts so far of the latest call are known and within its reservation;
      before any call nothing is charged. */
  predicate WithinReservation(log: seq<Event>) {
    Since(log).Some? && Since(log).value <= (if Latest(log).Some? then Latest(log).value else 0.0)
  }

  lemma {:induction false} SpendSplits(p: Policy, log: seq<Event>)
    requires CapHeld(p, log) && AlwaysWithinReservation(log)
    ensures SpendIn(log).Some? && Since(log).Some?
    ensures Latest(log).Some? ==> SpendIn(log).value - Since(log).value + Latest(log).value <= p.cap
    ensures Latest(log).None? ==> SpendIn(log) == Since(log)
  {
    if log != [] {
      var n := |log| - 1;
      assert log[..|log|] == log && WithinReservation(log[..|log|]);
      forall i | 0 <= i < n && log[..n][i].Sent?
        ensures SpendIn(log[..n][..i]).Some? && SpendIn(log[..n][..i]).value + log[..n][i].reservation <= p.cap
      {
        assert log[..n][..i] == log[..i];
      }
      forall m | 0 <= m <= n ensures WithinReservation(log[..n][..m]) { assert log[..n][..m] == log[..m]; }
      SpendSplits(p, log[..n]);
    }
  }

  /** The receipts of each call stay within its reservation, at every moment of the log. */
  ghost predicate AlwaysWithinReservation(log: seq<Event>) {
    forall n :: 0 <= n <= |log| ==> WithinReservation(log[..n])
  }

  /** If at every moment the receipts of a call stay within its reservation, the spend of a whole run, finished or
      broken off, is known and never exceeds the cap (or zero, for a cap below it). */
  lemma SpendStaysWithinCap(p: Policy, first: Step, promptBytes: nat, maxOutput: nat, second: Step)
    requires AlwaysWithinReservation(Qualify(p, first, promptBytes, maxOutput, second).state.log)
    ensures var spent := KnownSpend(Qualify(p, first, promptBytes, maxOutput, second).state.receipts);
            spent.Some? && spent.value <= if p.cap >= 0.0 then p.cap else 0.0
  {
    RunStaysWithinCap(p, first, promptBytes, maxOutput, second);
    var log := Qualify(p, first, promptBytes, maxOutput, second).state.log;
    SpendSplits(p, log);
    assert log[..|log|] == log && WithinReservation(log[..|log|]);
  }

  lemma ProductsGrow(a: real, b: real, price: real)
    requires 0.0 <= a <= b && price >= 0.0
    ensures 0.0 <= a * price <= b * price
  {
    assert (b - a) * price >= 0.0 && a * price >= 0.0;
    assert b * price == a * price + (b - a) * price;
  }

  lemma CostsGrow(a: real, b: real, x: real, y: real, inputPrice: real, outputPrice: real)
    requires 0.0 <= a <= b && 0.0 <= x <= y && inputPrice >= 0.0 && outputPrice >= 0.0
    ensures 0.0 <= (a * inputPrice + x * outputPrice) / MILLION <= (b * inputPrice + y * outputPrice) / MILLION
  {
    ProductsGrow(a, b, inputPrice);
    ProductsGrow(x, y, outputPrice);
  }

  /** An attempt that used no more than the reserved tokens costs no more than its share of the reservation. */
  lemma AttemptWithinShare(c: Candidate, input: nat, output: nat, promptBytes: nat, maxOutput: nat)
    requires c.inputPrice >= 0.0 && c.outputPrice >= 0.0 && input <= promptBytes + c.framing && output <= maxOutput
    ensures 0.0 <= AttemptCost(c, input, output) <= AttemptCost(c, promptBytes + c.framing, maxOutput)
  {
    var a, b, x, y := input as real, (promptBytes + c.framing) as real, output as real, maxOutput as real;
    assert 0.0 <= a <= b && 0.0 <= x <= y;
    CostsGrow(a, b, x, y, c.inputPrice, c.outputPrice);
  }

  /** So the route's attempts together stay within the reservation. */
  lemma AttemptsWithinReservation(c: Candidate, used: (nat, nat), resent: (nat, nat), promptBytes: nat, maxOutput: nat)
    requires c.inputPrice >= 0.0 && c.outputPrice >= 0.0
    requires used.0 <= promptBytes + c.framing && used.1 <= maxOutput && resent.0 <= promptBytes + c.framing
             && resent.1 <= maxOutput
    ensures AttemptCost(c, used.0, used.1) + AttemptCost(c, resent.0, resent.1) <=
              Reservation(c, promptBytes, maxOutput)
  {
    AttemptWithinShare(c, used.0, used.1, promptBytes, maxOutput);
    AttemptWithinShare(c, resent.0, resent.1, promptBytes, maxOutput);
  }
}
