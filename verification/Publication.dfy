/** Applying a batch through an unreliable client with an intent/result/validated journal; nothing is ever retried. */
module Publication {
  import opened Common
  import opened IssueBody
  import opened Inventory
  import opened Planner
  import opened PlanFacts

  datatype Outcome = Pass | Incomplete | Failed | Unknown | Refused

  datatype Request =
    | PostLabel(spec: LabelSpec)
    | PostIssue(title: string, body: Body, labels: set<string>)
    | PatchIssue(number: int, title: string, body: Body, labels: set<string>)
    | PostSubIssue(parent: int, childId: int)

  datatype Step =
    | Start
    | Intent(index: nat, request: Request)
    | Result(index: nat)
    | Checked(index: nat)
    | Finished(outcome: Outcome)

  /** The history of a run: journal records that reached the disk or did not, and writes handed to the client. */
  datatype Event = Journaled(step: Step) | Unjournaled(step: Step) | Sent(index: nat, request: Request)

  /** What a write returned: an exception, something that is not an object, or an object. `number` and `id` are present
      when they are integers, `issue` when the object parses as an issue. */
  datatype Reply = Raised | NotAnObject | Object(number: Option<int>, id: Option<int>, spec: Option<LabelSpec>,
                                                 issue: Option<Issue>)

  datatype ParentRead = ParentRaised | NoParent | ParentIs(number: int)

  /** Everything the journal and GitHub may do in one run, chosen freely; each answer is asked for at most once. */
  datatype World = World(startKept: bool, outcomeKept: bool,
                         intentKept: nat -> bool, resultKept: nat -> bool, checkedKept: nat -> bool,
                         readBefore: nat -> Option<Issue>, pauseEnds: nat -> bool, reply: nat -> Reply,
                         parentOf: nat -> ParentRead, childrenOf: nat -> Option<seq<int>>)

  datatype State = State(refs: map<Id, IssueRef>, writes: nat, events: seq<Event>)
  datatype Stage = Continue(state: State) | Stop(state: State, outcome: Outcome)
  datatype PublicationResult = PublicationResult(outcome: Outcome, writes: nat, issues: map<Id, int>, journalOk: bool,
                                                 events: seq<Event>)

  /** `None` when the operation refers to a record whose issue is not known. */
  function RequestFor(op: Operation, refs: map<Id, IssueRef>): Option<Request> {
    match op
    case CreateLabel(_, spec) => Some(PostLabel(spec))
    case CreateIssue(_, title, body, labels) => Some(PostIssue(title, body, labels))
    case UpdateIssue(_, number, title, body, labels, _) => Some(PatchIssue(number, title, body, labels))
    case BindSubIssue(child, parent) =>
      if parent in refs && child in refs then Some(PostSubIssue(refs[parent].number, refs[child].id)) else None
  }

  /** The returned object differs from the request. */
  predicate ResultDiffers(op: Operation, reply: Reply, refs: map<Id, IssueRef>) {
    if !reply.Object? then true
    else match op
      case CreateLabel(_, spec) => reply.spec != Some(spec)
      case BindSubIssue(_, parent) => !(parent in refs && reply.number == Some(refs[parent].number))
      case CreateIssue(_, title, body, labels) =>
        !(&& reply.issue.Some?
          && var got := reply.issue.value;
             && got.title == title
             && got.body == body
             && got.labels == labels
             && got.state == "open")
      case UpdateIssue(_, number, title, body, labels, _) =>
        !(&& reply.issue.Some?
          && var got := reply.issue.value;
             && got.number == number
             && got.title == title
             && got.body == body
             && got.labels == labels
             && got.state == "open")
  }

  datatype Check = Matches | Differs | CheckRaised

  /** An answer that differs fails; a binding is also read back, from both of its ends. */
  function CheckResult(w: World, i: nat, op: Operation, refs: map<Id, IssueRef>): Check {
    if ResultDiffers(op, w.reply(i), refs) then Differs
    else if !op.BindSubIssue? then Matches
    else if op.child !in refs || op.parent !in refs then CheckRaised
    else match w.parentOf(i)
      case ParentRaised => CheckRaised
      case NoParent => Differs
      case ParentIs(n) =>
        if n != refs[op.parent].number then Differs
        else if w.childrenOf(i).None? then CheckRaised
        else if refs[op.child].number in w.childrenOf(i).value then Matches else Differs
  }

  /** Nothing was sent for the operation: its request cannot be built, its issue changed, or waiting was interrupted. */
  predicate StoppedBefore(p: Policy, w: World, i: nat, op: Operation, s: State) {
    || RequestFor(op, s.refs).None?
    || (op.UpdateIssue? && (w.readBefore(i).None? || Fingerprint(p, w.readBefore(i).value) != op.expected))
    || (s.writes > 0 && !w.pauseEnds(i))
  }

  function Log(s: State, e: Event): State {
    s.(events := s.events + [e])
  }

  /** A created issue's identity is kept even when its result then fails validation. */
  function Remember(op: Operation, reply: Reply, refs: map<Id, IssueRef>): map<Id, IssueRef> {
    if op.CreateIssue? && reply.Object? && reply.number.Some? && reply.id.Some?
    then refs[op.target := IssueRef(reply.number.value, reply.id.value)] else refs
  }

  /** What follows a write: its answer, its journal records and the check of its result. */
  function AfterSend(w: World, i: nat, op: Operation, sent: State): Stage {
    if w.reply(i).Raised? then Stop(sent, Unknown)
    else
      var told := sent.(refs := Remember(op, w.reply(i), sent.refs));
      if !w.resultKept(i) then Stop(Log(told, Unjournaled(Result(i))), Unknown)
      else
        var heard := Log(told, Journaled(Result(i)));
        match CheckResult(w, i, op, told.refs)
        case CheckRaised => Stop(heard, Unknown)
        case Differs => Stop(heard, Failed)
        case Matches =>
          if !w.checkedKept(i) then Stop(Log(heard, Unjournaled(Checked(i))), Failed)
          else Continue(Log(heard, Journaled(Checked(i))))
  }

  function RunOperation(p: Policy, w: World, i: nat, op: Operation, s: State): Stage {
    if StoppedBefore(p, w, i, op, s) then Stop(s, Failed)
    else
      var request := RequestFor(op, s.refs).value;
      if !w.intentKept(i) then Stop(Log(s, Unjournaled(Intent(i, request))), Failed)
      else AfterSend(w, i, op, Log(Log(s, Journaled(Intent(i, request))), Sent(i, request)).(writes := s.writes + 1))
  }

  predicate JournalWhole(events: seq<Event>) {
    forall e :: e in events ==> !e.Unjournaled?
  }

  /** The outcome record, which every way out of a run attempts. */
  function Verdict(w: World, outcome: Outcome): Event {
    if w.outcomeKept then Journaled(Finished(outcome)) else Unjournaled(Finished(outcome))
  }

  function Finish(w: World, s: State, outcome: Outcome): PublicationResult {
    var events := s.events + [Verdict(w, outcome)];
    PublicationResult(if outcome.Pass? && !w.outcomeKept then Incomplete else outcome,
                      s.writes, map id | id in s.refs :: s.refs[id].number, JournalWhole(events), events)
  }

  function RunFrom(p: Policy, b: Batch, w: World, i: nat, s: State): PublicationResult
    requires i <= |b.operations|
    decreases |b.operations| - i
  {
    if i == |b.operations| then Finish(w, s, Pass)
    else match RunOperation(p, w, i, b.operations[i], s)
      case Stop(s', outcome) => Finish(w, s', outcome)
      case Continue(s') => RunFrom(p, b, w, i + 1, s')
  }

  function Publish(p: Policy, b: Batch, w: World): PublicationResult {
    var s := State(b.reused, 0, []);
    if !w.startKept then Finish(w, Log(s, Unjournaled(Start)), Failed)
    else if b.conflicts != {} then Finish(w, Log(s, Journaled(Start)), Outcome.Refused)
    else RunFrom(p, b, w, 0, Log(s, Journaled(Start)))
  }

  // ---- every run has one shape ----

  /** The issues known before operation `k`: the reused ones, and every one an earlier create was told of. */
  function RefsBefore(b: Batch, w: World, k: nat): map<Id, IssueRef>
    requires k <= |b.operations|
  {
    if k == 0 then b.reused else Remember(b.operations[k - 1], w.reply(k - 1), RefsBefore(b, w, k - 1))
  }

  /** The request is the operation's own: its label, its content for a new or an existing issue, or the child's identity
      under the parent's number. */
  predicate Fits(op: Operation, refs: map<Id, IssueRef>, request: Request) {
    match op
    case CreateLabel(name, spec) => request.PostLabel? && request.spec == spec
    case CreateIssue(_, title, body, labels) => request == PostIssue(title, body, labels)
    case UpdateIssue(_, number, title, body, labels, _) => request == PatchIssue(number, title, body, labels)
    case BindSubIssue(child, parent) =>
      child in refs && parent in refs && request.PostSubIssue? && request.parent == refs[parent].number
      && request.childId == refs[child].id
  }

  /** Operation `i` was journaled, sent, answered, journaled and checked, in this order. */
  ghost predicate Settled(b: Batch, w: World, events: seq<Event>, i: nat) {
    && i < |b.operations| && 4 * i + 5 <= |events|
    && events[4 * i + 2].Sent? && events[4 * i + 2].index == i 
    && Fits(b.operations[i], RefsBefore(b, w, i), events[4 * i + 2].request)
    && events[4 * i + 1] == Journaled(Intent(i, events[4 * i + 2].request))
    && events[4 * i + 3] == Journaled(Result(i)) && events[4 * i + 4] == Journaled(Checked(i))
  }

  /** The first `k` operations are settled and nothing else happened. */
  ghost predicate Clean(b: Batch, w: World, s: State, k: nat) {
    && k <= |b.operations| && s.refs == RefsBefore(b, w, k) && s.writes == k && |s.events| == 1 + 4 * k
    && s.events[0] == Journaled(Start)
    && forall i: nat :: i < k ==> Settled(b, w, s.events, i)
  }

  /** Where a run ended: before operation `k`, all earlier ones settled. */
  ghost predicate EndsAt(p: Policy, b: Batch, w: World, result: PublicationResult, k: nat, before: State) {
    && k <= |b.operations| && Clean(b, w, before, k)
    && (k == |b.operations| ==> result == Finish(w, before, Pass))
    && (k < |b.operations| ==>
          var stage := RunOperation(p, w, k, b.operations[k], before);
          stage.Stop? && result == Finish(w, stage.state, stage.outcome))
  }

  predicate IntegerIdentity(reply: Reply) {
    reply.Object? && reply.number.Some? && reply.id.Some?
  }

  /** The record's issue is reused, or one of the first `k` operations created it and was told an integer identity. */
  ghost predicate Identified(b: Batch, w: World, k: nat, id: Id) {
    id in b.reused || exists j: nat :: CreatedAs(b, w, k, id, j)
  }

  predicate CreatedAs(b: Batch, w: World, k: nat, id: Id, j: nat) {
    j < k && j < |b.operations| && b.operations[j].CreateIssue? && b.operations[j].target == id
    && IntegerIdentity(w.reply(j))
  }

  lemma {:induction false} RefsBeforeKnown(b: Batch, w: World, k: nat)
    requires k <= |b.operations|
    ensures RefsKnown(b, w, k, RefsBefore(b, w, k))
  {
    if k == 0 {
      var refs := b.reused;
      assert forall id :: id in refs <==> Identified(b, w, 0, id);
    } else {
      RefsBeforeKnown(b, w, k - 1);
      RefsExtend(b, w, k - 1, RefsBefore(b, w, k - 1));
    }
  }

  ghost predicate RefsKnown(b: Batch, w: World, k: nat, refs: map<Id, IssueRef>) {
    k <= |b.operations| && forall id :: id in refs <==> Identified(b, w, k, id)
  }

  lemma RefsExtend(b: Batch, w: World, k: nat, refs: map<Id, IssueRef>)
    requires k < |b.operations| && RefsKnown(b, w, k, refs)
    ensures RefsKnown(b, w, k + 1, Remember(b.operations[k], w.reply(k), refs))
  {
    var refs' := Remember(b.operations[k], w.reply(k), refs);
    var n := k + 1;
    forall id ensures id in refs' <==> Identified(b, w, n, id) {
      if id in refs && id !in b.reused {
        var j: nat :| CreatedAs(b, w, k, id, j);
        assert CreatedAs(b, w, n, id, j);
      }
      if CreatedAs(b, w, n, id, k) { assert id in refs'; }
      forall j: nat | CreatedAs(b, w, n, id, j) && j != k ensures CreatedAs(b, w, k, id, j) {}
    }
  }

  /** An operation that goes on adds exactly its four events. */
  lemma ContinueShape(p: Policy, b: Batch, w: World, k: nat, s: State)
    requires k < |b.operations| && RunOperation(p, w, k, b.operations[k], s).Continue?
    ensures var s' := RunOperation(p, w, k, b.operations[k], s).state;
            && RequestFor(b.operations[k], s.refs).Some?
            && var request := RequestFor(b.operations[k], s.refs).value;
            && s'.events ==
                 s.events +
                   [Journaled(Intent(k, request)), Sent(k, request), Journaled(Result(k)), Journaled(Checked(k))]
            && s'.writes == s.writes + 1 && s'.refs == Remember(b.operations[k], w.reply(k), s.refs)
  {
  }

  lemma OperationExtends(p: Policy, b: Batch, w: World, k: nat, s: State)
    requires k < |b.operations| && Clean(b, w, s, k) && RunOperation(p, w, k, b.operations[k], s).Continue?
    ensures Clean(b, w, RunOperation(p, w, k, b.operations[k], s).state, k + 1)
  {
    ContinueShape(p, b, w, k, s);
    var s' := RunOperation(p, w, k, b.operations[k], s).state;
    forall i: nat | i < k + 1 ensures Settled(b, w, s'.events, i) {
      if i < k { assert Settled(b, w, s.events, i); }
    }
  }

  lemma StopsHere(p: Policy, b: Batch, w: World, i: nat, s: State)
    requires i <= |b.operations| && Clean(b, w, s, i)
             && (i == |b.operations| || RunOperation(p, w, i, b.operations[i], s).Stop?)
    ensures EndsAt(p, b, w, RunFrom(p, b, w, i, s), i, s)
  {
  }

  lemma GoesOn(p: Policy, b: Batch, w: World, i: nat, s: State) returns (next: State)
    requires i < |b.operations| && Clean(b, w, s, i) && RunOperation(p, w, i, b.operations[i], s).Continue?
    ensures Clean(b, w, next, i + 1) && RunFrom(p, b, w, i, s) == RunFrom(p, b, w, i + 1, next)
  {
    OperationExtends(p, b, w, i, s);
    next := RunOperation(p, w, i, b.operations[i], s).state;
  }

  lemma {:induction false} RunShape(p: Policy, b: Batch, w: World, i: nat, s: State) returns (k: nat, before: State)
    requires i <= |b.operations| && Clean(b, w, s, i)
    ensures EndsAt(p, b, w, RunFrom(p, b, w, i, s), k, before)
    decreases |b.operations| - i
  {
    if i == |b.operations| || RunOperation(p, w, i, b.operations[i], s).Stop? {
      StopsHere(p, b, w, i, s);
      k, before := i, s;
    } else {
      var next := GoesOn(p, b, w, i, s);
      k, before := RunShape(p, b, w, i + 1, next);
    }
  }

  /** A run that gets past its start and its conflicts ends at one operation, or past the last. */
  lemma PublishShape(p: Policy, b: Batch, w: World) returns (k: nat, before: State)
    requires w.startKept && b.conflicts == {}
    ensures EndsAt(p, b, w, Publish(p, b, w), k, before)
  {
    k, before := RunShape(p, b, w, 0, Log(State(b.reused, 0, []), Journaled(Start)));
  }

  // ---- what was sent ----

  /** The indices of the operations handed to the client, in order. */
  function SentIndices(events: seq<Event>): seq<nat> {
    if events == [] then []
    else SentIndices(events[..|events| - 1]) + (if events[|events| - 1].Sent? then [events[|events| - 1].index] else [])
  }

  function UpTo(n: nat): seq<nat> {
    seq(n, i => i)
  }

  /** Every write follows its own durable intent record. */
  predicate IntentFirst(events: seq<Event>) {
    forall q ::
      0 <= q < |events| && events[q].Sent? ==>
        q > 0 && events[q - 1] == Journaled(Intent(events[q].index, events[q].request))
  }

  /** Every write is the request of its own operation. */
  predicate OwnRequests(b: Batch, w: World, events: seq<Event>) {
    forall e ::
      e in events && e.Sent? ==>
        e.index < |b.operations| && Fits(b.operations[e.index], RefsBefore(b, w, e.index), e.request)
  }

  lemma {:induction false} SentIndicesConcat(a: seq<Event>, b: seq<Event>)
    ensures SentIndices(a + b) == SentIndices(a) + SentIndices(b)
  {
    if b == [] {
      assert a + b == a;
    } else {
      SentIndicesConcat(a, b[..|b| - 1]);
      assert (a + b)[..|a + b| - 1] == a + b[..|b| - 1];
    }
  }

  lemma {:induction false} CleanSends(b: Batch, w: World, events: seq<Event>, k: nat)
    requires |events| >= 1 + 4 * k && events[0] == Journaled(Start)
             && forall i: nat :: i < k ==> Settled(b, w, events, i)
    ensures SentIndices(events[..1 + 4 * k]) == UpTo(k)
  {
    if k == 0 {
      assert events[..1] == [] + [events[0]];
      SentIndicesConcat([], [events[0]]);
    } else {
      CleanSends(b, w, events, k - 1);
      assert Settled(b, w, events, k - 1);
      var n := 4 * k - 3;
      var four := [events[n], events[n + 1], events[n + 2], events[n + 3]];
      assert events[..1 + 4 * k] == events[..n] + four;
      SentIndicesConcat(events[..n], four);
      FourEvents(events[n], events[n + 1], events[n + 2], events[n + 3]);
      assert UpTo(k) == UpTo(k - 1) + [k - 1];
    }
  }

  lemma FourEvents(a: Event, b: Event, c: Event, d: Event)
    requires !a.Sent? && b.Sent? && !c.Sent? && !d.Sent?
    ensures SentIndices([a, b, c, d]) == [b.index]
  {
    assert [a, b, c, d] == [a] + ([b] + ([c] + [d]));
    SentIndicesConcat([a], [b] + ([c] + [d]));
    SentIndicesConcat([b], [c] + [d]);
    SentIndicesConcat([c], [d]);
  }

  /** Nobody can say what the write did: it raised, its answer is not on disk, or reading a binding back raised. */
  predicate Unsettled(w: World, k: nat, op: Operation, refs: map<Id, IssueRef>) {
    w.reply(k).Raised? || !w.resultKept(k) || CheckResult(w, k, op, Remember(op, w.reply(k), refs)).CheckRaised?
  }

  /** What an operation that stops the run has logged, how many writes it adds and how the run then ends. */
  ghost predicate StopShape(p: Policy, w: World, k: nat, op: Operation, s: State, tail: seq<Event>, more: nat,
                            outcome: Outcome) {
    if StoppedBefore(p, w, k, op, s) then tail == [] && more == 0 && outcome == Failed
    else
      var request := RequestFor(op, s.refs).value;
      if !w.intentKept(k) then tail == [Unjournaled(Intent(k, request))] && more == 0 && outcome == Failed
      else
        && more == 1 && 2 <= |tail| <= 4 && tail[0] == Journaled(Intent(k, request)) && tail[1] == Sent(k, request)
        && outcome == (if Unsettled(w, k, op, s.refs) then Unknown else Failed)
        && (|tail| > 2 ==> tail[2] == if w.resultKept(k) then Journaled(Result(k)) else Unjournaled(Result(k)))
        && (|tail| > 3 ==> tail[3] == Unjournaled(Checked(k)))
  }

  lemma StopEvents(p: Policy, w: World, k: nat, op: Operation, s: State) returns (tail: seq<Event>)
    requires RunOperation(p, w, k, op, s).Stop?
    ensures RunOperation(p, w, k, op, s).state.events == s.events + tail
    ensures RunOperation(p, w, k, op, s).state.writes >= s.writes
    ensures StopShape(p, w, k, op, s, tail, RunOperation(p, w, k, op, s).state.writes - s.writes,
                      RunOperation(p, w, k, op, s).outcome)
  {
    if StoppedBefore(p, w, k, op, s) {
      tail := [];
    } else {
      var request := RequestFor(op, s.refs).value;
      if !w.intentKept(k) {
        tail := [Unjournaled(Intent(k, request))];
      } else {
        tail := [Journaled(Intent(k, request)), Sent(k, request)];
        if !w.reply(k).Raised? {
          tail := tail + [if w.resultKept(k) then Journaled(Result(k)) else Unjournaled(Result(k))];
          if w.resultKept(k) && CheckResult(w, k, op, Remember(op, w.reply(k), s.refs)).Matches? {
            tail := tail + [Unjournaled(Checked(k))];
          }
        }
      }
    }
  }

  /** One run in full: `k` settled operations, what the stopping one logged, and the outcome record. */
  ghost predicate RunIs(p: Policy, b: Batch, w: World, r: PublicationResult, k: nat, before: State, tail: seq<Event>,
                        outcome: Outcome) {
    && k <= |b.operations| && Clean(b, w, before, k)
    && r.events == before.events + tail + [Verdict(w, outcome)]
    && r.outcome == (if outcome.Pass? && !w.outcomeKept then Incomplete else outcome)
    && r.writes >= k && r.journalOk == JournalWhole(r.events)
    && if k == |b.operations| then tail == [] && r.writes == k && outcome == Pass
       else StopShape(p, w, k, b.operations[k], before, tail, r.writes - k, outcome)
  }

  lemma RunInFull(p: Policy, b: Batch, w: World) returns (k: nat, before: State, tail: seq<Event>, outcome: Outcome)
    requires w.startKept && b.conflicts == {}
    ensures RunIs(p, b, w, Publish(p, b, w), k, before, tail, outcome)
  {
    k, before := PublishShape(p, b, w);
    if k < |b.operations| {
      tail := StopEvents(p, w, k, b.operations[k], before);
      outcome := RunOperation(p, w, k, b.operations[k], before).outcome;
    } else {
      tail, outcome := [], Pass;
      assert before.events + [] == before.events;
    }
  }

  /** Events that follow a clean state: at most one more write, after its own intent. */
  ghost predicate Tail(b: Batch, w: World, tail: seq<Event>, k: nat, writes: nat) {
    || (writes == k && forall e :: e in tail ==> !e.Sent?)
    || (&& writes == k + 1
        && k < |b.operations|
        && 2 <= |tail|
        && tail[1].Sent?
        && tail[1].index == k
        && Fits(b.operations[k], RefsBefore(b, w, k), tail[1].request)
        && tail[0] == Journaled(Intent(k, tail[1].request))
        && forall q :: 2 <= q < |tail| ==> !tail[q].Sent?)
  }

  lemma RunTail(p: Policy, b: Batch, w: World, r: PublicationResult, k: nat, before: State, tail: seq<Event>,
                outcome: Outcome)
    requires RunIs(p, b, w, r, k, before, tail, outcome)
    ensures Tail(b, w, tail + [Verdict(w, outcome)], k, r.writes)
  {
  }

  lemma TailSends(b: Batch, w: World, tail: seq<Event>, k: nat, writes: nat)
    requires Tail(b, w, tail, k, writes)
    ensures SentIndices(tail) == if writes == k then [] else [k]
  {
    if writes == k {
      NoSends(tail);
    } else {
      assert tail == [tail[0]] + ([tail[1]] + tail[2..]);
      SentIndicesConcat([tail[0]], [tail[1]] + tail[2..]);
      SentIndicesConcat([tail[1]], tail[2..]);
      NoSends(tail[2..]);
    }
  }

  lemma {:induction false} NoSends(events: seq<Event>)
    requires forall e :: e in events ==> !e.Sent?
    ensures SentIndices(events) == []
  {
    if events != [] { NoSends(events[..|events| - 1]); }
  }

  lemma RunSends(b: Batch, w: World, before: State, k: nat, tail: seq<Event>, writes: nat)
    requires k <= |b.operations| && Clean(b, w, before, k) && Tail(b, w, tail, k, writes)
    ensures writes <= |b.operations| && SentIndices(before.events + tail) == UpTo(writes)
  {
    SentIndicesConcat(before.events, tail);
    assert SentIndices(before.events) == UpTo(k) by {
      CleanSends(b, w, before.events, k);
      assert before.events[..1 + 4 * k] == before.events;
    }
    TailSends(b, w, tail, k, writes);
    if writes == k { assert UpTo(k) + [] == UpTo(k); } else { assert UpTo(k + 1) == UpTo(k) + [k]; }
  }

  /** For every batch and every failure pattern: the writes are a prefix of the operations, in order and each once; each
      is its own operation's request and follows its own durable intent record. */
  lemma WritesArePrefix(p: Policy, b: Batch, w: World, r: PublicationResult)
    requires r == Publish(p, b, w)
    ensures r.writes <= |b.operations| && SentIndices(r.events) == UpTo(r.writes)
    ensures IntentFirst(r.events) && OwnRequests(b, w, r.events)
  {
    if w.startKept && b.conflicts == {} {
      var k, before, tail, outcome := RunInFull(p, b, w);
      RunTail(p, b, w, r, k, before, tail, outcome);
      assert r.events == before.events + (tail + [Verdict(w, outcome)]);
      RunSends(b, w, before, k, tail + [Verdict(w, outcome)], r.writes);
      IntentsPrecede(b, w, before, k, tail + [Verdict(w, outcome)], r.writes);
    } else {
      NothingSent(p, b, w, r);
    }
  }

  lemma NothingSent(p: Policy, b: Batch, w: World, r: PublicationResult)
    requires r == Publish(p, b, w) && !(w.startKept && b.conflicts == {})
    ensures r.writes == 0 && SentIndices(r.events) == UpTo(0) && forall e :: e in r.events ==> !e.Sent?
  {
    assert |r.events| == 2 && !r.events[0].Sent? && !r.events[1].Sent?;
    NoSends(r.events);
  }

  lemma IntentsPrecede(b: Batch, w: World, before: State, k: nat, tail: seq<Event>, writes: nat)
    requires Clean(b, w, before, k) && Tail(b, w, tail, k, writes)
    ensures IntentFirst(before.events + tail) && OwnRequests(b, w, before.events + tail)
  {
    var events := before.events + tail;
    forall q | 0 <= q < |events| && events[q].Sent?
      ensures q > 0 && events[q - 1] == Journaled(Intent(events[q].index, events[q].request))
      ensures events[q].index < |b.operations|
              && Fits(b.operations[events[q].index], RefsBefore(b, w, events[q].index), events[q].request)
    {
      if 1 <= q < |before.events| {
        var i := (q - 1) / 4;
        assert Settled(b, w, before.events, i);
        assert q == 4 * i + 2;
      } else if q >= |before.events| {
        assert events[q] == tail[q - |before.events|];
        assert q - |before.events| == 1;
      }
    }
  }

  // ---- what an outcome means ----

  /** Every operation's check is on record. */
  predicate AllChecked(b: Batch, events: seq<Event>) {
    forall i: nat :: i < |b.operations| ==> Journaled(Checked(i)) in events
  }

  /** A clean state records the checks of its own operations and of no other, and nothing in it failed. */
  lemma CleanRecords(b: Batch, w: World, s: State, k: nat)
    requires Clean(b, w, s, k)
    ensures forall i: nat :: Journaled(Checked(i)) in s.events <==> i < k
    ensures JournalWhole(s.events)
  {
    forall i: nat | i < k ensures Journaled(Checked(i)) in s.events {
      assert Settled(b, w, s.events, i);
    }
    forall q | 0 <= q < |s.events|
      ensures !s.events[q].Unjournaled?
              && (s.events[q].Journaled? && s.events[q].step.Checked? ==> s.events[q].step.index < k)
    {
      if q > 0 { assert Settled(b, w, s.events, (q - 1) / 4); }
    }
  }

  /** The record of a stopped operation: not checked, so not all are. */
  lemma StoppedIsNotChecked(p: Policy, b: Batch, w: World, r: PublicationResult, k: nat, before: State,
                            tail: seq<Event>, outcome: Outcome)
    requires RunIs(p, b, w, r, k, before, tail, outcome)
    ensures forall i: nat :: Journaled(Checked(i)) in r.events <==> i < k
    ensures JournalWhole(r.events) <==> JournalWhole(tail) && w.outcomeKept
  {
    CleanRecords(b, w, before, k);
    assert forall e :: e in r.events <==> e in before.events || e in tail || e == Verdict(w, outcome);
    assert forall i: nat :: Journaled(Checked(i)) !in tail;
    assert Verdict(w, outcome) in r.events;
    assert JournalWhole(r.events) ==> JournalWhole(tail);
    assert JournalWhole(tail) && w.outcomeKept ==> forall e :: e in r.events ==> !e.Unjournaled?;
  }

  /** `pass` means exactly that every operation was sent, validated and fully journaled; `incomplete` exactly that only
      the outcome record is missing; `refused` exactly that a started run found conflicts. */
  lemma PassAndIncomplete(p: Policy, b: Batch, w: World, r: PublicationResult)
    requires r == Publish(p, b, w)
    ensures r.outcome == Pass <==> b.conflicts == {} && AllChecked(b, r.events) && JournalWhole(r.events)
    ensures r.outcome == Incomplete <==>
              b.conflicts == {} && AllChecked(b, r.events) && !JournalWhole(r.events)
              && JournalWhole(r.events[..|r.events| - 1])
    ensures r.outcome == Outcome.Refused <==> w.startKept && b.conflicts != {}
    ensures r.outcome == Pass || r.outcome == Incomplete ==> r.writes == |b.operations|
  {
    if w.startKept && b.conflicts == {} {
      var k, before, tail, outcome := RunInFull(p, b, w);
      StoppedIsNotChecked(p, b, w, r, k, before, tail, outcome);
      CleanRecords(b, w, before, k);
      assert r.events[..|r.events| - 1] == before.events + tail;
      if k < |b.operations| {
        assert Journaled(Checked(k)) !in r.events;
        assert outcome == Failed || outcome == Unknown;
      } else {
        assert tail == [] && before.events + tail == before.events;
      }
    } else if !w.startKept {
      assert r.events[0] == Unjournaled(Start) && Unjournaled(Start) in r.events;
      assert r.events[..|r.events| - 1][0] == Unjournaled(Start);
    }
  }

  /** Operation `i`, with the issues known when its turn comes, was sent but never settled. */
  predicate UnsettledAt(b: Batch, w: World, i: nat) {
    i < |b.operations| && Unsettled(w, i, b.operations[i], RefsBefore(b, w, i))
  }

  lemma GoingOnSettles(p: Policy, b: Batch, w: World, i: nat, s: State) returns (next: State)
    requires i < |b.operations| && s.refs == RefsBefore(b, w, i) && RunOperation(p, w, i, b.operations[i], s).Continue?
    ensures !UnsettledAt(b, w, i) && RunFrom(p, b, w, i, s) == RunFrom(p, b, w, i + 1, next)
    ensures next.writes == s.writes + 1 && next.refs == RefsBefore(b, w, i + 1)
  {
    ContinueShape(p, b, w, i, s);
    next := RunOperation(p, w, i, b.operations[i], s).state;
  }

  lemma StoppingTells(p: Policy, b: Batch, w: World, i: nat, s: State)
    requires i < |b.operations| && s.refs == RefsBefore(b, w, i) && RunOperation(p, w, i, b.operations[i], s).Stop?
    ensures var r := RunFrom(p, b, w, i, s);
            s.writes <= r.writes <= s.writes + 1
            && (r.outcome == Unknown <==> r.writes == s.writes + 1 && UnsettledAt(b, w, i))
  {
    var _ := StopEvents(p, w, i, b.operations[i], s);
  }

  lemma RunStep(p: Policy, b: Batch, w: World, i: nat, s: State) returns (next: Option<State>)
    requires i < |b.operations| && s.refs == RefsBefore(b, w, i)
    ensures next.Some? ==>
              && !UnsettledAt(b, w, i) && RunFrom(p, b, w, i, s) == RunFrom(p, b, w, i + 1, next.value)
              && next.value.writes == s.writes + 1 && next.value.refs == RefsBefore(b, w, i + 1)
    ensures next.None? ==>
              var r := RunFrom(p, b, w, i, s);
              s.writes <= r.writes <= s.writes + 1
              && (r.outcome == Unknown <==> r.writes == s.writes + 1 && UnsettledAt(b, w, i))
  {
    if RunOperation(p, w, i, b.operations[i], s).Continue? {
      var after := GoingOnSettles(p, b, w, i, s);
      next := Some(after);
    } else {
      StoppingTells(p, b, w, i, s);
      next := None;
    }
  }

  /** What a result says of the operations from `i` on. */
  ghost predicate Tells(b: Batch, w: World, i: nat, r: PublicationResult) {
    && i <= r.writes <= |b.operations|
    && (forall j: nat :: i <= j < r.writes - 1 ==> !UnsettledAt(b, w, j))
    && (r.outcome == Unknown <==> r.writes > i && UnsettledAt(b, w, r.writes - 1))
  }

  lemma TellsMore(b: Batch, w: World, i: nat, r: PublicationResult)
    requires Tells(b, w, i + 1, r) && !UnsettledAt(b, w, i)
    ensures Tells(b, w, i, r)
  {
  }

  lemma TellsAtTheStop(b: Batch, w: World, i: nat, r: PublicationResult)
    requires i < |b.operations| && i <= r.writes <= i + 1
             && (r.outcome == Unknown <==> r.writes == i + 1 && UnsettledAt(b, w, i))
    ensures Tells(b, w, i, r)
  {
  }

  lemma TellsAtTheEnd(p: Policy, b: Batch, w: World, s: State)
    requires s.writes == |b.operations|
    ensures Tells(b, w, |b.operations|, RunFrom(p, b, w, |b.operations|, s))
  {
  }

  /** Every operation a run went past was settled; the last one sent was not exactly when the outcome is unknown. */
  lemma {:induction false} RunSettles(p: Policy, b: Batch, w: World, i: nat, s: State)
    requires i <= |b.operations| && s.writes == i && s.refs == RefsBefore(b, w, i)
    ensures Tells(b, w, i, RunFrom(p, b, w, i, s))
    decreases |b.operations| - i
  {
    var r := RunFrom(p, b, w, i, s);
    if i == |b.operations| {
      TellsAtTheEnd(p, b, w, s);
    } else {
      var next := RunStep(p, b, w, i, s);
      if next.Some? {
        RunSettles(p, b, w, i + 1, next.value);
        TellsMore(b, w, i, r);
      } else {
        TellsAtTheStop(b, w, i, r);
      }
    }
  }

  lemma PublishTells(p: Policy, b: Batch, w: World, r: PublicationResult)
    requires r == Publish(p, b, w) && w.startKept && b.conflicts == {}
    ensures Tells(b, w, 0, r)
  {
    RunSettles(p, b, w, 0, Log(State(b.reused, 0, []), Journaled(Start)));
  }

  lemma UnknownIsNotChecked(p: Policy, b: Batch, w: World, r: PublicationResult)
    requires r == Publish(p, b, w) && w.startKept && b.conflicts == {} && r.outcome == Unknown
    ensures forall i: nat :: Journaled(Checked(i)) in r.events <==> i < r.writes - 1
  {
    var k, before, tail, outcome := RunInFull(p, b, w);
    StoppedIsNotChecked(p, b, w, r, k, before, tail, outcome);
  }

  /** `unknown` means exactly that the last operation sent is unsettled; every one
      sent before it was settled and checked. */
  lemma UnknownIsUnsettled(p: Policy, b: Batch, w: World, r: PublicationResult)
    requires r == Publish(p, b, w)
    ensures r.outcome == Unknown <==> r.writes > 0 && UnsettledAt(b, w, r.writes - 1)
    ensures forall i: nat :: i < r.writes - 1 ==> !UnsettledAt(b, w, i)
    ensures r.outcome == Unknown ==> forall i: nat :: Journaled(Checked(i)) in r.events <==> i < r.writes - 1
  {
    if w.startKept && b.conflicts == {} {
      PublishTells(p, b, w, r);
      if r.outcome == Unknown { UnknownIsNotChecked(p, b, w, r); }
    } else {
      NothingSent(p, b, w, r);
    }
  }

  // ---- a conflict-free plan never lacks a reference ----

  /** When the run of a conflict-free plan stops because a binding's request cannot be built, an issue it needs was
      created earlier in this very run by an operation whose answer carried no integer identity. */
  lemma PlannedRequests(x: PlanInput, trial: bool, w: World) returns (k: nat, before: State)
    requires DraftsOf(x, trial) && Plan(x).conflicts == {} && w.startKept
    ensures EndsAt(x.policy, Plan(x), w, Publish(x.policy, Plan(x), w), k, before)
    ensures var ops := Plan(x).operations;
            k < |ops| && RequestFor(ops[k], before.refs).None? ==>
              ops[k].BindSubIssue?
              && exists j ::
                   && 0 <= j < k
                   && ops[j].CreateIssue?
                   && ops[j].target in {ops[k].child, ops[k].parent}
                   && !IntegerIdentity(w.reply(j))
  {
    var b := Plan(x);
    k, before := PublishShape(x.policy, b, w);
    if k < |b.operations| && RequestFor(b.operations[k], before.refs).None? {
      PlanIsExecutable(x, trial, b.operations, k);
      var j := UntoldCreate(b, w, k, before.refs);
    }
  }

  lemma UntoldCreate(b: Batch, w: World, k: nat, refs: map<Id, IssueRef>) returns (j: nat)
    requires k < |b.operations| && b.operations[k].BindSubIssue? && RequestFor(b.operations[k], refs).None?
             && refs == RefsBefore(b, w, k)
    requires AvailableAt(b.reused, b.operations, k, b.operations[k].child)
             && AvailableAt(b.reused, b.operations, k, b.operations[k].parent)
    ensures j < k && b.operations[j].CreateIssue?
            && b.operations[j].target in {b.operations[k].child, b.operations[k].parent} && !IntegerIdentity(w.reply(j))
  {
    RefsBeforeKnown(b, w, k);
    var id := if b.operations[k].child !in refs then b.operations[k].child else b.operations[k].parent;
    j :| 0 <= j < k && b.operations[j].CreateIssue? && b.operations[j].target == id;
    assert !CreatedAs(b, w, k, id, j);
  }
}
