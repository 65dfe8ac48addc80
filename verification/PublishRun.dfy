/** The publication loop as it runs: a journal that keeps every record in memory and may fail to put one on disk, and a
    client that is asked once per operation. */
module PublishRun {
  import opened Common
  import opened Planner
  import opened Publication

  function Records(events: seq<Event>): seq<Step> {
    if events == [] then []
    else Records(events[..|events| - 1]) + (var e := events[|events| - 1]; if e.Sent? then [] else [e.step])
  }

  function Durable(events: seq<Event>): seq<Step> {
    if events == [] then []
    else Durable(events[..|events| - 1]) + (var e := events[|events| - 1]; if e.Journaled? then [e.step] else [])
  }

  /** The journal is whole exactly when every record in memory reached the disk. */
  lemma {:induction false} AllOnDisk(events: seq<Event>)
    ensures |Durable(events)| <= |Records(events)|
    ensures JournalWhole(events) <==> |Durable(events)| == |Records(events)|
  {
    if events != [] {
      var front, last := events[..|events| - 1], events[|events| - 1];
      AllOnDisk(front);
      assert events == front + [last];
      assert forall e :: e in events <==> e in front || e == last;
    }
  }

  lemma LastRecord(events: seq<Event>, all: seq<Event>)
    requires |all| > 0 && events == all[..|all| - 1]
    ensures JournalWhole(all) <==> JournalWhole(events) && !all[|all| - 1].Unjournaled?
  {
    var last := all[|all| - 1];
    assert all == events + [last];
    assert forall e :: e in all <==> e in events || e == last;
  }

  lemma RecordJoins(events: seq<Event>, step: Step, e: Event)
    requires e == Journaled(step) || e == Unjournaled(step)
    ensures Records(events + [e]) == Records(events) + [step]
    ensures Durable(events + [e]) == Durable(events) + if e.Journaled? then [step] else []
    ensures JournalWhole(events + [e]) <==> JournalWhole(events) && e.Journaled?
  {
    assert (events + [e])[..|events|] == events;
    LastRecord(events, events + [e]);
  }

  lemma SendIsNotARecord(events: seq<Event>, e: Event)
    requires e.Sent?
    ensures Records(events + [e]) == Records(events) && Durable(events + [e]) == Durable(events)
    ensures JournalWhole(events + [e]) == JournalWhole(events)
  {
    assert (events + [e])[..|events|] == events;
    LastRecord(events, events + [e]);
  }

  /** An operation whose intent is on disk goes on with the state after its write. */
  lemma SendsThenSettles(p: Policy, w: World, i: nat, op: Operation, s: State, request: Request, sent: State)
    requires !StoppedBefore(p, w, i, op, s) && RequestFor(op, s.refs) == Some(request) && w.intentKept(i)
    requires sent == State(s.refs, s.writes + 1, s.events + [Journaled(Intent(i, request))] + [Sent(i, request)])
    ensures RunOperation(p, w, i, op, s) == AfterSend(w, i, op, sent)
  {
  }

  class Journal {
    var records: seq<Step>
    var onDisk: seq<Step>
    var journalOk: bool

    constructor ()
      ensures records == [] && onDisk == [] && Tells([], [], [])
    {
      records, onDisk, journalOk := [], [], true;
    }

    /** What the journal held before the run, and after it the records of the run's events. */
    ghost predicate Tells(held: seq<Step>, kept: seq<Step>, events: seq<Event>)
      reads this
    {
      records == held + Records(events) && onDisk == kept + Durable(events) && journalOk == JournalWhole(events)
    }

    /** A record joins the list in memory before the file is written, so a failed write leaves it there. */
    method Write(step: Step, flushed: bool, events: seq<Event>, ghost held: seq<Step>, ghost kept: seq<Step>)
      returns (events': seq<Event>)
      requires Tells(held, kept, events)
      modifies this
      ensures events' == events + [if flushed then Journaled(step) else Unjournaled(step)] && Tells(held, kept, events')
    {
      var event := if flushed then Journaled(step) else Unjournaled(step);
      events' := events + [event];
      RecordJoins(events, step, event);
      records := records + [step];
      assert records == held + (Records(events) + [step]);
      if flushed {
        onDisk := onDisk + [step];
        assert onDisk == kept + (Durable(events) + [step]);
      } else {
        journalOk := false;
      }
    }

    method Finish(w: World, s: State, outcome: Outcome, ghost held: seq<Step>, ghost kept: seq<Step>)
      returns (r: PublicationResult)
      requires Tells(held, kept, s.events)
      modifies this
      ensures r == Publication.Finish(w, s, outcome) && Tells(held, kept, r.events)
    {
      var events := Write(Finished(outcome), w.outcomeKept, s.events, held, kept);
      r := PublicationResult(if outcome.Pass? && !w.outcomeKept then Incomplete else outcome,
                             s.writes, map id | id in s.refs :: s.refs[id].number, journalOk, events);
    }

    /** Everything up to the write: nothing has been sent when this fails. */
    method Prepare(p: Policy, w: World, index: nat, op: Operation, s: State) returns (request: Option<Request>)
      ensures request == (if StoppedBefore(p, w, index, op, s) then None else RequestFor(op, s.refs))
      ensures request.Some? <==> !StoppedBefore(p, w, index, op, s)
    {
      request := RequestFor(op, s.refs);
      if request.None? { return; }
      if op.UpdateIssue? {
        if w.readBefore(index).None? || Fingerprint(p, w.readBefore(index).value) != op.expected { return None; }
      }
      if s.writes > 0 && !w.pauseEnds(index) { return None; }
    }

    /** What follows a write, by the stage `AfterSend` specifies. */
    method Settle(w: World, index: nat, op: Operation, sent: State, ghost held: seq<Step>, ghost kept: seq<Step>)
      returns (stage: Stage)
      requires Tells(held, kept, sent.events)
      modifies this
      ensures stage == AfterSend(w, index, op, sent) && Tells(held, kept, stage.state.events)
    {
      var reply := w.reply(index);
      if reply.Raised? { return Stop(sent, Unknown); }
      var refs := sent.refs;
      if op.CreateIssue? && reply.Object? && reply.number.Some? && reply.id.Some? {
        refs := refs[op.target := IssueRef(reply.number.value, reply.id.value)];
      }
      var events := Write(Result(index), w.resultKept(index), sent.events, held, kept);
      var heard := State(refs, sent.writes, events);
      if !w.resultKept(index) { return Stop(heard, Unknown); }
      var check := CheckResult(w, index, op, refs);
      if !check.Matches? { return Stop(heard, if check.CheckRaised? then Unknown else Failed); }
      events := Write(Checked(index), w.checkedKept(index), events, held, kept);
      stage := if w.checkedKept(index)
               then Continue(heard.(events := events))
               else Stop(heard.(events := events), Failed);
    }

    /** One operation: the next state when it settles, or the outcome the run stops with. */
    method PublishOne(p: Policy, w: World, index: nat, op: Operation, s: State, ghost held: seq<Step>,
                      ghost kept: seq<Step>) returns (stage: Stage)
      requires Tells(held, kept, s.events)
      modifies this
      ensures stage == RunOperation(p, w, index, op, s) && Tells(held, kept, stage.state.events)
    {
      var request := Prepare(p, w, index, op, s);
      if request.None? { return Stop(s, Failed); }
      var events := Write(Intent(index, request.value), w.intentKept(index), s.events, held, kept);
      if !w.intentKept(index) { return Stop(s.(events := events), Failed); }
      var sent := State(s.refs, s.writes + 1, events + [Sent(index, request.value)]);
      SendIsNotARecord(events, Sent(index, request.value));
      SendsThenSettles(p, w, index, op, s, request.value, sent);
      stage := Settle(w, index, op, sent, held, kept);
    }

    method PublishBatch(p: Policy, b: Batch, w: World) returns (r: PublicationResult)
      modifies this
      ensures r == Publish(p, b, w)
      ensures records == old(records) + Records(r.events) && onDisk == old(onDisk) + Durable(r.events)
    {
      ghost var held, kept := records, onDisk;
      journalOk := true;
      var events := Write(Start, w.startKept, [], held, kept);
      var s := State(b.reused, 0, events);
      if !w.startKept {
        r := Finish(w, s, Failed, held, kept);
        return;
      }
      if b.conflicts != {} {
        r := Finish(w, s, Outcome.Refused, held, kept);
        return;
      }
      for index := 0 to |b.operations|
        invariant Tells(held, kept, s.events) && RunFrom(p, b, w, index, s) == Publish(p, b, w)
      {
        var stage := PublishOne(p, w, index, b.operations[index], s, held, kept);
        if stage.Stop? {
          r := Finish(w, stage.state, stage.outcome, held, kept);
          return;
        }
        s := stage.state;
      }
      r := Finish(w, s, Pass, held, kept);
    }
  }
}
