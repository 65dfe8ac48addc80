/** The two forwarding threads of the relay, interleaved freely around the one locked recorder. */
module RelayRun {
  import opened Common
  import opened Capture

  /** Where a forwarder stands in its loop: it records a chunk before it delivers it. */
  datatype Thread = Reading | Holding(chunk: seq<Byte>) | Delivering(chunk: seq<Byte>) | AtEnd | Ended

  /** `dropped` counts the bytes that a short write to the child did not take. */
  datatype Relay = Relay(tape: Tape, threads: Per<Thread>, received: Per<seq<Byte>>, delivered: Per<seq<Byte>>,
                         dropped: Per<nat>, clock: int)

  /** One atomic step of one thread; the clock advances by any amount. The child's unbuffered input may take fewer bytes
      than it is given, which the forwarder does not look at; the parent's buffered output takes them all. */
  datatype Step =
    | Read(d: Direction, chunk: seq<Byte>)
    | SeeStop(d: Direction)
    | ReadRaises(d: Direction)
    | Commit(d: Direction, ticks: nat, fault: Fault)
    | Deliver(d: Direction, sent: nat)
    | DeliverRaises(d: Direction, sent: nat)
    | CommitEnd(d: Direction, ticks: nat, trace: Option<Trace>)

  const START := Relay(BLANK, Per(Reading, Reading), Per([], []), Per([], []), Per(0, 0), 0)

  /** What a write of `chunk` takes. */
  function Taken(d: Direction, chunk: seq<Byte>, sent: nat): (taken: seq<Byte>)
    ensures taken <= chunk
  {
    if d.ZedToAgent? && sent < |chunk| then chunk[..sent] else chunk
  }

  /** A step the thread cannot take changes nothing. */
  function Next(c: Config, r: Relay, step: Step): Relay {
    var d := step.d;
    match (step, r.threads.At(d))
    case (Read(_, chunk), Reading) =>
      if chunk == [] then r.(threads := r.threads.With(d, AtEnd))
      else r.(threads := r.threads.With(d, Holding(chunk)), received := r.received.With(d, r.received.At(d) + chunk))
    case (SeeStop(_), Reading) => r.(threads := r.threads.With(d, AtEnd))
    case (ReadRaises(_), Reading) => r.(threads := r.threads.With(d, Ended))
    case (Commit(_, ticks, fault), Holding(chunk)) =>
      var tape := RecordChunk(c, r.tape, d, chunk, r.clock + ticks, fault);
      r.(tape := tape, clock := r.clock + ticks,
         threads := r.threads.With(d, if tape.failed then Ended else Delivering(chunk)))
    case (Deliver(_, sent), Delivering(chunk)) =>
      var taken := Taken(d, chunk, sent);
      r.(threads := r.threads.With(d, Reading), delivered := r.delivered.With(d, r.delivered.At(d) + taken),
         dropped := r.dropped.With(d, r.dropped.At(d) + |chunk| - |taken|))
    case (DeliverRaises(_, sent), Delivering(chunk)) =>
      r.(threads := r.threads.With(d, Ended),
         delivered := r.delivered.With(d, r.delivered.At(d) + if sent < |chunk| then chunk[..sent] else chunk))
    case (CommitEnd(_, ticks, trace), AtEnd) =>
      r.(tape := RecordEof(c, r.tape, d, r.clock + ticks, trace), clock := r.clock + ticks,
         threads := r.threads.With(d, Ended))
    case _ => r
  }

  function Run(c: Config, steps: seq<Step>): Relay {
    if steps == [] then START else Next(c, Run(c, steps[..|steps| - 1]), steps[|steps| - 1])
  }

  predicate HasEof(index: seq<Line>, d: Direction) {
    exists i :: 0 <= i < |index| && index[i].Whole? && index[i].entry.tag == Eof(d)
  }

  /** The summary written at the end: the recorder's totals, the end markers found in the index, and the two digests. */
  function SummaryOf(v: Verifier, argv: seq<string>, c: Config, t: Tape): Summary {
    Summary(SCHEMA_SUMMARY, c.runId, Some(argv), Some(v.argvSha(argv)), Some(v.relaySha), true, true,
            Per(t.offsets.zed, t.offsets.agent), Per(HasEof(t.index, ZedToAgent), HasEof(t.index, AgentToZed)))
  }

  // ---- what every interleaving keeps ----

  /** The bytes the recorder has committed: those its offset covers. */
  function Committed(t: Tape, d: Direction): seq<Byte> {
    if t.offsets.At(d) <= |t.raw.At(d)| then t.raw.At(d)[..t.offsets.At(d)] else t.raw.At(d)
  }

  /** All of `committed` was delivered but for the dropped bytes. */
  predicate Reached(delivered: seq<Byte>, committed: seq<Byte>, dropped: nat) {
    |delivered| + dropped == |committed| && (dropped == 0 ==> delivered == committed)
  }

  predicate InStep(thread: Thread, committed: seq<Byte>, received: seq<Byte>, delivered: seq<Byte>, dropped: nat) {
    match thread
    case Holding(chunk) => chunk != [] && Reached(delivered, committed, dropped) && received == committed + chunk
    case Delivering(chunk) =>
      && |chunk| <= |committed| && committed[|committed| - |chunk|..] == chunk
      && Reached(delivered, committed[..|committed| - |chunk|], dropped) && received == committed
    case Ended =>
      |delivered| + dropped <= |committed| && (dropped == 0 ==> delivered <= committed) && committed <= received
    case _ => Reached(delivered, committed, dropped) && committed == received
  }

  ghost predicate DirectionSound(r: Relay, d: Direction) {
    && r.tape.offsets.At(d) <= |r.tape.raw.At(d)|
    && InStep(r.threads.At(d), Committed(r.tape, d), r.received.At(d), r.delivered.At(d), r.dropped.At(d))
    && (HasEof(r.tape.index, d) ==>
          r.threads.At(d).Ended? && Reached(r.delivered.At(d), Committed(r.tape, d), r.dropped.At(d))
          && Committed(r.tape, d) == r.received.At(d))
  }

  /** A failed recorder either still holds a faithful capture, or left a direction that can never record its end. */
  ghost predicate TapeSound(c: Config, r: Relay) {
    && (!r.tape.failed ==> Healthy(c, r.tape, r.clock))
    && (r.tape.failed ==>
          Faithful(c, r.tape, r.clock) || exists d :: r.threads.At(d).Ended? && !HasEof(r.tape.index, d))
  }

  ghost predicate Sound(c: Config, r: Relay) {
    TapeSound(c, r) && forall d :: DirectionSound(r, d)
  }

  lemma HasEofAppend(index: seq<Line>, l: Line, d: Direction)
    ensures HasEof(index + [l], d) <==> HasEof(index, d) || (l.Whole? && l.entry.tag == Eof(d))
  {
    var all := index + [l];
    forall i | 0 <= i < |index| ensures all[i] == index[i] {}
    assert all[|index|] == l;
  }

  lemma ThreadCommits(chunk: seq<Byte>, committed: seq<Byte>, received: seq<Byte>, delivered: seq<Byte>, dropped: nat)
    requires InStep(Holding(chunk), committed, received, delivered, dropped)
    ensures InStep(Delivering(chunk), committed + chunk, received, delivered, dropped)
            && InStep(Ended, committed, received, delivered, dropped)
  {
    assert (committed + chunk)[..|committed|] == committed;
  }

  /** What a commit does to the committed bytes: it adds the chunk, or nothing when it fails. */
  lemma CommitAdds(c: Config, t: Tape, d: Direction, chunk: seq<Byte>, now: int, fault: Fault, x: Direction)
    requires !t.failed ==> |t.raw.At(x)| == t.offsets.At(x)
    requires t.offsets.At(x) <= |t.raw.At(x)|
    ensures var t' := RecordChunk(c, t, d, chunk, now, fault);
            && t'.offsets.At(x) <= |t'.raw.At(x)|
            && Committed(t', x) == (if !t'.failed && x == d then Committed(t, x) + chunk else Committed(t, x))
  {
    var t' := RecordChunk(c, t, d, chunk, now, fault);
    if !t'.failed && x == d {
      assert Committed(t, x) == t.raw.At(x) && Committed(t', x) == t'.raw.At(x);
    } else {
      assert t'.raw.At(x)[..t.offsets.At(x)] == t.raw.At(x)[..t.offsets.At(x)];
    }
  }

  lemma CommitEndsNothing(c: Config, t: Tape, d: Direction, chunk: seq<Byte>, now: int, fault: Fault, x: Direction)
    ensures HasEof(RecordChunk(c, t, d, chunk, now, fault).index, x) <==> HasEof(t.index, x)
  {
    HasEofAppend(t.index, Whole(ChunkEntry(c, t, d, chunk, now)), x);
    HasEofAppend(t.index, Torn, x);
  }

  lemma CommitKeepsDirections(c: Config, r: Relay, step: Step, x: Direction)
    requires DirectionSound(r, x) && step.Commit? && r.threads.At(step.d).Holding?
             && (!r.tape.failed ==> |r.tape.raw.At(x)| == r.tape.offsets.At(x))
    ensures DirectionSound(Next(c, r, step), x)
  {
    var chunk := r.threads.At(step.d).chunk;
    CommitAdds(c, r.tape, step.d, chunk, r.clock + step.ticks, step.fault, x);
    CommitEndsNothing(c, r.tape, step.d, chunk, r.clock + step.ticks, step.fault, x);
    if x == step.d { ThreadCommits(chunk, Committed(r.tape, x), r.received.At(x), r.delivered.At(x), r.dropped.At(x)); }
  }

  lemma CommitKeepsTape(c: Config, r: Relay, step: Step)
    requires Sound(c, r) && step.Commit? && r.threads.At(step.d).Holding?
    ensures TapeSound(c, Next(c, r, step))
  {
    assert DirectionSound(r, step.d);
    var chunk := r.threads.At(step.d).chunk;
    var r' := Next(c, r, step);
    if !r.tape.failed && step.fault.Fine? {
      ChunkKeepsFaithful(c, r.tape, step.d, chunk, r.clock, r.clock + step.ticks);
    } else {
      var e := ChunkEntry(c, r.tape, step.d, chunk, r.clock + step.ticks);
      HasEofAppend(r.tape.index, Whole(e), step.d);
      HasEofAppend(r.tape.index, Torn, step.d);
      assert r'.threads.At(step.d).Ended? && !HasEof(r'.tape.index, step.d);
    }
  }

  lemma EndKeepsDirections(c: Config, r: Relay, step: Step, x: Direction)
    requires Sound(c, r) && step.CommitEnd? && r.threads.At(step.d).AtEnd?
    ensures DirectionSound(Next(c, r, step), x)
  {
    assert DirectionSound(r, x);
    var e := EofEntry(c, r.tape, step.d, r.clock + step.ticks);
    HasEofAppend(r.tape.index, Whole(e), x);
    HasEofAppend(r.tape.index, Torn, x);
    assert Committed(Next(c, r, step).tape, x) == Committed(r.tape, x);
  }

  /** An end marker that stands in the index leaves a faithful capture, confirmed or not. */
  lemma StandingEndIsFaithful(c: Config, t: Tape, d: Direction, clock: int, now: int, trace: Option<Trace>)
    requires Healthy(c, t, clock) && clock <= now && (trace == None || trace == Some(Stands))
    ensures Faithful(c, RecordEof(c, t, d, now, trace), now)
            && (trace.None? ==> Healthy(c, RecordEof(c, t, d, now, trace), now))
  {
    EofKeepsFaithful(c, t, d, clock, now);
    assert RecordEof(c, t, d, now, trace).index == RecordEof(c, t, d, now, None).index;
  }

  lemma LostEndIsMissing(c: Config, t: Tape, d: Direction, now: int, trace: Option<Trace>)
    requires (t.failed || trace == Some(Lost) || trace == Some(Partial)) && !HasEof(t.index, d)
    ensures !HasEof(RecordEof(c, t, d, now, trace).index, d)
  {
    HasEofAppend(t.index, Torn, d);
  }

  lemma EndKeepsTape(c: Config, r: Relay, step: Step)
    requires Sound(c, r) && step.CommitEnd? && r.threads.At(step.d).AtEnd?
    ensures TapeSound(c, Next(c, r, step))
  {
    var r' := Next(c, r, step);
    if !r.tape.failed && (step.trace.None? || step.trace == Some(Stands)) {
      StandingEndIsFaithful(c, r.tape, step.d, r.clock, r.clock + step.ticks, step.trace);
    } else {
      assert DirectionSound(r, step.d);
      LostEndIsMissing(c, r.tape, step.d, r.clock + step.ticks, step.trace);
      assert r'.threads.At(step.d).Ended? && !HasEof(r'.tape.index, step.d);
    }
  }

  lemma DeliverKeeps(c: Config, r: Relay, step: Step, x: Direction)
    requires DirectionSound(r, x) && (step.Deliver? || step.DeliverRaises?)
    ensures DirectionSound(Next(c, r, step), x)
  {
    if x == step.d && r.threads.At(x).Delivering? {
      var chunk, committed := r.threads.At(x).chunk, Committed(r.tape, x);
      assert committed == committed[..|committed| - |chunk|] + chunk;
    }
  }

  /** The steps that do not touch the recorder. */
  lemma OtherStepKeeps(c: Config, r: Relay, step: Step)
    requires Sound(c, r) && !step.Commit? && !step.CommitEnd?
    ensures Sound(c, Next(c, r, step))
  {
    var r' := Next(c, r, step);
    assert r'.tape == r.tape && r'.clock == r.clock;
    forall x ensures DirectionSound(r', x) && (r.threads.At(x).Ended? ==> r'.threads.At(x).Ended?) {
      assert DirectionSound(r, x) && DirectionSound(r, step.d);
      if step.Deliver? || step.DeliverRaises? { DeliverKeeps(c, r, step, x); }
    }
    if r.tape.failed && !Faithful(c, r.tape, r.clock) {
      var d :| r.threads.At(d).Ended? && !HasEof(r.tape.index, d);
      assert r'.threads.At(d).Ended?;
    }
  }

  lemma NextKeepsSound(c: Config, r: Relay, step: Step)
    requires Sound(c, r)
    ensures Sound(c, Next(c, r, step))
  {
    if step.Commit? && r.threads.At(step.d).Holding? {
      CommitKeepsTape(c, r, step);
      forall x ensures DirectionSound(Next(c, r, step), x) {
        assert DirectionSound(r, x);
        assert !r.tape.failed ==> |r.tape.raw.At(x)| == r.tape.offsets.At(x);
        CommitKeepsDirections(c, r, step, x);
      }
    } else if step.CommitEnd? && r.threads.At(step.d).AtEnd? {
      EndKeepsTape(c, r, step);
      forall x ensures DirectionSound(Next(c, r, step), x) { EndKeepsDirections(c, r, step, x); }
    } else if !step.Commit? && !step.CommitEnd? {
      OtherStepKeeps(c, r, step);
    }
  }

  lemma {:induction false} RunSound(c: Config, steps: seq<Step>)
    ensures Sound(c, Run(c, steps))
  {
    if steps != [] {
      RunSound(c, steps[..|steps| - 1]);
      NextKeepsSound(c, Run(c, steps[..|steps| - 1]), steps[|steps| - 1]);
    } else {
      assert Faithful(c, BLANK, 0);
    }
  }

  // ---- the theorems ----

  /** In every interleaving the bytes committed by the recorder are a prefix both of the raw file and of what was read,
      and those delivered to a peer are a prefix of the committed ones as long as no short write dropped a byte. */
  lemma DeliveredIsCommitted(c: Config, steps: seq<Step>, d: Direction)
    ensures var r := Run(c, steps);
            && r.tape.offsets.At(d) <= |r.tape.raw.At(d)|
            && r.tape.raw.At(d)[..r.tape.offsets.At(d)] <= r.received.At(d)
            && |r.delivered.At(d)| + r.dropped.At(d) <= r.tape.offsets.At(d)
            && (r.dropped.At(d) == 0 ==> r.delivered.At(d) <= r.tape.raw.At(d)[..r.tape.offsets.At(d)])
  {
    RunSound(c, steps);
    assert DirectionSound(Run(c, steps), d);
  }

  /** The step writes a chunk of this direction of which not all bytes are taken. */
  predicate ShortWrite(c: Config, steps: seq<Step>, i: nat, d: Direction)
    requires i < |steps|
  {
    var thread := Run(c, steps[..i]).threads.At(d);
    steps[i].Deliver? && steps[i].d == d && thread.Delivering? && Taken(d, thread.chunk, steps[i].sent) != thread.chunk
  }

  lemma DropsIfShort(c: Config, r: Relay, step: Step, d: Direction)
    ensures var thread := r.threads.At(d);
            Next(c, r, step).dropped.At(d) > r.dropped.At(d) <==>
              step.Deliver? && step.d == d && thread.Delivering? && Taken(d, thread.chunk, step.sent) != thread.chunk
    ensures Next(c, r, step).dropped.At(d) >= r.dropped.At(d)
  {
  }

  /** Bytes are dropped exactly when some write was short, so never towards the parent. */
  lemma {:induction false} DroppedIffShortWrite(c: Config, steps: seq<Step>, d: Direction)
    ensures Run(c, steps).dropped.At(d) == 0 <==> forall i: nat :: i < |steps| ==> !ShortWrite(c, steps, i, d)
    ensures d.AgentToZed? ==> Run(c, steps).dropped.At(d) == 0
  {
    if steps != [] {
      var n := |steps| - 1;
      var front := steps[..n];
      DroppedIffShortWrite(c, front, d);
      forall i: nat | i < n
        ensures ShortWrite(c, front, i, d) <==> ShortWrite(c, steps, i, d)
      {
        assert front[..i] == steps[..i];
      }
      DropsIfShort(c, Run(c, front), steps[n], d);
      assert ShortWrite(c, steps, n, d) <==> Run(c, steps).dropped.At(d) > Run(c, front).dropped.At(d);
    }
  }

  /** After one recorder failure nothing is recorded any more, in either direction. */
  lemma {:induction false} FailureIsFinal(c: Config, steps: seq<Step>, more: seq<Step>)
    requires Run(c, steps).tape.failed
    ensures Run(c, steps + more).tape == Run(c, steps).tape
  {
    if more == [] {
      assert steps + more == steps;
    } else {
      FailureIsFinal(c, steps, more[..|more| - 1]);
      assert (steps + more)[..|steps + more| - 1] == steps + more[..|more| - 1];
    }
  }

  lemma EofsFound(c: Config, raw: Per<seq<Byte>>, index: seq<Line>, d: Direction)
    requires AllWhole(index) && ScanAll(c, raw, Entries(index)).Scan?
    ensures ScanAll(c, raw, Entries(index)).eofs.At(d) <==> HasEof(index, d)
  {
    ScanTiles(c, raw, Entries(index), d);
    var entries := Entries(index);
    if HasEof(index, d) {
      var i :| 0 <= i < |index| && index[i].Whole? && index[i].entry.tag == Eof(d);
      assert entries[i] in entries;
    }
    if e :| e in entries && e.tag == Eof(d) {
      var i :| 0 <= i < |entries| && entries[i] == e;
      assert index[i] == Whole(e);
    }
  }

  lemma FaithfulVerifies(v: Verifier, c: Config, t: Tape, clock: int, m: Summary)
    requires Faithful(c, t, clock) && c == RunOf(v, m) && SummarySound(v, m)
             && m.bytes == Per(t.offsets.zed, t.offsets.agent)
    requires forall d :: HasEof(t.index, d) ==> m.eofs.At(d)
    ensures Verify(v, m, t.raw, t.index).None? <==> HasEof(t.index, ZedToAgent) && HasEof(t.index, AgentToZed)
  {
    EofsFound(c, t.raw, t.index, ZedToAgent);
    EofsFound(c, t.raw, t.index, AgentToZed);
  }

  lemma BothEndedIsFaithful(c: Config, r: Relay, d: Direction)
    requires Sound(c, r) && HasEof(r.tape.index, ZedToAgent) && HasEof(r.tape.index, AgentToZed)
    ensures Faithful(c, r.tape, r.clock)
    ensures r.tape.raw.At(d) == r.received.At(d) && Reached(r.delivered.At(d), r.tape.raw.At(d), r.dropped.At(d))
  {
    forall x: Direction ensures HasEof(r.tape.index, x) {}
    assert DirectionSound(r, d);
    assert Faithful(c, r.tape, r.clock);
    assert |r.tape.raw.At(d)| == r.tape.offsets.At(d);
  }

  /** Each raw file is all that was read in its direction, and all that was delivered exactly if nothing was dropped. */
  ghost predicate Complete(r: Relay) {
    forall d: Direction ::
      && r.tape.raw.At(d) == r.received.At(d) && |r.delivered.At(d)| + r.dropped.At(d) == |r.received.At(d)|
      && (r.delivered.At(d) == r.received.At(d) <==> r.dropped.At(d) == 0)
  }

  /** The capture of any run, with the summary the relay writes for it, is accepted exactly when the run has an id and
      both end markers reached its index; then it is complete. */
  lemma AcceptedIffBothEnded(v: Verifier, argv: seq<string>, c: Config, steps: seq<Step>, r: Relay)
    requires r == Run(c, steps) && c.sha == v.sha
    ensures Verify(v, SummaryOf(v, argv, c, r.tape), r.tape.raw, r.tape.index).None? <==>
              c.runId != "" && HasEof(r.tape.index, ZedToAgent) && HasEof(r.tape.index, AgentToZed)
    ensures Verify(v, SummaryOf(v, argv, c, r.tape), r.tape.raw, r.tape.index).None? ==> Complete(r)
  {
    RunSound(c, steps);
    if c.runId != "" && HasEof(r.tape.index, ZedToAgent) && HasEof(r.tape.index, AgentToZed) {
      forall d: Direction
        ensures r.tape.raw.At(d) == r.received.At(d) && Reached(r.delivered.At(d), r.tape.raw.At(d), r.dropped.At(d))
      {
        BothEndedIsFaithful(c, r, d);
      }
      BothEndedIsFaithful(c, r, ZedToAgent);
      FaithfulVerifies(v, c, r.tape, r.clock, SummaryOf(v, argv, c, r.tape));
    } else {
      assert Verify(v, SummaryOf(v, argv, c, r.tape), r.tape.raw, r.tape.index).Some?;
    }
  }

  // ---- two runs worth knowing ----

  lemma OneMore(c: Config, steps: seq<Step>, step: Step)
    ensures Run(c, steps + [step]) == Next(c, Run(c, steps), step)
  {
    assert (steps + [step])[..|steps|] == steps;
  }

  /** Both directions end at once, and the last end marker is in the index although its write raised. */
  lemma FailedAndAccepted(v: Verifier, argv: seq<string>, c: Config) returns (steps: seq<Step>)
    requires c.sha == v.sha && c.runId != ""
    ensures Run(c, steps).tape.failed
    ensures var t := Run(c, steps).tape; Verify(v, SummaryOf(v, argv, c, t), t.raw, t.index).None?
  {
    var a, b := Read(ZedToAgent, []), CommitEnd(ZedToAgent, 0, None);
    var x, y := Read(AgentToZed, []), CommitEnd(AgentToZed, 0, Some(Stands));
    steps := [] + [a] + [b] + [x] + [y];
    OneMore(c, [], a);
    OneMore(c, [] + [a], b);
    OneMore(c, [] + [a] + [b], x);
    OneMore(c, [] + [a] + [b] + [x], y);
    var index := Run(c, steps).tape.index;
    assert |index| == 2 && index[0].entry.tag == Eof(ZedToAgent) && index[1].entry.tag == Eof(AgentToZed);
    AcceptedIffBothEnded(v, argv, c, steps, Run(c, steps));
  }

  ghost predicate PassedOn(r: Relay, r': Relay, chunk: seq<Byte>, sent: nat) {
    && r'.threads.zed == Reading && !r'.tape.failed && r'.tape.raw.zed == r.tape.raw.zed + chunk
    && r'.tape.offsets.zed == r.tape.offsets.zed + |chunk|
    && r'.delivered.zed == r.delivered.zed + Taken(ZedToAgent, chunk, sent)
    && r'.dropped.zed == r.dropped.zed + |chunk| - |Taken(ZedToAgent, chunk, sent)|
  }

  lemma ChunkPasses(c: Config, r: Relay, chunk: seq<Byte>, sent: nat)
    requires r.threads.zed == Reading && !r.tape.failed && chunk != []
    ensures PassedOn(r,
                     Next(c, Next(c, Next(c, r, Read(ZedToAgent, chunk)), Commit(ZedToAgent, 0, Fine)),
                          Deliver(ZedToAgent, sent)), chunk, sent)
  {
    var held := Next(c, r, Read(ZedToAgent, chunk));
    assert held.threads.zed == Holding(chunk) && held.tape == r.tape && held.delivered == r.delivered
           && held.dropped == r.dropped;
    var recorded := Next(c, held, Commit(ZedToAgent, 0, Fine));
    assert recorded.threads.zed == Delivering(chunk) && recorded.delivered == r.delivered
           && recorded.dropped == r.dropped;
  }

  /** Reading, committing and writing one chunk. */
  lemma OneChunk(c: Config, steps: seq<Step>, chunk: seq<Byte>, sent: nat) returns (more: seq<Step>)
    requires Run(c, steps).threads.zed == Reading && !Run(c, steps).tape.failed && chunk != []
    ensures PassedOn(Run(c, steps), Run(c, more), chunk, sent)
  {
    var a, b, e := Read(ZedToAgent, chunk), Commit(ZedToAgent, 0, Fine), Deliver(ZedToAgent, sent);
    more := steps + [a] + [b] + [e];
    OneMore(c, steps, a);
    OneMore(c, steps + [a], b);
    OneMore(c, steps + [a] + [b], e);
    ChunkPasses(c, Run(c, steps), chunk, sent);
  }

  /** A short write and a later chunk: what the child received is no prefix of what was committed. */
  lemma ShortWriteSkips(c: Config) returns (steps: seq<Step>)
    ensures var r := Run(c, steps);
            && r.dropped.zed == 1 && r.delivered.zed == [1, 3] && r.tape.raw.zed == [1, 2, 3] && r.tape.offsets.zed == 3
            && !(r.delivered.zed <= r.tape.raw.zed)
  {
    steps := OneChunk(c, [], [1, 2], 1);
    steps := OneChunk(c, steps, [3], 1);
    var r := Run(c, steps);
    assert r.delivered.zed == [1, 3] && r.tape.raw.zed == [1, 2, 3];
    assert r.delivered.zed[1] != r.tape.raw.zed[1];
  }

  // ---- any use of the recorder, not only that of the two forwarders ----

  datatype Call = PutChunk(d: Direction, chunk: seq<Byte>, ticks: nat) | PutEof(d: Direction, ticks: nat)

  function Put(c: Config, t: Tape, clock: int, call: Call): Tape {
    match call
    case PutChunk(d, chunk, ticks) => RecordChunk(c, t, d, chunk, clock + ticks, Fine)
    case PutEof(d, ticks) => RecordEof(c, t, d, clock + ticks, None)
  }

  /** A failure-free sequence of recorder calls with a clock that never goes back. */
  function Recorded(c: Config, calls: seq<Call>): (Tape, int) {
    if calls == [] then (BLANK, 0)
    else
      var (t, clock) := Recorded(c, calls[..|calls| - 1]);
      (Put(c, t, clock, calls[|calls| - 1]), clock + calls[|calls| - 1].ticks)
  }

  predicate Ends(calls: seq<Call>, d: Direction) {
    exists i :: 0 <= i < |calls| && calls[i].PutEof? && calls[i].d == d
  }

  lemma PutKeeps(c: Config, t: Tape, clock: int, call: Call)
    requires Healthy(c, t, clock)
    ensures Healthy(c, Put(c, t, clock, call), clock + call.ticks)
  {
    match call {
      case PutChunk(d, chunk, ticks) => ChunkKeepsFaithful(c, t, d, chunk, clock, clock + ticks);
      case PutEof(d, ticks) => EofKeepsFaithful(c, t, d, clock, clock + ticks);
    }
  }

  lemma PutMarks(c: Config, t: Tape, clock: int, call: Call, d: Direction)
    requires !t.failed
    ensures HasEof(Put(c, t, clock, call).index, d) <==> HasEof(t.index, d) || (call.PutEof? && call.d == d)
  {
    match call {
      case PutChunk(of, chunk, ticks) => HasEofAppend(t.index, Whole(ChunkEntry(c, t, of, chunk, clock + ticks)), d);
      case PutEof(of, ticks) => HasEofAppend(t.index, Whole(EofEntry(c, t, of, clock + ticks)), d);
    }
  }

  lemma {:induction false} RecordedIsHealthy(c: Config, calls: seq<Call>)
    ensures Healthy(c, Recorded(c, calls).0, Recorded(c, calls).1)
  {
    if calls == [] {
      assert Faithful(c, BLANK, 0);
    } else {
      var front := calls[..|calls| - 1];
      RecordedIsHealthy(c, front);
      PutKeeps(c, Recorded(c, front).0, Recorded(c, front).1, calls[|calls| - 1]);
    }
  }

  lemma {:induction false} RecordedMarks(c: Config, calls: seq<Call>, d: Direction)
    ensures HasEof(Recorded(c, calls).0.index, d) <==> Ends(calls, d)
  {
    if calls != [] {
      var front, last := calls[..|calls| - 1], calls[|calls| - 1];
      RecordedMarks(c, front, d);
      assert !Recorded(c, front).0.failed by { RecordedIsHealthy(c, front); }
      PutMarks(c, Recorded(c, front).0, Recorded(c, front).1, last, d);
      assert forall i :: 0 <= i < |front| ==> calls[i] == front[i];
      assert Ends(calls, d) <==> Ends(front, d) || (last.PutEof? && last.d == d);
    }
  }

  /** Whatever is recorded in whatever order without a failure is accepted, under a run id, as soon as both directions
      have an end record. */
  lemma RecordedIsAccepted(v: Verifier, argv: seq<string>, c: Config, calls: seq<Call>, t: Tape)
    requires t == Recorded(c, calls).0 && c.sha == v.sha && c.runId != ""
    ensures Verify(v, SummaryOf(v, argv, c, t), t.raw, t.index).None? <==>
              Ends(calls, ZedToAgent) && Ends(calls, AgentToZed)
  {
    RecordedIsHealthy(c, calls);
    RecordedMarks(c, calls, ZedToAgent);
    RecordedMarks(c, calls, AgentToZed);
    FaithfulVerifies(v, c, t, Recorded(c, calls).1, SummaryOf(v, argv, c, t));
  }
}
