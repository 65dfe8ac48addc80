/** Exactly when the bytes a peer received follow the recorded ones: when nothing
    is taken after the first short write. */
module DeliveryLaw {
  import opened Common
  import opened Capture
  import opened RelayRun

  /** What the peer received is a beginning of what the recorder committed. */
  predicate Follows(r: Relay, d: Direction) {
    r.delivered.At(d) <= Committed(r.tape, d)
  }

  /** The step hands the peer bytes although bytes before them were dropped. */
  predicate TakenAfterDrop(c: Config, steps: seq<Step>, i: nat, d: Direction)
    requires i < |steps|
  {
    Run(c, steps[..i]).dropped.At(d) > 0 && Run(c, steps[..i + 1]).delivered.At(d) != Run(c, steps[..i]).delivered.At(d)
  }

  ghost predicate Orderly(c: Config, steps: seq<Step>, d: Direction) {
    forall i: nat :: i < |steps| ==> !TakenAfterDrop(c, steps, i, d)
  }

  // ---- where each delivered byte stood in the recorded stream ----

  /** How many bytes the step hands to the peer. */
  function TakenNow(r: Relay, step: Step, d: Direction): nat {
    if step.d != d || !r.threads.At(d).Delivering? then 0
    else if step.Deliver? then |Taken(d, r.threads.At(d).chunk, step.sent)|
    else if step.DeliverRaises? then
      (if step.sent < |r.threads.At(d).chunk| then step.sent else |r.threads.At(d).chunk|)
    else 0
  }

  /** Where the chunk being delivered starts. */
  function ChunkStart(r: Relay, d: Direction): int {
    if r.threads.At(d).Delivering? then r.tape.offsets.At(d) - |r.threads.At(d).chunk| else 0
  }

  function PlacesNow(r: Relay, step: Step, d: Direction): (places: seq<int>)
    ensures |places| == TakenNow(r, step, d) && forall i :: 0 <= i < |places| ==> places[i] == ChunkStart(r, d) + i
  {
    seq(TakenNow(r, step, d), i => ChunkStart(r, d) + i)
  }

  /** The places of the delivered bytes, in the order they were delivered. */
  function Places(c: Config, steps: seq<Step>, d: Direction): seq<int> {
    if steps == [] then []
    else
      var front := steps[..|steps| - 1];
      Places(c, front, d) + PlacesNow(Run(c, front), steps[|steps| - 1], d)
  }

  lemma StepDelivers(c: Config, r: Relay, step: Step, d: Direction)
    requires DirectionSound(r, d) && TakenNow(r, step, d) > 0
    ensures var n, start, committed := TakenNow(r, step, d), ChunkStart(r, d), Committed(r.tape, d);
            && start == |r.delivered.At(d)| + r.dropped.At(d) && start + n <= |committed|
            && Next(c, r, step).delivered.At(d) == r.delivered.At(d) + committed[start..start + n]
            && Next(c, r, step).tape == r.tape
  {
    var chunk, committed := r.threads.At(d).chunk, Committed(r.tape, d);
    assert committed[|committed| - |chunk|..] == chunk;
  }

  lemma StepDeliversNothing(c: Config, r: Relay, step: Step, d: Direction)
    requires TakenNow(r, step, d) == 0
    ensures Next(c, r, step).delivered.At(d) == r.delivered.At(d)
  {
  }

  lemma CommittedGrows(c: Config, r: Relay, step: Step, d: Direction)
    requires Sound(c, r)
    ensures Committed(r.tape, d) <= Committed(Next(c, r, step).tape, d)
  {
    assert DirectionSound(r, d);
    if step.Commit? && r.threads.At(step.d).Holding? {
      assert !r.tape.failed ==> |r.tape.raw.At(d)| == r.tape.offsets.At(d);
      CommitAdds(c, r.tape, step.d, r.threads.At(step.d).chunk, r.clock + step.ticks, step.fault, d);
    }
  }

  /** Each delivered byte is the committed one at its place, which is never before its own position. */
  ghost predicate PlacesFit(places: seq<int>, delivered: seq<Byte>, committed: seq<Byte>) {
    && |places| == |delivered|
    && forall k :: 0 <= k < |places| ==> k <= places[k] < |committed| && delivered[k] == committed[places[k]]
  }

  lemma PlacesFitMore(places: seq<int>, delivered: seq<Byte>, committed: seq<Byte>, now: seq<int>, start: nat,
                      after: seq<Byte>)
    requires PlacesFit(places, delivered, committed) && |delivered| <= start && start + |now| <= |committed|
    requires (forall i :: 0 <= i < |now| ==> now[i] == start + i)
             && after == delivered + committed[start..start + |now|]
    ensures PlacesFit(places + now, after, committed)
  {
  }

  lemma PlacesFitLonger(places: seq<int>, delivered: seq<Byte>, committed: seq<Byte>, longer: seq<Byte>)
    requires PlacesFit(places, delivered, committed) && committed <= longer
    ensures PlacesFit(places, delivered, longer)
  {
    forall k | 0 <= k < |places| ensures k <= places[k] < |longer| && delivered[k] == longer[places[k]] {
      assert longer[places[k]] == committed[places[k]];
    }
  }

  lemma {:induction false} PlacesMean(c: Config, steps: seq<Step>, d: Direction)
    ensures PlacesFit(Places(c, steps, d), Run(c, steps).delivered.At(d), Committed(Run(c, steps).tape, d))
  {
    if steps != [] {
      var front, last := steps[..|steps| - 1], steps[|steps| - 1];
      var r := Run(c, front);
      PlacesMean(c, front, d);
      RunSound(c, front);
      assert DirectionSound(r, d);
      if TakenNow(r, last, d) > 0 {
        StepDelivers(c, r, last, d);
        PlacesFitMore(Places(c, front, d), r.delivered.At(d), Committed(r.tape, d), PlacesNow(r, last, d),
                      ChunkStart(r, d), Next(c, r, last).delivered.At(d));
      } else {
        StepDeliversNothing(c, r, last, d);
        assert Places(c, steps, d) == Places(c, front, d);
        CommittedGrows(c, r, last, d);
        PlacesFitLonger(Places(c, front, d), r.delivered.At(d), Committed(r.tape, d),
                        Committed(Next(c, r, last).tape, d));
      }
    }
  }

  predicate InPlace(places: seq<int>) {
    forall k :: 0 <= k < |places| ==> places[k] == k
  }

  lemma OrderlyStep(c: Config, steps: seq<Step>, d: Direction)
    requires steps != []
    ensures var n := |steps| - 1; Orderly(c, steps, d) <==> Orderly(c, steps[..n], d) && !TakenAfterDrop(c, steps, n, d)
  {
    var n := |steps| - 1;
    forall i: nat | i < n ensures TakenAfterDrop(c, steps[..n], i, d) <==> TakenAfterDrop(c, steps, i, d) {
      assert steps[..n][..i] == steps[..i] && steps[..n][..i + 1] == steps[..i + 1];
    }
  }

  lemma InPlaceMore(places: seq<int>, now: seq<int>, start: int)
    requires forall i :: 0 <= i < |now| ==> now[i] == start + i
    ensures InPlace(places + now) <==> InPlace(places) && (|now| == 0 || start == |places|)
  {
    var all := places + now;
    assert forall k :: 0 <= k < |places| ==> all[k] == places[k];
    assert forall i :: 0 <= i < |now| ==> all[|places| + i] == now[i];
    if |now| > 0 { assert all[|places|] == start; }
  }

  /** Nothing is taken after a drop exactly when every delivered byte kept its position. */
  lemma {:induction false} OrderlyIffInPlace(c: Config, steps: seq<Step>, d: Direction)
    ensures Orderly(c, steps, d) <==> InPlace(Places(c, steps, d))
  {
    if steps != [] {
      var n := |steps| - 1;
      var r, last := Run(c, steps[..n]), steps[n];
      OrderlyIffInPlace(c, steps[..n], d);
      OrderlyStep(c, steps, d);
      InPlaceMore(Places(c, steps[..n], d), PlacesNow(r, last, d), ChunkStart(r, d));
      PlacesMean(c, steps[..n], d);
      RunSound(c, steps[..n]);
      assert DirectionSound(r, d);
      assert steps[..n + 1] == steps;
      if TakenNow(r, last, d) > 0 { StepDelivers(c, r, last, d); } else { StepDeliversNothing(c, r, last, d); }
    }
  }

  // ---- the same schedule with other bytes ----

  /** The same step, except that a chunk read may hold other bytes. */
  predicate Alike(a: Step, b: Step) {
    a == b || (a.Read? && b.Read? && a.d == b.d && |a.chunk| == |b.chunk|)
  }

  ghost predicate SameShape(steps: seq<Step>, other: seq<Step>) {
    |steps| == |other| && forall i :: 0 <= i < |steps| ==> Alike(steps[i], other[i])
  }

  predicate AlikeThread(a: Thread, b: Thread) {
    match a
    case Holding(chunk) => b.Holding? && |b.chunk| == |chunk|
    case Delivering(chunk) => b.Delivering? && |b.chunk| == |chunk|
    case _ => a == b
  }

  ghost predicate AlikeRelay(r: Relay, s: Relay) {
    && r.tape.failed == s.tape.failed && r.tape.offsets == s.tape.offsets
    && forall d :: AlikeThread(r.threads.At(d), s.threads.At(d)) && |r.received.At(d)| == |s.received.At(d)|
  }

  lemma AlikeNext(c: Config, r: Relay, s: Relay, a: Step, b: Step)
    requires AlikeRelay(r, s) && Alike(a, b)
    ensures AlikeRelay(Next(c, r, a), Next(c, s, b))
  {
    assert AlikeThread(r.threads.At(a.d), s.threads.At(a.d)) && |r.received.At(a.d)| == |s.received.At(a.d)|;
    forall d
      ensures AlikeThread(Next(c, r, a).threads.At(d), Next(c, s, b).threads.At(d))
      ensures |Next(c, r, a).received.At(d)| == |Next(c, s, b).received.At(d)|
    {
      assert AlikeThread(r.threads.At(d), s.threads.At(d)) && |r.received.At(d)| == |s.received.At(d)|;
    }
  }

  lemma {:induction false} AlikeRuns(c: Config, steps: seq<Step>, other: seq<Step>)
    requires SameShape(steps, other)
    ensures AlikeRelay(Run(c, steps), Run(c, other))
  {
    if steps != [] {
      var n := |steps| - 1;
      AlikeRuns(c, steps[..n], other[..n]);
      AlikeNext(c, Run(c, steps[..n]), Run(c, other[..n]), steps[n], other[n]);
    }
  }

  lemma SamePlacesNow(r: Relay, s: Relay, a: Step, b: Step, d: Direction)
    requires AlikeRelay(r, s) && Alike(a, b)
    ensures PlacesNow(r, a, d) == PlacesNow(s, b, d)
  {
    assert AlikeThread(r.threads.At(d), s.threads.At(d));
    assert TakenNow(r, a, d) == TakenNow(s, b, d) && ChunkStart(r, d) == ChunkStart(s, d);
  }

  lemma {:induction false} SamePlaces(c: Config, steps: seq<Step>, other: seq<Step>, d: Direction)
    requires SameShape(steps, other)
    ensures Places(c, steps, d) == Places(c, other, d)
  {
    if steps != [] {
      var n := |steps| - 1;
      SamePlaces(c, steps[..n], other[..n], d);
      AlikeRuns(c, steps[..n], other[..n]);
      SamePlacesNow(Run(c, steps[..n]), Run(c, other[..n]), steps[n], other[n], d);
    }
  }

  /** The same schedule in which the byte read at each place of the direction is the one `f` gives. */
  function Relabelled(c: Config, steps: seq<Step>, d: Direction, f: nat -> Byte): (other: seq<Step>)
    ensures |other| == |steps|
  {
    if steps == [] then []
    else
      var front, last := steps[..|steps| - 1], steps[|steps| - 1];
      var base := |Run(c, front).received.At(d)|;
      Relabelled(c, front, d, f)
        + [if last.Read? && last.d == d then Read(d, seq(|last.chunk|, i requires i >= 0 => f(base + i))) else last]
  }

  lemma {:induction false} RelabelledShape(c: Config, steps: seq<Step>, d: Direction, f: nat -> Byte)
    ensures SameShape(steps, Relabelled(c, steps, d, f))
  {
    if steps != [] { RelabelledShape(c, steps[..|steps| - 1], d, f); }
  }

  lemma ReadAdds(c: Config, r: Relay, step: Step, d: Direction)
    ensures Next(c, r, step).received.At(d) ==
              r.received.At(d) + if step.Read? && step.d == d && r.threads.At(d).Reading? then step.chunk else []
  {
  }

  ghost predicate Labelled(s: seq<Byte>, f: nat -> Byte) {
    forall p: nat :: p < |s| ==> s[p] == f(p)
  }

  lemma LabelledMore(s: seq<Byte>, f: nat -> Byte, chunk: seq<Byte>)
    requires Labelled(s, f) && forall i :: 0 <= i < |chunk| ==> chunk[i] == f(|s| + i)
    ensures Labelled(s + chunk, f)
  {
    forall p: nat | p < |s + chunk| ensures (s + chunk)[p] == f(p) {
      if p >= |s| { assert (s + chunk)[p] == chunk[p - |s|]; }
    }
  }

  lemma ReceivesMore(c: Config, s: Relay, step: Step, d: Direction, f: nat -> Byte)
    requires Labelled(s.received.At(d), f)
    requires step.Read? && step.d == d ==>
               forall i :: 0 <= i < |step.chunk| ==> step.chunk[i] == f(|s.received.At(d)| + i)
    ensures Labelled(Next(c, s, step).received.At(d), f)
  {
    ReadAdds(c, s, step, d);
    if step.Read? && step.d == d { LabelledMore(s.received.At(d), f, step.chunk); }
    assert s.received.At(d) + [] == s.received.At(d);
  }

  lemma {:induction false} RelabelledReceives(c: Config, steps: seq<Step>, d: Direction, f: nat -> Byte)
    ensures Labelled(Run(c, Relabelled(c, steps, d, f)).received.At(d), f)
  {
    if steps != [] {
      var n := |steps| - 1;
      var other := Relabelled(c, steps, d, f);
      var front := Relabelled(c, steps[..n], d, f);
      assert other[..n] == front;
      RelabelledReceives(c, steps[..n], d, f);
      RelabelledShape(c, steps[..n], d, f);
      AlikeRuns(c, steps[..n], front);
      assert |Run(c, front).received.At(d)| == |Run(c, steps[..n]).received.At(d)|;
      ReceivesMore(c, Run(c, front), other[n], d, f);
    }
  }

  // ---- the law ----

  lemma InPlaceFollows(places: seq<int>, delivered: seq<Byte>, committed: seq<Byte>)
    requires PlacesFit(places, delivered, committed) && InPlace(places)
    ensures delivered <= committed
  {
    if delivered != [] {
      var last := |delivered| - 1;
      assert places[last] == last < |committed|;
    }
    assert forall k :: 0 <= k < |delivered| ==> places[k] == k && delivered[k] == committed[k];
  }

  lemma OrderlyFollows(c: Config, steps: seq<Step>, d: Direction)
    requires Orderly(c, steps, d)
    ensures Follows(Run(c, steps), d)
  {
    PlacesMean(c, steps, d);
    OrderlyIffInPlace(c, steps, d);
    InPlaceFollows(Places(c, steps, d), Run(c, steps).delivered.At(d), Committed(Run(c, steps).tape, d));
  }

  lemma Misplaced(places: seq<int>, delivered: seq<Byte>, committed: seq<Byte>, k: nat)
    requires PlacesFit(places, delivered, committed) && k < |places| && places[k] != k
    requires committed[k] != committed[places[k]]
    ensures !(delivered <= committed)
  {
    assert delivered[k] == committed[places[k]];
  }

  /** A schedule that takes bytes after a drop breaks the law for some bytes of the same sizes. */
  lemma SomeBytesBreakIt(c: Config, steps: seq<Step>, d: Direction) returns (other: seq<Step>)
    requires !Orderly(c, steps, d)
    ensures SameShape(steps, other) && !Follows(Run(c, other), d)
  {
    OrderlyIffInPlace(c, steps, d);
    var places := Places(c, steps, d);
    var k :| 0 <= k < |places| && places[k] != k;
    var f: nat -> Byte := (p: nat) => if p == places[k] then 1 else 0;
    other := Relabelled(c, steps, d, f);
    RelabelledShape(c, steps, d, f);
    SamePlaces(c, steps, other, d);
    PlacesMean(c, other, d);
    RelabelledReceives(c, steps, d, f);
    DeliveredIsCommitted(c, other, d);
    var r := Run(c, other);
    var committed := Committed(r.tape, d);
    assert committed <= r.received.At(d);
    assert committed[k] == r.received.At(d)[k] == f(k)
           && committed[places[k]] == r.received.At(d)[places[k]] == f(places[k]);
    Misplaced(places, r.delivered.At(d), committed, k);
  }

  /** The prefix law of a schedule, whatever bytes it carries, holds exactly when nothing is taken after the first short
      write; towards the parent that is always so. */
  lemma LawIffNothingTakenAfterDrop(c: Config, steps: seq<Step>, d: Direction)
    ensures (forall other :: SameShape(steps, other) ==> Follows(Run(c, other), d)) <==> Orderly(c, steps, d)
    ensures d.AgentToZed? ==> Orderly(c, steps, d)
  {
    if Orderly(c, steps, d) {
      forall other | SameShape(steps, other) ensures Follows(Run(c, other), d) {
        SamePlaces(c, steps, other, d);
        OrderlyIffInPlace(c, steps, d);
        OrderlyIffInPlace(c, other, d);
        OrderlyFollows(c, other, d);
      }
    } else {
      var other := SomeBytesBreakIt(c, steps, d);
    }
    forall i: nat | i < |steps| && d.AgentToZed? ensures !TakenAfterDrop(c, steps, i, d) {
      DroppedIffShortWrite(c, steps[..i], d);
    }
  }

  /** For one run whose bytes of the direction all differ, the law holds exactly under the same condition. */
  lemma LawForDifferentBytes(c: Config, steps: seq<Step>, d: Direction)
    requires Distinct(Run(c, steps).received.At(d))
    ensures Follows(Run(c, steps), d) <==> Orderly(c, steps, d)
  {
    OrderlyIffInPlace(c, steps, d);
    PlacesMean(c, steps, d);
    DeliveredIsCommitted(c, steps, d);
    var r, places := Run(c, steps), Places(c, steps, d);
    var committed := Committed(r.tape, d);
    assert committed <= r.received.At(d);
    if k :| 0 <= k < |places| && places[k] != k {
      assert committed[k] == r.received.At(d)[k] && committed[places[k]] == r.received.At(d)[places[k]];
      Misplaced(places, r.delivered.At(d), committed, k);
    }
  }
}
