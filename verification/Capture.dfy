/** The locked recorder of the custody relay and the offline verifier of what it recorded. */
module Capture {
  import opened Common

  const SCHEMA_INDEX := "plan117-custody-relay-index-v1"
  const SCHEMA_SUMMARY := "plan117-custody-relay-summary-v1"

  datatype Direction = ZedToAgent | AgentToZed

  /** One value per direction. */
  datatype Per<T> = Per(zed: T, agent: T) {
    function At(d: Direction): T {
      if d.ZedToAgent? then zed else agent
    }

    function With(d: Direction, value: T): Per<T> {
      if d.ZedToAgent? then Per(value, agent) else Per(zed, value)
    }
  }

  datatype Tag = Data(of: Direction) | Eof(of: Direction) | Foreign
  datatype Entry = Entry(schema: string, runId: string, sequence: int, tag: Tag, clock: int, offset: int, size: int,
                         digest: string)
  datatype Line = Whole(entry: Entry) | Torn

  /** The run and the digest function, of which nothing is assumed. */
  datatype Config = Config(runId: string, sha: seq<Byte> -> string)

  // ---- the recorder ----

  /** What a failing index write leaves behind: nothing, part of a line, or the
      whole line although it was not confirmed. */
  datatype Trace = Lost | Partial | Stands
  datatype Fault = Fine | RawFails(kept: nat) | IndexFails(trace: Trace)

  datatype Tape = Tape(sequence: nat, offsets: Per<nat>, failed: bool, raw: Per<seq<Byte>>, index: seq<Line>)

  const BLANK := Tape(0, Per(0, 0), false, Per([], []), [])

  function ChunkEntry(c: Config, t: Tape, d: Direction, chunk: seq<Byte>, now: int): Entry {
    Entry(SCHEMA_INDEX, c.runId, t.sequence, Data(d), now, t.offsets.At(d), |chunk|, c.sha(chunk))
  }

  function EofEntry(c: Config, t: Tape, d: Direction, now: int): Entry {
    Entry(SCHEMA_INDEX, c.runId, t.sequence, Eof(d), now, t.offsets.At(d), 0, c.sha([]))
  }

  function Leave(index: seq<Line>, e: Entry, trace: Trace): seq<Line> {
    match trace
    case Lost => index
    case Partial => index + [Torn]
    case Stands => index + [Whole(e)]
  }

  /** Raw bytes first, then the index line, then the counters; any fault leaves the recorder failed for good. */
  function RecordChunk(c: Config, t: Tape, d: Direction, chunk: seq<Byte>, now: int, fault: Fault): Tape {
    if t.failed then t
    else
      var e := ChunkEntry(c, t, d, chunk, now);
      match fault
      case RawFails(kept) =>
        var written := if kept < |chunk| then chunk[..kept] else chunk;
        t.(failed := true, raw := t.raw.With(d, t.raw.At(d) + written))
      case IndexFails(trace) =>
        t.(failed := true, raw := t.raw.With(d, t.raw.At(d) + chunk), index := Leave(t.index, e, trace))
      case Fine =>
        Tape(t.sequence + 1, t.offsets.With(d, t.offsets.At(d) + |chunk|), false, t.raw.With(d, t.raw.At(d) + chunk),
             t.index + [Whole(e)])
  }

  function RecordEof(c: Config, t: Tape, d: Direction, now: int, fault: Option<Trace>): Tape {
    if t.failed then t
    else
      var e := EofEntry(c, t, d, now);
      match fault
      case Some(trace) => t.(failed := true, index := Leave(t.index, e, trace))
      case None => t.(sequence := t.sequence + 1, index := t.index + [Whole(e)])
  }

  class Recorder {
    const config: Config
    var sequence: nat
    var offsets: Per<nat>
    var failed: bool
    var raw: Per<seq<Byte>>
    var index: seq<Line>

    constructor (config: Config)
      ensures this.config == config && Now() == BLANK
    {
      this.config := config;
      sequence, offsets, failed, raw, index := 0, Per(0, 0), false, Per([], []), [];
    }

    function Now(): Tape
      reads this
    {
      Tape(sequence, offsets, failed, raw, index)
    }

    /** Under the lock, so atomic for the other direction. */
    method Chunk(d: Direction, chunk: seq<Byte>, now: int, fault: Fault) returns (ok: bool)
      modifies this
      ensures Now() == RecordChunk(config, old(Now()), d, chunk, now, fault) && ok == !failed
    {
      if failed { return false; }
      var offset := offsets.At(d);
      if fault.RawFails? {
        raw := raw.With(d, raw.At(d) + if fault.kept < |chunk| then chunk[..fault.kept] else chunk);
        failed := true;
        return false;
      }
      raw := raw.With(d, raw.At(d) + chunk);
      var record := Entry(SCHEMA_INDEX, config.runId, sequence, Data(d), now, offset, |chunk|, config.sha(chunk));
      if fault.IndexFails? {
        index := Leave(index, record, fault.trace);
        failed := true;
        return false;
      }
      index := index + [Whole(record)];
      sequence := sequence + 1;
      offsets := offsets.With(d, offset + |chunk|);
      ok := true;
    }

    method EndOfFile(d: Direction, now: int, fault: Option<Trace>) returns (ok: bool)
      modifies this
      ensures Now() == RecordEof(config, old(Now()), d, now, fault) && ok == !failed
    {
      if failed { return false; }
      var record := Entry(SCHEMA_INDEX, config.runId, sequence, Eof(d), now, offsets.At(d), 0, config.sha([]));
      if fault.Some? {
        index := Leave(index, record, fault.value);
        failed := true;
        return false;
      }
      index := index + [Whole(record)];
      sequence := sequence + 1;
      ok := true;
    }
  }

  // ---- the verifier ----

  datatype Refusal =
    | SummarySchemaMismatch | RunIdInvalid | ArgvDigestMissing | ArgvMissing | ArgvDigestMismatch
    | RelayDigestMissing | DispositionMissing | ExitMissing | RelayDigestMismatch
    | LengthMismatch(of: Direction) | IndexInvalid | IndexEmpty
    | SchemaMismatch | RunIdMismatch | SequenceGap | MonotonicRegression
    | EofSizeNonzero | EofDigestMismatch | OffsetMismatch
    | DirectionInvalid | ChunkSizeInvalid | RawBytesMismatch | ChunkDigestMismatch
    | MissingEof(of: Direction)

  datatype Scan = Refused(why: Refusal) | Scan(expected: nat, cursors: Per<nat>, eofs: Per<bool>, clock: int)

  /** The summary as read: a field that is absent, or not of its type, is `None` or false. */
  datatype Summary = Summary(schema: string, runId: string, argv: Option<seq<string>>, argvSha: Option<string>,
                             relaySha: Option<string>,
                             disposed: bool, exited: bool, bytes: Per<int>, eofs: Per<bool>)

  /** The digests of bytes and of argument lists, of which nothing is assumed, and
      the digest of the relay's own source. */
  datatype Verifier = Verifier(sha: seq<Byte> -> string, argvSha: seq<string> -> string, relaySha: string)

  /** Why a summary is refused before any raw byte is read. */
  function SummaryProblem(v: Verifier, m: Summary): Option<Refusal> {
    if m.schema != SCHEMA_SUMMARY then Some(SummarySchemaMismatch)
    else if m.runId == "" then Some(RunIdInvalid)
    else if m.argvSha.None? then Some(ArgvDigestMissing)
    else if m.argv.None? then Some(ArgvMissing)
    else if !HexEqual(m.argvSha.value, v.argvSha(m.argv.value)) then Some(ArgvDigestMismatch)
    else if m.relaySha.None? then Some(RelayDigestMissing)
    else if !m.disposed then Some(DispositionMissing)
    else if !m.exited then Some(ExitMissing)
    else if !HexEqual(m.relaySha.value, v.relaySha) then Some(RelayDigestMismatch)
    else None
  }

  /** A complete summary that names its run and carries the digests of its arguments and of this relay. */
  predicate SummarySound(v: Verifier, m: Summary) {
    && m.schema == SCHEMA_SUMMARY && m.runId != "" && m.disposed && m.exited
    && m.argv.Some? && m.argvSha.Some? && HexEqual(m.argvSha.value, v.argvSha(m.argv.value))
    && m.relaySha.Some? && HexEqual(m.relaySha.value, v.relaySha)
  }

  /** The run whose captures a summary describes, read with the verifier's digest. */
  function RunOf(v: Verifier, m: Summary): Config {
    Config(m.runId, v.sha)
  }

  function ScanEntry(c: Config, raw: Per<seq<Byte>>, s: Scan, e: Entry): Scan {
    if s.Refused? then s
    else if e.schema != SCHEMA_INDEX then Refused(SchemaMismatch)
    else if e.runId != c.runId then Refused(RunIdMismatch)
    else if e.sequence != s.expected then Refused(SequenceGap)
    else if e.clock < s.clock then Refused(MonotonicRegression)
    else match e.tag
      case Foreign => Refused(DirectionInvalid)
      case Eof(d) =>
        if e.size != 0 then Refused(EofSizeNonzero)
        else if e.digest != c.sha([]) then Refused(EofDigestMismatch)
        else if e.offset != s.cursors.At(d) then Refused(OffsetMismatch)
        else Scan(s.expected + 1, s.cursors, s.eofs.With(d, true), e.clock)
      case Data(d) =>
        if e.size < 0 then Refused(ChunkSizeInvalid)
        else if e.offset != s.cursors.At(d) then Refused(OffsetMismatch)
        else if e.offset + e.size > |raw.At(d)| then Refused(RawBytesMismatch)
        else if c.sha(raw.At(d)[e.offset..e.offset + e.size]) != e.digest then Refused(ChunkDigestMismatch)
        else Scan(s.expected + 1, s.cursors.With(d, e.offset + e.size), s.eofs, e.clock)
  }

  const SCAN_START := Scan(0, Per(0, 0), Per(false, false), -1)

  function ScanAll(c: Config, raw: Per<seq<Byte>>, entries: seq<Entry>): Scan {
    if entries == [] then SCAN_START
    else ScanEntry(c, raw, ScanAll(c, raw, entries[..|entries| - 1]), entries[|entries| - 1])
  }

  predicate AllWhole(index: seq<Line>) {
    forall i :: 0 <= i < |index| ==> index[i].Whole?
  }

  function Entries(index: seq<Line>): (entries: seq<Entry>)
    requires AllWhole(index)
    ensures |entries| == |index| && forall i :: 0 <= i < |index| ==> index[i] == Whole(entries[i])
  {
    seq(|index|, i requires 0 <= i < |index| => index[i].entry)
  }

  function Conclude(s: Scan, raw: Per<seq<Byte>>, m: Summary): Option<Refusal> {
    if s.Refused? then Some(s.why)
    else if s.cursors.zed != |raw.zed| || s.cursors.agent != |raw.agent| then Some(RawBytesMismatch)
    else if !s.eofs.zed || !m.eofs.zed then Some(MissingEof(ZedToAgent))
    else if !s.eofs.agent || !m.eofs.agent then Some(MissingEof(AgentToZed))
    else None
  }

  /** `None` when the capture is accepted. */
  function Verify(v: Verifier, m: Summary, raw: Per<seq<Byte>>, index: seq<Line>): Option<Refusal> {
    if SummaryProblem(v, m).Some? then SummaryProblem(v, m)
    else if m.bytes.zed != |raw.zed| then Some(LengthMismatch(ZedToAgent))
    else if m.bytes.agent != |raw.agent| then Some(LengthMismatch(AgentToZed))
    else if !AllWhole(index) then Some(IndexInvalid)
    else if index == [] then Some(IndexEmpty)
    else Conclude(ScanAll(RunOf(v, m), raw, Entries(index)), raw, m)
  }

  method ParseIndex(index: seq<Line>) returns (records: Option<seq<Entry>>)
    ensures records == if AllWhole(index) then Some(Entries(index)) else None
  {
    var parsed := [];
    for i := 0 to |index|
      invariant |parsed| == i && forall j :: 0 <= j < i ==> index[j] == Whole(parsed[j])
    {
      if index[i].Torn? {
        return None;
      }
      parsed := parsed + [index[i].entry];
    }
    assert AllWhole(index);
    assert parsed == Entries(index);
    return Some(parsed);
  }

  method VerifyCapture(v: Verifier, m: Summary, raw: Per<seq<Byte>>, index: seq<Line>)
    returns (refusal: Option<Refusal>)
    ensures refusal == Verify(v, m, raw, index)
  {
    var problem := SummaryProblem(v, m);
    if problem.Some? { return problem; }
    var c := RunOf(v, m);
    if m.bytes.zed != |raw.zed| { return Some(LengthMismatch(ZedToAgent)); }
    if m.bytes.agent != |raw.agent| { return Some(LengthMismatch(AgentToZed)); }
    var parsed := ParseIndex(index);
    if parsed.None? { return Some(IndexInvalid); }
    var records := parsed.value;
    if records == [] { return Some(IndexEmpty); }
    var s := SCAN_START;
    for i := 0 to |records|
      invariant s == ScanAll(c, raw, records[..i]) && !s.Refused?
    {
      assert records[..i + 1][..i] == records[..i];
      var next := ScanEntry(c, raw, s, records[i]);
      if next.Refused? {
        ScanStaysRefused(c, raw, records, i + 1);
        return Some(next.why);
      }
      s := next;
    }
    assert records[..|records|] == records;
    refusal := Conclude(s, raw, m);
  }

  lemma {:induction false} ScanStaysRefused(c: Config, raw: Per<seq<Byte>>, entries: seq<Entry>, n: nat)
    requires n <= |entries| && ScanAll(c, raw, entries[..n]).Refused?
    ensures ScanAll(c, raw, entries) == ScanAll(c, raw, entries[..n])
  {
    if n == |entries| {
      assert entries[..n] == entries;
    } else {
      assert entries[..|entries| - 1][..n] == entries[..n];
      ScanStaysRefused(c, raw, entries[..|entries| - 1], n);
    }
  }

  // ---- an accepted index tiles the raw files ----

  /** The bytes an entry stands for, empty unless it is a chunk of this direction. */
  function Slice(raw: Per<seq<Byte>>, d: Direction, e: Entry): seq<Byte> {
    if e.tag == Data(d) && 0 <= e.offset && 0 <= e.size && e.offset + e.size <= |raw.At(d)|
    then raw.At(d)[e.offset..e.offset + e.size] else []
  }

  function Tiled(raw: Per<seq<Byte>>, d: Direction, entries: seq<Entry>): seq<Byte> {
    if entries == [] then [] else Tiled(raw, d, entries[..|entries| - 1]) + Slice(raw, d, entries[|entries| - 1])
  }

  /** The entry is numbered by its place, carries the run's identity, and its digest is that of its bytes. */
  ghost predicate EntrySound(c: Config, raw: Per<seq<Byte>>, e: Entry, i: nat) {
    && e.schema == SCHEMA_INDEX && e.runId == c.runId && e.sequence == i && !e.tag.Foreign?
    && (e.tag.Data? ==> |Slice(raw, e.tag.of, e)| == e.size && e.digest == c.sha(Slice(raw, e.tag.of, e)))
    && (e.tag.Eof? ==> e.size == 0 && e.digest == c.sha([]))
  }

  /** One entry that scans: it is sound, and its bytes follow those already scanned in its direction. */
  lemma EntryTiles(c: Config, raw: Per<seq<Byte>>, s: Scan, e: Entry, d: Direction)
    requires s.Scan? && s.cursors.At(d) <= |raw.At(d)| && ScanEntry(c, raw, s, e).Scan?
    ensures var s' := ScanEntry(c, raw, s, e);
            && s'.expected == s.expected + 1 && s.cursors.At(d) <= s'.cursors.At(d) <= |raw.At(d)|
            && Slice(raw, d, e) == raw.At(d)[s.cursors.At(d)..s'.cursors.At(d)]
            && (s'.eofs.At(d) <==> s.eofs.At(d) || e.tag == Eof(d))
  {
  }

  lemma EntryIsSound(c: Config, raw: Per<seq<Byte>>, s: Scan, e: Entry)
    requires s.Scan? && ScanEntry(c, raw, s, e).Scan?
    ensures EntrySound(c, raw, e, s.expected)
  {
  }

  lemma {:induction false} ScanTiles(c: Config, raw: Per<seq<Byte>>, entries: seq<Entry>, d: Direction)
    requires ScanAll(c, raw, entries).Scan?
    ensures var s := ScanAll(c, raw, entries);
            && s.expected == |entries| && s.cursors.At(d) <= |raw.At(d)|
            && Tiled(raw, d, entries) == raw.At(d)[..s.cursors.At(d)]
            && (s.eofs.At(d) <==> exists e :: e in entries && e.tag == Eof(d))
  {
    if entries != [] {
      var front, last := entries[..|entries| - 1], entries[|entries| - 1];
      ScanTiles(c, raw, front, d);
      EntryTiles(c, raw, ScanAll(c, raw, front), last, d);
      assert forall e :: e in entries <==> e in front || e == last;
    }
  }

  lemma {:induction false} ScanSound(c: Config, raw: Per<seq<Byte>>, entries: seq<Entry>, i: nat)
    requires ScanAll(c, raw, entries).Scan? && i < |entries|
    ensures EntrySound(c, raw, entries[i], i)
  {
    var front := entries[..|entries| - 1];
    ScanTiles(c, raw, front, ZedToAgent);
    if i == |front| {
      EntryIsSound(c, raw, ScanAll(c, raw, front), entries[i]);
    } else {
      ScanSound(c, raw, front, i);
      assert front[i] == entries[i];
    }
  }

  /** Acceptance means that the summary is complete and right, that the chunks of the index tile each raw file exactly
      and in order, that sequence numbers have no gap, that every digest is right and that both directions ended. */
  lemma AcceptedTiles(v: Verifier, m: Summary, raw: Per<seq<Byte>>, index: seq<Line>)
    requires Verify(v, m, raw, index).None?
    ensures SummarySound(v, m) && AllWhole(index)
    ensures forall d :: Tiled(raw, d, Entries(index)) == raw.At(d)
    ensures forall i: nat :: i < |index| ==> EntrySound(RunOf(v, m), raw, Entries(index)[i], i)
    ensures forall d :: exists e :: e in Entries(index) && e.tag == Eof(d)
  {
    var c := RunOf(v, m);
    var s := ScanAll(c, raw, Entries(index));
    forall d ensures Tiled(raw, d, Entries(index)) == raw.At(d) && exists e :: e in Entries(index) && e.tag == Eof(d) {
      ScanTiles(c, raw, Entries(index), d);
      assert s.cursors.At(d) == |raw.At(d)| && s.eofs.At(d);
    }
    forall i: nat | i < |index| ensures EntrySound(c, raw, Entries(index)[i], i) {
      ScanSound(c, raw, Entries(index), i);
    }
  }

  ghost predicate Injective(sha: seq<Byte> -> string) {
    forall a, b :: sha(a) == sha(b) ==> a == b
  }

  lemma {:induction false} ScanAgrees(c: Config, raw: Per<seq<Byte>>, raw': Per<seq<Byte>>, entries: seq<Entry>)
    requires Injective(c.sha) && ScanAll(c, raw, entries).Scan? && ScanAll(c, raw', entries).Scan?
    ensures ScanAll(c, raw, entries) == ScanAll(c, raw', entries)
    ensures forall d :: Tiled(raw, d, entries) == Tiled(raw', d, entries)
  {
    if entries != [] {
      ScanAgrees(c, raw, raw', entries[..|entries| - 1]);
    }
  }

  /** With an injective digest the index determines the raw bytes of every capture of a run it is accepted with. */
  lemma IndexDeterminesRaw(v: Verifier, m: Summary, raw: Per<seq<Byte>>, m': Summary, raw': Per<seq<Byte>>,
                           index: seq<Line>)
    requires Injective(v.sha) && Verify(v, m, raw, index).None? && Verify(v, m', raw', index).None?
    ensures raw == raw' && m.runId == m'.runId
  {
    AcceptedTiles(v, m, raw, index);
    AcceptedTiles(v, m', raw', index);
    assert Entries(index)[0].runId == m.runId == m'.runId by {
      assert EntrySound(RunOf(v, m), raw, Entries(index)[0], 0) && EntrySound(RunOf(v, m'), raw', Entries(index)[0], 0);
    }
    ScanAgrees(RunOf(v, m), raw, raw', Entries(index));
    assert raw.At(ZedToAgent) == raw'.At(ZedToAgent) && raw.At(AgentToZed) == raw'.At(AgentToZed);
  }

  // ---- the recorder's own captures ----

  lemma EntryGrows(c: Config, raw: Per<seq<Byte>>, raw': Per<seq<Byte>>, s: Scan, e: Entry)
    requires s.Scan? && ScanEntry(c, raw, s, e).Scan? && forall d :: raw.At(d) <= raw'.At(d)
    ensures ScanEntry(c, raw', s, e) == ScanEntry(c, raw, s, e)
  {
    if e.tag.Data? {
      var a, b := raw.At(e.tag.of), raw'.At(e.tag.of);
      assert a <= b;
      assert b[e.offset..e.offset + e.size] == a[e.offset..e.offset + e.size];
    }
  }

  /** More raw bytes do not change a scan that went through. */
  lemma {:induction false} ScanGrows(c: Config, raw: Per<seq<Byte>>, raw': Per<seq<Byte>>, entries: seq<Entry>)
    requires ScanAll(c, raw, entries).Scan? && forall d :: raw.At(d) <= raw'.At(d)
    ensures ScanAll(c, raw', entries) == ScanAll(c, raw, entries)
  {
    if entries != [] {
      var front, last := entries[..|entries| - 1], entries[|entries| - 1];
      ScanGrows(c, raw, raw', front);
      EntryGrows(c, raw, raw', ScanAll(c, raw, front), last);
    }
  }

  /** The index scans to the recorder's own counters, which are the lengths of the raw
      files; the clock has not passed `now`. */
  ghost predicate Faithful(c: Config, t: Tape, clock: int) {
    && AllWhole(t.index)
    && var s := ScanAll(c, t.raw, Entries(t.index));
    && !s.Refused? && s.cursors == t.offsets && s.expected == |t.index| && s.clock <= clock
    && |t.raw.zed| == t.offsets.zed && |t.raw.agent| == t.offsets.agent
  }

  /** A recorder that has not failed: faithful, and numbering its lines. */
  ghost predicate Healthy(c: Config, t: Tape, clock: int) {
    !t.failed && t.sequence == |t.index| && Faithful(c, t, clock)
  }

  lemma AppendEntry(c: Config, raw: Per<seq<Byte>>, index: seq<Line>, e: Entry)
    requires AllWhole(index)
    ensures AllWhole(index + [Whole(e)])
    ensures ScanAll(c, raw, Entries(index + [Whole(e)])) == ScanEntry(c, raw, ScanAll(c, raw, Entries(index)), e)
  {
    var entries := Entries(index + [Whole(e)]);
    assert entries[..|entries| - 1] == Entries(index);
  }

  lemma ChunkKeepsFaithful(c: Config, t: Tape, d: Direction, chunk: seq<Byte>, clock: int, now: int)
    requires Healthy(c, t, clock) && clock <= now
    ensures Healthy(c, RecordChunk(c, t, d, chunk, now, Fine), now)
  {
    var t' := RecordChunk(c, t, d, chunk, now, Fine);
    var e := ChunkEntry(c, t, d, chunk, now);
    forall x ensures t.raw.At(x) <= t'.raw.At(x) {}
    ScanGrows(c, t.raw, t'.raw, Entries(t.index));
    AppendEntry(c, t'.raw, t.index, e);
    assert |t.raw.At(d)| == t.offsets.At(d);
    assert t'.raw.At(d)[e.offset..e.offset + e.size] == chunk;
  }

  lemma EofKeepsFaithful(c: Config, t: Tape, d: Direction, clock: int, now: int)
    requires Healthy(c, t, clock) && clock <= now
    ensures Healthy(c, RecordEof(c, t, d, now, None), now)
  {
    AppendEntry(c, t.raw, t.index, EofEntry(c, t, d, now));
  }
}
