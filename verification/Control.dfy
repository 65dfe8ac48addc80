/** The relay's control endpoint: it hands out live-session proofs, forwards one prompt, and seals its descriptor. */
module Control {
  import opened Common

  const SCHEMA := "plan117-custody-relay-control-descriptor-v1"
  const SESSION_NEW := "session/new"

  predicate Mentions(text: string, part: string) {
    exists i :: 0 <= i <= |text| && part <= text[i..]
  }

  // ---- the descriptor file ----

  datatype Value = Text(text: string) | Flag(on: bool) | Other

  /** A JSON object; the digest covers every key but its own and the two flags that sealing changes. */
  type Descriptor = map<string, Value>

  const UNBOUND: set<string> := {"descriptor_sha256", "terminal", "prompt_sealed"}

  function DigestOf(sha: Descriptor -> string, d: Descriptor): string {
    sha(d - UNBOUND)
  }

  datatype LoadError = Unreadable | WrongSchema | WrongDigest | PromptSealed | Terminal
  datatype Loaded = Load(descriptor: Descriptor) | LoadRefused(why: LoadError)

  function LoadDescriptor(sha: Descriptor -> string, file: Option<Descriptor>, expected: string): Loaded {
    if file.None? then LoadRefused(Unreadable)
    else
      var d := file.value;
      var digest := DigestOf(sha, d);
      if !("schema" in d && d["schema"] == Text(SCHEMA)) then LoadRefused(WrongSchema)
      else if !(&& "descriptor_sha256" in d
                && d["descriptor_sha256"].Text?
                && HexEqual(digest, d["descriptor_sha256"].text))
      then LoadRefused(WrongDigest)
      else if !HexEqual(digest, expected) then LoadRefused(WrongDigest)
      else if "prompt_sealed" in d && d["prompt_sealed"] == Flag(true) then LoadRefused(PromptSealed)
      else if "terminal" in d && d["terminal"] == Flag(true) then LoadRefused(Terminal)
      else Load(d)
  }

  /** The descriptor a started endpoint writes: the locator fields with their digest. */
  function Started(sha: Descriptor -> string, locator: Descriptor): Descriptor {
    var provisional := locator["schema" := Text(SCHEMA)]["terminal" := Flag(false)];
    provisional["descriptor_sha256" := Text(DigestOf(sha, provisional))]
  }

  function Sealed(sha: Descriptor -> string, d: Descriptor, promptSealed: bool): Descriptor {
    var terminal := d["terminal" := Flag(true)];
    var marked := if promptSealed || ("prompt_sealed" in d && d["prompt_sealed"] == Flag(true))
                  then terminal["prompt_sealed" := Flag(true)]
                  else terminal;
    marked["descriptor_sha256" := Text(DigestOf(sha, marked))]
  }

  /** Sealing an unreadable file does nothing, and a failed write is swallowed. */
  function SealFile(sha: Descriptor -> string, file: Option<Descriptor>, promptSealed: bool,
                    written: bool): Option<Descriptor> {
    if file.Some? && written then Some(Sealed(sha, file.value, promptSealed)) else file
  }

  /** Sealing changes no digest-bound key, so the digest callers pinned stays the same. */
  lemma SealKeepsDigest(sha: Descriptor -> string, d: Descriptor, promptSealed: bool)
    ensures Sealed(sha, d, promptSealed) - UNBOUND == d - UNBOUND
    ensures DigestOf(sha, Sealed(sha, d, promptSealed)) == DigestOf(sha, d)
    ensures Sealed(sha, d, promptSealed)["descriptor_sha256"] == Text(DigestOf(sha, d))
  {
    assert d["terminal" := Flag(true)] - UNBOUND == d - UNBOUND;
    assert d["terminal" := Flag(true)]["prompt_sealed" := Flag(true)] - UNBOUND == d - UNBOUND;
    assert Sealed(sha, d, promptSealed) - UNBOUND == d - UNBOUND;
  }

  /** A sealed descriptor is refused whatever digest is expected; with the right
      one, the prompt's seal is what is told. */
  lemma SealedIsRefused(sha: Descriptor -> string, d: Descriptor, promptSealed: bool, expected: string)
    ensures LoadDescriptor(sha, Some(Sealed(sha, d, promptSealed)), expected).LoadRefused?
    ensures promptSealed && "schema" in d && d["schema"] == Text(SCHEMA) && HexEqual(DigestOf(sha, d), expected) ==>
              LoadDescriptor(sha, Some(Sealed(sha, d, promptSealed)), expected) == LoadRefused(PromptSealed)
  {
    SealKeepsDigest(sha, d, promptSealed);
  }

  /** A started descriptor loads with exactly its own digest. */
  lemma StartedLoads(sha: Descriptor -> string, locator: Descriptor, expected: string)
    requires "prompt_sealed" !in locator
    ensures LoadDescriptor(sha, Some(Started(sha, locator)), expected).Load? <==>
              HexEqual(DigestOf(sha, Started(sha, locator)), expected)
  {
    var provisional := locator["schema" := Text(SCHEMA)]["terminal" := Flag(false)];
    assert Started(sha, locator) - UNBOUND == provisional - UNBOUND;
  }

  // ---- the runtime ----

  datatype Config = Config(runId: string, owner: string, connection: string, startTime: string, digest: string,
                           sha: Descriptor -> string)

  datatype State = State(session: string, eof: bool, forwarded: bool, closed: bool, alive: bool,
                         file: Option<Descriptor>)

  datatype Observed = Observed(pid: int, startTime: string, alive: bool)

  /** What the operating system says about the relay's own process at the moment of a call. */
  datatype Process = Process(pid: int, observed: Option<Observed>, exited: bool)

  datatype Request = Request(runId: string, owner: string, digest: string, connection: string, session: string)

  datatype Call =
    | MarkEof
    | Observe(session: string)
    | Close
    | Seal(promptSealed: bool, written: bool)
    | CloseEndpoint(written: bool)
    | GetProof(request: Request, process: Process, built: bool)
    | SendPrompt(request: Request, process: Process, prompt: Option<string>, accepted: bool)
    | DispatchPrompt(request: Request, process: Process, prompt: Option<string>, accepted: bool, written: bool)

  datatype Refusal =
    | RelayClosed(second: bool) | SecondPrompt | CallerOwner | DescriptorDigest | RunAttempt | Connection
    | ProcessIdentity | SessionIdentity | ProofUnavailable | Fixture | SessionMethod | ForwardRaised

  datatype Reply = Done | Proof(pid: int, session: string) | Forwarded(session: string,
                                prompt: string) | Refuse(why: Refusal)

  predicate LiveProcess(c: Config, p: Process) {
    && p.pid > 0 && !p.exited
    && p.observed.Some? && p.observed.value == Observed(p.pid, c.startTime, true)
  }

  function ProofReply(c: Config, s: State, r: Request, p: Process, built: bool): Reply {
    if s.closed || !s.alive then Refuse(RelayClosed(false))
    else if r.owner != c.owner then Refuse(CallerOwner)
    else if !HexEqual(r.digest, c.digest) then Refuse(DescriptorDigest)
    else if r.runId != c.runId then Refuse(RunAttempt)
    else if s.eof then Refuse(Connection)
    else if !LiveProcess(c, p) then Refuse(ProcessIdentity)
    else if s.session == "" then Refuse(SessionIdentity)
    else if !built then Refuse(ProofUnavailable)
    else Proof(p.pid, s.session)
  }

  function PromptReply(c: Config, s: State, r: Request, p: Process, prompt: Option<string>, accepted: bool): Reply {
    if s.closed || !s.alive then Refuse(RelayClosed(s.forwarded))
    else if s.forwarded then Refuse(SecondPrompt)
    else if r.owner != c.owner then Refuse(CallerOwner)
    else if !HexEqual(r.digest, c.digest) then Refuse(DescriptorDigest)
    else if r.runId != c.runId then Refuse(RunAttempt)
    else if s.eof || r.connection != c.connection then Refuse(Connection)
    else if s.session == "" || r.session != s.session then Refuse(SessionIdentity)
    else if !LiveProcess(c, p) then Refuse(ProcessIdentity)
    else if prompt.None? then Refuse(Fixture)
    else if Mentions(s.session, SESSION_NEW) || Mentions(prompt.value, SESSION_NEW) then Refuse(SessionMethod)
    else if !accepted then Refuse(ForwardRaised)
    else Forwarded(s.session, prompt.value)
  }

  function Answer(c: Config, s: State, call: Call): Reply {
    match call
    case Observe(session) => if Blank(session) then Refuse(SessionIdentity) else Done
    case GetProof(r, p, built) => ProofReply(c, s, r, p, built)
    case SendPrompt(r, p, prompt, accepted) => PromptReply(c, s, r, p, prompt, accepted)
    case DispatchPrompt(r, p, prompt, accepted, _) =>
      if Blank(r.owner) then Refuse(CallerOwner) else PromptReply(c, s, r, p, prompt, accepted)
    case _ => Done
  }

  function After(c: Config, s: State, call: Call): State {
    match call
    case MarkEof => s.(eof := true)
    case Observe(session) => if Blank(session) then s else s.(session := session)
    case Close => s.(closed := true, alive := false)
    case Seal(promptSealed, written) => s.(file := SealFile(c.sha, s.file, promptSealed, written))
    case CloseEndpoint(written) =>
      s.(closed := true, alive := false, file := SealFile(c.sha, s.file, s.forwarded, written))
    case GetProof(_, _, _) => s
    case SendPrompt(_, _, _, _) => if Answer(c, s, call).Forwarded? then s.(forwarded := true) else s
    case DispatchPrompt(_, _, _, _, written) =>
      if Answer(c, s, call).Forwarded?
      then s.(forwarded := true, closed := true, alive := false, file := SealFile(c.sha, s.file, true, written)) else s
  }

  class Runtime {
    const config: Config
    var session: string
    var eof: bool
    var forwarded: bool
    var closed: bool
    var alive: bool
    var file: Option<Descriptor>

    constructor (config: Config, session: string, file: Option<Descriptor>)
      ensures this.config == config && Now() == State(session, false, false, false, true, file)
    {
      this.config, this.session, this.file := config, session, file;
      eof, forwarded, closed, alive := false, false, false, true;
    }

    function Now(): State
      reads this
    {
      State(session, eof, forwarded, closed, alive, file)
    }

    method MarkConnectionEof()
      modifies this
      ensures Now() == After(config, old(Now()), MarkEof)
    {
      eof := true;
    }

    method ObserveAcpSession(observed: string) returns (reply: Reply)
      modifies this
      ensures reply == Answer(config, old(Now()), Observe(observed))
              && Now() == After(config, old(Now()), Observe(observed))
    {
      if Blank(observed) { return Refuse(SessionIdentity); }
      session := observed;
      reply := Done;
    }

    method CloseRuntime()
      modifies this
      ensures Now() == After(config, old(Now()), Close)
    {
      closed := true;
      alive := false;
    }

    method RequireLiveProcess(p: Process) returns (ok: bool)
      ensures ok == LiveProcess(config, p)
    {
      if p.pid <= 0 || p.observed.None? { return false; }
      var seen := p.observed.value;
      if seen.pid != p.pid || seen.startTime != config.startTime || !seen.alive { return false; }
      ok := !p.exited;
    }

    method GetLiveSessionProof(r: Request, p: Process, built: bool) returns (reply: Reply)
      ensures reply == Answer(config, Now(), GetProof(r, p, built))
    {
      if closed || !alive { return Refuse(RelayClosed(false)); }
      if r.owner != config.owner { return Refuse(CallerOwner); }
      if !HexEqual(r.digest, config.digest) { return Refuse(DescriptorDigest); }
      if r.runId != config.runId { return Refuse(RunAttempt); }
      if eof { return Refuse(Connection); }
      var live := RequireLiveProcess(p);
      if !live { return Refuse(ProcessIdentity); }
      if session == "" { return Refuse(SessionIdentity); }
      if !built { return Refuse(ProofUnavailable); }
      reply := Proof(p.pid, session);
    }

    /** The forward is the last thing that can fail; only its success is remembered. */
    method SendExistingSessionPrompt(r: Request, p: Process, prompt: Option<string>, accepted: bool)
      returns (reply: Reply)
      modifies this
      ensures reply == Answer(config, old(Now()), SendPrompt(r, p, prompt, accepted))
      ensures Now() == After(config, old(Now()), SendPrompt(r, p, prompt, accepted))
    {
      if closed || !alive { return Refuse(RelayClosed(forwarded)); }
      if forwarded { return Refuse(SecondPrompt); }
      if r.owner != config.owner { return Refuse(CallerOwner); }
      if !HexEqual(r.digest, config.digest) { return Refuse(DescriptorDigest); }
      if r.runId != config.runId { return Refuse(RunAttempt); }
      if eof || r.connection != config.connection { return Refuse(Connection); }
      if session == "" || r.session != session { return Refuse(SessionIdentity); }
      var live := RequireLiveProcess(p);
      if !live { return Refuse(ProcessIdentity); }
      if prompt.None? { return Refuse(Fixture); }
      if Mentions(session, SESSION_NEW) || Mentions(prompt.value, SESSION_NEW) { return Refuse(SessionMethod); }
      if !accepted { return Refuse(ForwardRaised); }
      forwarded := true;
      reply := Forwarded(session, prompt.value);
    }

    method MarkDescriptorTerminal(promptSealed: bool, written: bool)
      modifies this`file
      ensures Now() == After(config, old(Now()), Seal(promptSealed, written))
    {
      if file.None? { return; }
      var payload := file.value["terminal" := Flag(true)];
      if promptSealed || ("prompt_sealed" in payload && payload["prompt_sealed"] == Flag(true)) {
        payload := payload["prompt_sealed" := Flag(true)];
      }
      payload := payload["descriptor_sha256" := Text(DigestOf(config.sha, payload))];
      if written { file := Some(payload); }
    }

    /** A forwarded prompt closes the runtime and seals the descriptor before the answer goes out. */
    method Dispatch(r: Request, p: Process, prompt: Option<string>, accepted: bool, written: bool)
      returns (reply: Reply)
      modifies this
      ensures reply == Answer(config, old(Now()), DispatchPrompt(r, p, prompt, accepted, written))
      ensures Now() == After(config, old(Now()), DispatchPrompt(r, p, prompt, accepted, written))
    {
      if Blank(r.owner) { return Refuse(CallerOwner); }
      reply := SendExistingSessionPrompt(r, p, prompt, accepted);
      if reply.Forwarded? {
        CloseRuntime();
        MarkDescriptorTerminal(true, written);
      }
    }

    method CloseControl(written: bool)
      modifies this
      ensures Now() == After(config, old(Now()), CloseEndpoint(written))
    {
      CloseRuntime();
      MarkDescriptorTerminal(forwarded, written);
    }
  }

  // ---- every sequence of calls ----

  datatype History = History(state: State, replies: seq<Reply>)

  function Run(c: Config, s: State, calls: seq<Call>): (h: History)
    ensures |h.replies| == |calls|
  {
    if calls == [] then History(s, [])
    else
      var h := Run(c, s, calls[..|calls| - 1]);
      History(After(c, h.state, calls[|calls| - 1]), h.replies + [Answer(c, h.state, calls[|calls| - 1])])
  }

  lemma {:induction false} RunPrefix(c: Config, s: State, calls: seq<Call>, i: nat)
    requires i < |calls|
    ensures Run(c, s, calls).replies[i] == Answer(c, Run(c, s, calls[..i]).state, calls[i])
  {
    var n := |calls| - 1;
    if i < n {
      RunPrefix(c, s, calls[..n], i);
      assert calls[..n][..i] == calls[..i];
    }
  }

  predicate NoFlagLost(a: State, b: State) {
    (a.closed ==> b.closed) && (a.eof ==> b.eof) && (a.forwarded ==> b.forwarded)
  }

  lemma CallKeepsFlags(c: Config, s: State, call: Call)
    ensures NoFlagLost(s, After(c, s, call))
  {
  }

  /** Closing, the connection's end and a forwarded prompt are never undone. */
  lemma {:induction false} FlagsStay(c: Config, s: State, calls: seq<Call>, i: nat)
    requires i <= |calls|
    ensures NoFlagLost(Run(c, s, calls[..i]).state, Run(c, s, calls).state)
  {
    if i == |calls| {
      assert calls[..i] == calls;
    } else {
      var front := calls[..|calls| - 1];
      assert front[..i] == calls[..i];
      FlagsStay(c, s, front, i);
      CallKeepsFlags(c, Run(c, s, front).state, calls[|calls| - 1]);
    }
  }

  predicate Speaks(reply: Reply) {
    reply.Proof? || reply.Forwarded?
  }

  predicate Closes(call: Call) {
    call.Close? || call.CloseEndpoint?
  }

  /** At most one forward succeeds; and once the runtime closes after it, by the dispatch itself or by a later call, no
      proof is issued either. */
  lemma OneForward(c: Config, s: State, calls: seq<Call>, i: nat, j: nat)
    requires i < j < |calls| && Run(c, s, calls).replies[i].Forwarded?
    ensures !Run(c, s, calls).replies[j].Forwarded?
    ensures (calls[i].DispatchPrompt? || exists k :: i < k < j && Closes(calls[k])) ==>
              !Speaks(Run(c, s, calls).replies[j])
  {
    RunPrefix(c, s, calls, i);
    RunPrefix(c, s, calls, j);
    ForwardIsRemembered(c, Run(c, s, calls[..i]).state, calls[i]);
    FlagsStayAfter(c, s, calls, i, j);
    SilentWhen(c, Run(c, s, calls[..j]).state, calls[j]);
    if k :| i < k < j && Closes(calls[k]) { FlagsStayAfter(c, s, calls, k, j); }
  }

  lemma ForwardIsRemembered(c: Config, s: State, call: Call)
    requires Answer(c, s, call).Forwarded?
    ensures After(c, s, call).forwarded && (call.DispatchPrompt? ==> After(c, s, call).closed)
  {
  }

  lemma FlagsStayAfter(c: Config, s: State, calls: seq<Call>, i: nat, j: nat)
    requires i < j <= |calls|
    ensures NoFlagLost(After(c, Run(c, s, calls[..i]).state, calls[i]), Run(c, s, calls[..j]).state)
  {
    assert calls[..i + 1][..i] == calls[..i];
    assert calls[..j][..i + 1] == calls[..i + 1];
    FlagsStay(c, s, calls[..j], i + 1);
  }

  lemma SilentWhen(c: Config, s: State, call: Call)
    ensures s.forwarded ==> !Answer(c, s, call).Forwarded?
    ensures s.closed || s.eof ==> !Speaks(Answer(c, s, call))
  {
  }

  // ---- a dispatch is the calls it makes ----

  /** The single calls behind a call: a dispatch sends the prompt, and once it is forwarded closes and seals. */
  function Parts(c: Config, s: State, call: Call): seq<Call> {
    if !call.DispatchPrompt? then [call]
    else if Blank(call.request.owner) then []
    else
      var sent := SendPrompt(call.request, call.process, call.prompt, call.accepted);
      if Answer(c, s, sent).Forwarded? then [sent, Close, Seal(true, call.written)] else [sent]
  }

  function AllParts(c: Config, s: State, calls: seq<Call>): seq<Call> {
    if calls == [] then []
    else
      var front := calls[..|calls| - 1];
      AllParts(c, s, front) + Parts(c, Run(c, s, front).state, calls[|calls| - 1])
  }

  /** The proofs and forwards among the replies. */
  function Spoken(replies: seq<Reply>): seq<Reply> {
    if replies == [] then []
    else Spoken(replies[..|replies| - 1]) + if Speaks(replies[|replies| - 1]) then [replies[|replies| - 1]] else []
  }

  lemma RunLast(c: Config, s: State, calls: seq<Call>, call: Call)
    ensures var h := Run(c, s, calls);
            Run(c, s, calls + [call]) == History(After(c, h.state, call), h.replies + [Answer(c, h.state, call)])
  {
    assert (calls + [call])[..|calls|] == calls;
  }

  /** Running `b` after `a`. */
  ghost predicate RunsOn(c: Config, s: State, a: seq<Call>, b: seq<Call>) {
    var first := Run(c, s, a);
    var second := Run(c, first.state, b);
    Run(c, s, a + b) == History(second.state, first.replies + second.replies)
  }

  lemma RunsOnMore(c: Config, s: State, a: seq<Call>, b: seq<Call>, call: Call)
    requires RunsOn(c, s, a, b)
    ensures RunsOn(c, s, a, b + [call])
  {
    RunLast(c, s, a + b, call);
    RunLast(c, Run(c, s, a).state, b, call);
    assert a + b + [call] == a + (b + [call]);
  }

  lemma {:induction false} RunConcat(c: Config, s: State, a: seq<Call>, b: seq<Call>)
    ensures RunsOn(c, s, a, b)
  {
    if b == [] {
      assert a + b == a;
    } else {
      RunConcat(c, s, a, b[..|b| - 1]);
      RunsOnMore(c, s, a, b[..|b| - 1], b[|b| - 1]);
      assert b == b[..|b| - 1] + [b[|b| - 1]];
    }
  }

  lemma {:induction false} SpokenConcat(a: seq<Reply>, b: seq<Reply>)
    ensures Spoken(a + b) == Spoken(a) + Spoken(b)
  {
    if b == [] {
      assert a + b == a;
    } else {
      SpokenConcat(a, b[..|b| - 1]);
      assert (a + b)[..|a + b| - 1] == a + b[..|b| - 1];
    }
  }

  lemma RunOne(c: Config, s: State, call: Call)
    ensures Run(c, s, [call]) == History(After(c, s, call), [Answer(c, s, call)])
  {
    assert [call][..0] == [];
  }

  lemma RunThree(c: Config, s: State, x: Call, y: Call, z: Call)
    ensures Run(c, s, [x, y, z]).state == After(c, After(c, After(c, s, x), y), z)
    ensures Run(c, s, [x, y, z]).replies ==
              [Answer(c, s, x), Answer(c, After(c, s, x), y), Answer(c, After(c, After(c, s, x), y), z)]
  {
    assert [x, y, z] == [x] + [y] + [z];
    RunOne(c, s, x);
    RunConcat(c, s, [x], [y]);
    RunOne(c, After(c, s, x), y);
    RunConcat(c, s, [x] + [y], [z]);
    RunOne(c, After(c, After(c, s, x), y), z);
  }

  lemma SpokenFirst(reply: Reply, more: seq<Reply>)
    requires forall r :: r in more ==> !Speaks(r)
    ensures Spoken([reply] + more) == if Speaks(reply) then [reply] else []
  {
    SpokenConcat([reply], more);
    SpokenNone(more);
    assert [reply][..0] == [];
  }

  lemma {:induction false} SpokenNone(replies: seq<Reply>)
    requires forall r :: r in replies ==> !Speaks(r)
    ensures Spoken(replies) == []
  {
    if replies != [] { SpokenNone(replies[..|replies| - 1]); }
  }

  lemma OnePart(c: Config, s: State, part: Call)
    ensures Run(c, s, [part]).state == After(c, s, part)
    ensures Spoken(Run(c, s, [part]).replies) == if Speaks(Answer(c, s, part)) then [Answer(c, s, part)] else []
  {
    RunOne(c, s, part);
    assert [Answer(c, s, part)] + [] == [Answer(c, s, part)];
    SpokenFirst(Answer(c, s, part), []);
  }

  lemma ThreeParts(c: Config, s: State, sent: Call, written: bool)
    requires sent.SendPrompt? && Answer(c, s, sent).Forwarded?
    ensures var run := Run(c, s, [sent, Close, Seal(true, written)]);
            && run.state ==
                 s.(forwarded := true, closed := true, alive := false, file := SealFile(c.sha, s.file, true, written))
            && Spoken(run.replies) == [Answer(c, s, sent)]
  {
    RunThree(c, s, sent, Close, Seal(true, written));
    assert Run(c, s, [sent, Close, Seal(true, written)]).replies == [Answer(c, s, sent)] + [Done, Done];
    SpokenFirst(Answer(c, s, sent), [Done, Done]);
  }

  lemma DispatchAnswers(c: Config, s: State, call: Call, sent: Call)
    requires call.DispatchPrompt? && !Blank(call.request.owner)
    requires sent == SendPrompt(call.request, call.process, call.prompt, call.accepted)
    ensures Answer(c, s, call) == Answer(c, s, sent)
    ensures After(c, s, call) == if Answer(c, s, sent).Forwarded?
                                 then s.(forwarded := true, closed := true, alive := false,
                                         file := SealFile(c.sha, s.file, true, call.written))
                                 else After(c, s, sent)
  {
  }

  /** The calls do what `call` does, and say what it says. */
  ghost predicate Does(c: Config, s: State, parts: seq<Call>, after: State, reply: Reply) {
    && Run(c, s, parts).state == after
    && Spoken(Run(c, s, parts).replies) == (if Speaks(reply) then [reply] else [])
    && forall part :: part in parts ==> !part.DispatchPrompt?
  }

  lemma PartsRun(c: Config, s: State, call: Call)
    ensures Does(c, s, Parts(c, s, call), After(c, s, call), Answer(c, s, call))
  {
    if !call.DispatchPrompt? {
      OnePart(c, s, call);
    } else if !Blank(call.request.owner) {
      DispatchRuns(c, s, call, SendPrompt(call.request, call.process, call.prompt, call.accepted));
    }
  }

  lemma DispatchRuns(c: Config, s: State, call: Call, sent: Call)
    requires call.DispatchPrompt? && !Blank(call.request.owner)
    requires sent == SendPrompt(call.request, call.process, call.prompt, call.accepted)
    ensures Does(c, s, Parts(c, s, call), After(c, s, call), Answer(c, s, call))
  {
    DispatchAnswers(c, s, call, sent);
    if Answer(c, s, sent).Forwarded? { ThreeParts(c, s, sent, call.written); } else { OnePart(c, s, sent); }
  }

  /** Every run is a run of single calls, with the same end and the same proofs and forwards in the same order: what
      holds of single calls interleaved at will holds of dispatches too. */
  lemma {:induction false} DispatchesAreSingleCalls(c: Config, s: State, calls: seq<Call>)
    ensures Run(c, s, AllParts(c, s, calls)).state == Run(c, s, calls).state
    ensures Spoken(Run(c, s, AllParts(c, s, calls)).replies) == Spoken(Run(c, s, calls).replies)
    ensures forall part :: part in AllParts(c, s, calls) ==> !part.DispatchPrompt?
  {
    if calls != [] {
      var front, last := calls[..|calls| - 1], calls[|calls| - 1];
      var now := Run(c, s, front).state;
      DispatchesAreSingleCalls(c, s, front);
      RunConcat(c, s, AllParts(c, s, front), Parts(c, now, last));
      PartsRun(c, now, last);
      SpokenConcat(Run(c, s, AllParts(c, s, front)).replies, Run(c, now, Parts(c, now, last)).replies);
    }
  }

  /** A forward happens only in an open runtime, for the right owner, run, descriptor, connection and session, and while
      the relay's own process is seen alive under its recorded identity. */
  lemma ForwardMatches(c: Config, s: State, calls: seq<Call>, i: nat)
    requires i < |calls| && Run(c, s, calls).replies[i].Forwarded?
    ensures var now, call := Run(c, s, calls[..i]).state, calls[i];
            && (call.SendPrompt? || call.DispatchPrompt?)
            && !now.closed && !now.eof && !now.forwarded && now.session != ""
            && call.request.owner == c.owner && call.request.runId == c.runId && HexEqual(call.request.digest, c.digest)
            && call.request.connection == c.connection && call.request.session == now.session
            && LiveProcess(c, call.process) && call.prompt.Some?
            && Run(c, s, calls).replies[i] == Forwarded(now.session, call.prompt.value)
  {
    RunPrefix(c, s, calls, i);
  }

  /** A proof is issued only by an open runtime before the connection's end, to the owner of the run, and it names the
      session and the process that are live at that moment. */
  lemma ProofIsLive(c: Config, s: State, calls: seq<Call>, i: nat)
    requires i < |calls| && Run(c, s, calls).replies[i].Proof?
    ensures var now, call := Run(c, s, calls[..i]).state, calls[i];
            && call.GetProof? && !now.closed && !now.eof && now.session != ""
            && call.request.owner == c.owner && call.request.runId == c.runId && HexEqual(call.request.digest, c.digest)
            && LiveProcess(c, call.process) && Run(c, s, calls).replies[i] == Proof(call.process.pid, now.session)
  {
    RunPrefix(c, s, calls, i);
  }

  /** Once the runtime is closed or the connection has ended, no proof is issued and no prompt is forwarded. */
  lemma SilentAfterEnd(c: Config, s: State, calls: seq<Call>, i: nat, j: nat)
    requires i <= j < |calls| && (Run(c, s, calls[..i]).state.closed || Run(c, s, calls[..i]).state.eof)
    ensures !Speaks(Run(c, s, calls).replies[j])
  {
    RunPrefix(c, s, calls, j);
    assert calls[..j][..i] == calls[..i];
    FlagsStay(c, s, calls[..j], i);
  }

  // ---- what a failing forward and a failing seal leave open ----

  /** A forward that raises is not remembered, so the same call can reach the peer any
      number of times: only successes are bounded. */
  lemma {:induction false} RaisingForwardsRepeat(c: Config, s: State, call: Call, n: nat)
    requires (call.SendPrompt? || call.DispatchPrompt?) && Answer(c, s, call) == Refuse(ForwardRaised)
    ensures var h := Run(c, s, seq(n, _ => call));
            h.state == s && forall i :: 0 <= i < n ==> h.replies[i] == Refuse(ForwardRaised)
  {
    if n > 0 {
      RaisingForwardsRepeat(c, s, call, n - 1);
      assert seq(n, _ => call)[..n - 1] == seq(n - 1, _ => call);
    }
  }

  /** After a dispatched prompt every later load refuses, whatever digest it expects, exactly when it refused before or
      the seal could be written. */
  lemma LoadsRefusedIffSealed(c: Config, s: State, call: Call, expected: string)
    requires call.DispatchPrompt? && Answer(c, s, call).Forwarded?
    ensures LoadDescriptor(c.sha, After(c, s, call).file, expected).LoadRefused? <==>
              call.written || LoadDescriptor(c.sha, s.file, expected).LoadRefused?
    ensures s.file.Some? ==>
              After(c, s, call).file.Some?
              && DigestOf(c.sha, After(c, s, call).file.value) == DigestOf(c.sha, s.file.value)
  {
    if s.file.Some? {
      SealKeepsDigest(c.sha, s.file.value, true);
      SealedIsRefused(c.sha, s.file.value, true, expected);
    }
  }

  predicate Refusing(sha: Descriptor -> string, file: Option<Descriptor>, expected: string) {
    LoadDescriptor(sha, file, expected).LoadRefused?
  }

  lemma StepKeepsRefusing(c: Config, s: State, call: Call, expected: string)
    requires Refusing(c.sha, s.file, expected)
    ensures Refusing(c.sha, After(c, s, call).file, expected)
  {
    if s.file.Some? {
      SealedIsRefused(c.sha, s.file.value, true, expected);
      SealedIsRefused(c.sha, s.file.value, false, expected);
    }
  }

  /** Whatever is called later, a descriptor that refuses goes on refusing. */
  lemma {:induction false} RefusalIsFinal(c: Config, s: State, calls: seq<Call>, expected: string)
    requires Refusing(c.sha, s.file, expected)
    ensures Refusing(c.sha, Run(c, s, calls).state.file, expected)
  {
    if calls != [] {
      RefusalIsFinal(c, s, calls[..|calls| - 1], expected);
      StepKeepsRefusing(c, Run(c, s, calls[..|calls| - 1]).state, calls[|calls| - 1], expected);
    }
  }
}
