/** Whole-turn packing of a history into maintenance calls under a token and a
    byte budget, and the bound on its calls. */
module Packing {
  import opened Common
  import opened Rounding

  /** The estimator, the two budgets of one call, and the summary reserve in tokens and bytes. */
  datatype Limits = Limits(estimate: nat -> nat, tokens: int, bytes: int, summary: nat, summaryBytes: nat)

  /** Under a ratio estimator the summary's byte bound is what its token bound allows. */
  ghost predicate RatioLimits(p: Pos, q: Pos, l: Limits) {
    Rounds(p, q, l.estimate) && l.summaryBytes == BytesWithin(p, q, l.summary)
  }

  const HEADER_BYTES: nat := 15
  const SEPARATOR_BYTES: nat := 1

  // ---- the plan ----

  datatype Cost = Cost(tokens: nat, bytes: nat)

  const NOTHING := Cost(0, 0)

  function Add(a: Cost, b: Cost): Cost {
    Cost(a.tokens + b.tokens, a.bytes + b.bytes)
  }

  function TurnCost(l: Limits, turn: nat): Cost {
    Cost(l.estimate(turn), turn)
  }

  /** What a call after another starts with: the earlier summary at its maximum, and a separator. */
  function Steady(l: Limits): Cost {
    Cost(l.estimate(HEADER_BYTES) + l.summary + l.estimate(SEPARATOR_BYTES),
         HEADER_BYTES + l.summaryBytes + SEPARATOR_BYTES)
  }

  /** Turns, given by their rendered bytes, with a separator between two. */
  function Content(l: Limits, chunk: seq<nat>): Cost {
    if chunk == [] then NOTHING
    else if |chunk| == 1 then TurnCost(l, chunk[0])
    else Add(Content(l, chunk[..|chunk| - 1]), Add(TurnCost(l, SEPARATOR_BYTES), TurnCost(l, chunk[|chunk| - 1])))
  }

  predicate Within(l: Limits, c: Cost) {
    c.tokens <= l.tokens && c.bytes <= l.bytes
  }

  function StartOf(l: Limits, first: Cost, i: nat): Cost {
    if i == 0 then first else Steady(l)
  }

  predicate Fits(l: Limits, first: Cost, i: nat, chunk: seq<nat>) {
    Within(l, Add(StartOf(l, first, i), Content(l, chunk)))
  }

  function Flatten(chunks: seq<seq<nat>>): seq<nat> {
    if chunks == [] then [] else Flatten(chunks[..|chunks| - 1]) + chunks[|chunks| - 1]
  }

  /** The chunk cannot take one more turn. */
  predicate Full(l: Limits, first: Cost, i: nat, chunk: seq<nat>, next: nat) {
    !Fits(l, first, i, chunk + [next])
  }

  /** The chunk at `i` fits, and is full for the first turn of the next one. */
  predicate Placed(l: Limits, first: Cost, chunks: seq<seq<nat>>, i: nat) {
    && i < |chunks| && chunks[i] != [] && Fits(l, first, i, chunks[i])
    && (i + 1 < |chunks| ==> chunks[i + 1] != [] && Full(l, first, i, chunks[i], chunks[i + 1][0]))
  }

  ghost predicate Packed(l: Limits, first: Cost, chunks: seq<seq<nat>>) {
    forall i: nat :: i < |chunks| ==> Placed(l, first, chunks, i)
  }

  /** What one more turn of a chunk costs: a separator unless it is the first. */
  function Extra(l: Limits, chunk: seq<nat>, turn: nat): Cost {
    if chunk == [] then TurnCost(l, turn) else Add(TurnCost(l, SEPARATOR_BYTES), TurnCost(l, turn))
  }

  lemma ContentGrows(l: Limits, chunk: seq<nat>, turn: nat)
    ensures Content(l, chunk + [turn]) == Add(Content(l, chunk), Extra(l, chunk, turn))
  {
    assert (chunk + [turn])[..|chunk|] == chunk;
  }

  lemma UsedGrows(l: Limits, start: Cost, chunk: seq<nat>, turn: nat)
    ensures Add(start, Content(l, chunk + [turn])) == Add(Add(start, Content(l, chunk)), Extra(l, chunk, turn))
  {
    ContentGrows(l, chunk, turn);
  }

  /** The longest run of turns from `index` on that fits both budgets. */
  method FillChunk(l: Limits, first: Cost, i: nat, turns: seq<nat>, index: nat) returns (chunk: seq<nat>)
    requires index < |turns|
    ensures index + |chunk| <= |turns| && chunk == turns[index..index + |chunk|]
    ensures chunk != [] ==> Fits(l, first, i, chunk)
    ensures index + |chunk| < |turns| ==> Full(l, first, i, chunk, turns[index + |chunk|])
  {
    chunk := [];
    var used := StartOf(l, first, i);
    while index + |chunk| < |turns|
      invariant index + |chunk| <= |turns| && chunk == turns[index..index + |chunk|]
      invariant used == Add(StartOf(l, first, i), Content(l, chunk))
      invariant chunk != [] ==> Within(l, used)
      decreases |turns| - |chunk|
    {
      var turn := turns[index + |chunk|];
      var extra := Extra(l, chunk, turn);
      UsedGrows(l, StartOf(l, first, i), chunk, turn);
      if used.tokens + extra.tokens > l.tokens || used.bytes + extra.bytes > l.bytes { return; }
      used := Add(used, extra);
      chunk := chunk + [turn];
    }
  }

  lemma FlattenGrows(chunks: seq<seq<nat>>, chunk: seq<nat>)
    ensures Flatten(chunks + [chunk]) == Flatten(chunks) + chunk
  {
    assert (chunks + [chunk])[..|chunks|] == chunks;
  }

  lemma PackedGrows(l: Limits, first: Cost, chunks: seq<seq<nat>>, chunk: seq<nat>)
    requires Packed(l, first, chunks) && chunk != [] && Fits(l, first, |chunks|, chunk)
    requires chunks != [] ==> Full(l, first, |chunks| - 1, chunks[|chunks| - 1], chunk[0])
    ensures Packed(l, first, chunks + [chunk])
  {
    var all := chunks + [chunk];
    forall i: nat | i < |all| ensures Placed(l, first, all, i) {
      if i < |chunks| {
        assert Placed(l, first, chunks, i) && all[i] == chunks[i];
        assert i + 1 < |chunks| ==> all[i + 1] == chunks[i + 1];
      } else {
        assert all[i] == chunk;
      }
    }
  }

  /** The engine's plan: greedy whole-turn chunks covering the turns in order, or nothing when a turn fits no chunk. */
  method Plan(l: Limits, first: Cost, turns: seq<nat>) returns (plan: Option<seq<seq<nat>>>, ghost done: seq<seq<nat>>,
              ghost stuck: nat)
    ensures plan.Some? ==> Packed(l, first, plan.value) && Flatten(plan.value) == turns
    ensures plan.None? ==>
              Packed(l, first, done) && stuck < |turns| && Flatten(done) == turns[..stuck]
              && !Fits(l, first, |done|, [turns[stuck]])
  {
    var chunks, index := [], 0;
    done, stuck := [], 0;
    while index < |turns|
      invariant index <= |turns| && Packed(l, first, chunks) && Flatten(chunks) == turns[..index]
      invariant chunks != [] && index < |turns| ==> Full(l, first, |chunks| - 1, chunks[|chunks| - 1], turns[index])
    {
      var chunk := FillChunk(l, first, |chunks|, turns, index);
      if chunk == [] {
        assert chunk + [turns[index]] == [turns[index]];
        return None, chunks, index;
      }
      PackedGrows(l, first, chunks, chunk);
      FlattenGrows(chunks, chunk);
      assert turns[..index] + chunk == turns[..index + |chunk|];
      chunks := chunks + [chunk];
      index := index + |chunk|;
    }
    assert turns[..|turns|] == turns;
    plan := Some(chunks);
  }

  // ---- a planned call really fits ----

  function JoinedBytes(chunk: seq<nat>): nat {
    if chunk == [] then 0
    else if |chunk| == 1 then chunk[0]
    else JoinedBytes(chunk[..|chunk| - 1]) + SEPARATOR_BYTES + chunk[|chunk| - 1]
  }

  predicate AddsUp(estimate: nat -> nat, a: nat, b: nat) {
    estimate(a + b) <= estimate(a) + estimate(b)
  }

  /** What the engine asks of an estimator: a joined text is never estimated above its parts. */
  ghost predicate Subadditive(estimate: nat -> nat) {
    forall a: nat, b: nat :: AddsUp(estimate, a, b)
  }

  lemma RatioIsSubadditive(p: Pos, q: Pos, estimate: nat -> nat)
    requires Rounds(p, q, estimate)
    ensures Subadditive(estimate)
  {
    forall a: nat, b: nat ensures AddsUp(estimate, a, b) {
      assert Rounded(p, q, a, estimate(a)) && Rounded(p, q, b, estimate(b)) && Rounded(p, q, a + b, estimate(a + b));
      RoundedAdds(p, q, a, estimate(a), b, estimate(b), estimate(a + b));
    }
  }

  /** The planner's sum of estimates is never below the estimate of the joined text. */
  lemma {:induction false} ContentBounds(l: Limits, chunk: seq<nat>)
    requires Subadditive(l.estimate)
    ensures Content(l, chunk).bytes == JoinedBytes(chunk)
            && (chunk != [] ==> l.estimate(JoinedBytes(chunk)) <= Content(l, chunk).tokens)
  {
    if |chunk| > 1 {
      var front, last := chunk[..|chunk| - 1], chunk[|chunk| - 1];
      ContentBounds(l, front);
      assert AddsUp(l.estimate, JoinedBytes(front), SEPARATOR_BYTES);
      assert AddsUp(l.estimate, JoinedBytes(front) + SEPARATOR_BYTES, last);
    }
  }

  /** A summary within its reserve in tokens and in bytes. */
  predicate Acceptable(l: Limits, summary: nat) {
    l.estimate(summary) <= l.summary && summary <= l.summaryBytes
  }

  /** Under a ratio estimator with its byte bound the token test alone decides. */
  lemma AcceptableByTokens(p: Pos, q: Pos, l: Limits, summary: nat)
    requires RatioLimits(p, q, l)
    ensures Acceptable(l, summary) <==> l.estimate(summary) <= l.summary
  {
    assert Rounded(p, q, summary, l.estimate(summary));
    ByteBoundIsExact(p, q, summary, l.estimate(summary), l.summary);
  }

  /** What the first call starts with: nothing, or the very summary it goes on from. */
  function PriorCost(l: Limits, prior: Option<nat>): Cost {
    if prior.None? then NOTHING
    else Cost(l.estimate(HEADER_BYTES + prior.value) + l.estimate(SEPARATOR_BYTES),
              HEADER_BYTES + prior.value + SEPARATOR_BYTES)
  }

  /** The real input of a call: what it continues, and its turns. */
  function InputBytes(prior: Option<nat>, chunk: seq<nat>): nat {
    if prior.None? then JoinedBytes(chunk) else HEADER_BYTES + prior.value + SEPARATOR_BYTES + JoinedBytes(chunk)
  }

  lemma ReusedIsNoMore(l: Limits, prior: Option<nat>)
    requires Subadditive(l.estimate) && (prior.Some? ==> Acceptable(l, prior.value))
    ensures NoMore(PriorCost(l, prior), Steady(l))
  {
    assert prior.Some? ==> AddsUp(l.estimate, HEADER_BYTES, prior.value);
  }

  lemma InputFits(l: Limits, prior: Option<nat>, start: Cost, chunk: seq<nat>)
    requires Subadditive(l.estimate) && chunk != [] && NoMore(PriorCost(l, prior), start)
             && Within(l, Add(start, Content(l, chunk)))
    ensures l.estimate(InputBytes(prior, chunk)) <= l.tokens && InputBytes(prior, chunk) <= l.bytes
  {
    ContentBounds(l, chunk);
    if prior.Some? {
      assert AddsUp(l.estimate, HEADER_BYTES + prior.value, SEPARATOR_BYTES);
      assert AddsUp(l.estimate, HEADER_BYTES + prior.value + SEPARATOR_BYTES, JoinedBytes(chunk));
    }
  }

  /** Every call of a plan stays within both budgets: the first with the summary it was planned with, a later one with
      any summary that the engine accepts. */
  lemma PlannedInputFits(l: Limits, first: Option<nat>, chunks: seq<seq<nat>>, i: nat, prior: Option<nat>)
    requires Subadditive(l.estimate) && Packed(l, PriorCost(l, first), chunks) && i < |chunks|
    requires if i == 0 then prior == first else prior.Some? && Acceptable(l, prior.value)
    ensures l.estimate(InputBytes(prior, chunks[i])) <= l.tokens && InputBytes(prior, chunks[i]) <= l.bytes
  {
    assert Placed(l, PriorCost(l, first), chunks, i);
    if i > 0 { ReusedIsNoMore(l, prior); }
    InputFits(l, prior, StartOf(l, PriorCost(l, first), i), chunks[i]);
  }

  /** Under a ratio estimator with its byte bound, a summary within its token bound is enough. */
  lemma RatioInputFits(p: Pos, q: Pos, l: Limits, first: Option<nat>, chunks: seq<seq<nat>>, i: nat, prior: Option<nat>)
    requires RatioLimits(p, q, l) && Packed(l, PriorCost(l, first), chunks) && i < |chunks|
    requires if i == 0 then prior == first else prior.Some? && l.estimate(prior.value) <= l.summary
    ensures l.estimate(InputBytes(prior, chunks[i])) <= l.tokens && InputBytes(prior, chunks[i]) <= l.bytes
  {
    RatioIsSubadditive(p, q, l.estimate);
    if i > 0 { AcceptableByTokens(p, q, l, prior.value); }
    PlannedInputFits(l, first, chunks, i, prior);
  }

  // ---- what all chunks cost together ----

  function Total(s: seq<nat>): nat {
    if s == [] then 0 else Total(s[..|s| - 1]) + s[|s| - 1]
  }

  /** What the first `n` costs come to together. */
  function Spent(costs: seq<Cost>, n: nat): Cost
    requires n <= |costs|
  {
    if n == 0 then NOTHING else Add(Spent(costs, n - 1), costs[n - 1])
  }

  function Costs(l: Limits, chunks: seq<seq<nat>>): (costs: seq<Cost>)
    ensures |costs| == |chunks| && forall i :: 0 <= i < |chunks| ==> costs[i] == Content(l, chunks[i])
  {
    seq(|chunks|, i requires 0 <= i < |chunks| => Content(l, chunks[i]))
  }

  predicate NoMore(a: Cost, b: Cost) {
    a.tokens <= b.tokens && a.bytes <= b.bytes
  }

  lemma {:induction false} SpentPrefix(costs: seq<Cost>, all: seq<Cost>, n: nat)
    requires n <= |costs| <= |all| && forall i :: 0 <= i < |costs| ==> all[i] == costs[i]
    ensures Spent(all, n) == Spent(costs, n)
    decreases n
  {
    if n > 0 { SpentPrefix(costs, all, n - 1); }
  }

  lemma {:induction false} SpentConcat(all: seq<Cost>, m: nat, b: seq<Cost>, n: nat)
    requires n <= |b| && |all| == m + |b| && forall i, j :: 0 <= i < |b| && j == m + i ==> all[j] == b[i]
    ensures Spent(all, m + n).tokens == Spent(all, m).tokens + Spent(b, n).tokens
    ensures Spent(all, m + n).bytes == Spent(all, m).bytes + Spent(b, n).bytes
    decreases n
  {
    if n > 0 {
      var k := m + n - 1;
      SpentConcat(all, m, b, n - 1);
      assert all[k] == b[n - 1];
      assert Spent(all, k + 1) == Add(Spent(all, k), all[k]);
    }
  }

  /** The cost of each turn with one separator. */
  function Each(l: Limits, turns: seq<nat>): (costs: seq<Cost>)
    ensures |costs| == |turns|
            && forall i :: 0 <= i < |turns| ==> costs[i] == Add(TurnCost(l, SEPARATOR_BYTES), TurnCost(l, turns[i]))
  {
    seq(|turns|, i requires 0 <= i < |turns| => Add(TurnCost(l, SEPARATOR_BYTES), TurnCost(l, turns[i])))
  }

  /** What the turns come to with a separator for each. */
  function Upper(l: Limits, turns: seq<nat>): Cost {
    Spent(Each(l, turns), |turns|)
  }

  lemma UpperConcat(l: Limits, a: seq<nat>, b: seq<nat>)
    ensures Upper(l, a + b).tokens == Upper(l, a).tokens + Upper(l, b).tokens
            && Upper(l, a + b).bytes == Upper(l, a).bytes + Upper(l, b).bytes
  {
    SpentPrefix(Each(l, a), Each(l, a + b), |a|);
    SpentConcat(Each(l, a + b), |a|, Each(l, b), |b|);
  }

  lemma UpperLast(l: Limits, turns: seq<nat>)
    requires turns != []
    ensures Upper(l, turns) ==
              Add(Upper(l, turns[..|turns| - 1]), Add(TurnCost(l, SEPARATOR_BYTES), TurnCost(l, turns[|turns| - 1])))
  {
    var n := |turns| - 1;
    var front, last := Each(l, turns[..n]), Each(l, turns)[n];
    SpentPrefix(front, Each(l, turns), n);
  }

  lemma {:induction false} ContentUpper(l: Limits, chunk: seq<nat>)
    ensures NoMore(Content(l, chunk), Upper(l, chunk))
    ensures chunk != [] ==> NoMore(TurnCost(l, chunk[0]), Content(l, chunk))
  {
    if chunk != [] {
      ContentUpper(l, chunk[..|chunk| - 1]);
      UpperLast(l, chunk);
    }
  }

  /** One more chunk. */
  lemma UpperStays(l: Limits, turns: seq<nat>, spent: Cost, chunk: seq<nat>)
    requires NoMore(spent, Upper(l, turns))
    ensures NoMore(Add(spent, Content(l, chunk)), Upper(l, turns + chunk))
  {
    ContentUpper(l, chunk);
    UpperConcat(l, turns, chunk);
  }

  lemma {:induction false} SpentUpper(l: Limits, chunks: seq<seq<nat>>, n: nat)
    requires n <= |chunks|
    ensures NoMore(Spent(Costs(l, chunks), n), Upper(l, Flatten(chunks[..n])))
  {
    if n > 0 {
      SpentUpper(l, chunks, n - 1);
      assert chunks[..n] == chunks[..n - 1] + [chunks[n - 1]];
      FlattenGrows(chunks[..n - 1], chunks[n - 1]);
      UpperStays(l, Flatten(chunks[..n - 1]), Spent(Costs(l, chunks), n - 1), chunks[n - 1]);
    }
  }

  lemma {:induction false} SpentGrows(costs: seq<Cost>, n: nat, m: nat)
    requires n <= m <= |costs|
    ensures NoMore(Spent(costs, n), Spent(costs, m))
  {
    if n < m { SpentGrows(costs, n, m - 1); }
  }

  // ---- the bound ----

  /** The room a later call has beside its summary. */
  function TokenCapacity(l: Limits): int {
    l.tokens - Steady(l).tokens
  }

  function ByteCapacity(l: Limits): int {
    l.bytes - Steady(l).bytes
  }

  function TokenRoom(l: Limits): int {
    TokenCapacity(l) - l.estimate(SEPARATOR_BYTES)
  }

  function ByteRoom(l: Limits): int {
    ByteCapacity(l) - SEPARATOR_BYTES
  }

  predicate TokensOnly(p: Pos, q: Pos, l: Limits) {
    p * ByteCapacity(l) >= q * TokenCapacity(l)
  }

  /** The most a source can cost: every turn rounded up, a separator for each of as many turns as it can hold. */
  function MostTokens(l: Limits, source: nat, turns: nat): nat {
    l.estimate(source) + turns + turns * l.estimate(SEPARATOR_BYTES)
  }

  function MostBytes(source: nat, turns: nat): nat {
    source + turns * SEPARATOR_BYTES
  }

  function Most(l: Limits, source: nat, smallest: Pos): Cost {
    Cost(MostTokens(l, source, FloorDiv(source, smallest)), MostBytes(source, FloorDiv(source, smallest)))
  }

  /** Twice the rounded-up sum of two quotients, less one. */
  function TwoQuotients(a: nat, x: Pos, b: nat, y: Pos): int {
    MulStrict(0, x, y);
    2 * CeilDiv(a * y + b * x, x * y) - 1
  }

  /** Two chunks in a row together exceed the room in a budget. */
  lemma NeighboursExceed(l: Limits, first: Cost, a: seq<nat>, i: nat, b: seq<nat>)
    requires NoMore(first, Steady(l)) && a != [] && b != [] && Full(l, first, i, a, b[0])
    ensures var both := Add(Content(l, a), Content(l, b)); both.tokens > TokenRoom(l) || both.bytes > ByteRoom(l)
  {
    ContentGrows(l, a, b[0]);
    ContentUpper(l, b);
  }

  /** Where the ratio makes the byte budget the looser one, the two chunks exceed the token room. */
  lemma NeighboursExceedTokens(p: Pos, q: Pos, l: Limits, first: Cost, a: seq<nat>, i: nat, b: seq<nat>)
    requires NoMore(first, Steady(l)) && a != [] && b != [] && Full(l, first, i, a, b[0])
    requires Rounds(p, q, l.estimate) && TokensOnly(p, q, l)
    ensures Add(Content(l, a), Content(l, b)).tokens > TokenRoom(l)
  {
    ContentGrows(l, a, b[0]);
    ContentUpper(l, b);
    var more := a + [b[0]];
    RatioIsSubadditive(p, q, l.estimate);
    ContentBounds(l, more);
    if JoinedBytes(more) > ByteCapacity(l) {
      assert Rounded(p, q, JoinedBytes(more), l.estimate(JoinedBytes(more)));
      MoreBytesMoreTokens(p, q, ByteCapacity(l), JoinedBytes(more), l.estimate(JoinedBytes(more)), TokenCapacity(l));
    }
  }

  /** `n` times `room`. */
  function Times(n: nat, room: int): int {
    if n == 0 then 0 else Times(n - 1, room) + room
  }

  lemma {:induction false} TimesIsProduct(n: nat, room: int)
    ensures Times(n, room) == n * room
  {
    if n > 0 { TimesIsProduct(n - 1, room); }
  }

  /** `n` rooms of one budget are exceeded by what was spent in it. */
  predicate Exceeds(n: nat, room: int, spent: nat) {
    Times(n, room) <= spent && (n > 0 ==> Times(n, room) < spent)
  }

  /** Two costs together exceed the room in a budget: in tokens when `tokensOnly`. */
  predicate Over(a: Cost, b: Cost, room: Room, tokensOnly: bool) {
    a.tokens + b.tokens > room.tokens || (!tokensOnly && a.bytes + b.bytes > room.bytes)
  }

  datatype Room = Room(tokens: int, bytes: int)

  function RoomOf(l: Limits): Room {
    Room(TokenRoom(l), ByteRoom(l))
  }

  ghost predicate PairsOver(costs: seq<Cost>, room: Room, tokensOnly: bool) {
    forall i, j :: 0 <= i && j == i + 1 && j < |costs| ==> Over(costs[i], costs[j], room, tokensOnly)
  }

  lemma PackedPairsOver(p: Pos, q: Pos, l: Limits, first: Cost, chunks: seq<seq<nat>>)
    requires NoMore(first, Steady(l)) && Rounds(p, q, l.estimate) && Packed(l, first, chunks)
    ensures PairsOver(Costs(l, chunks), RoomOf(l), TokensOnly(p, q, l))
  {
    var costs := Costs(l, chunks);
    forall i, j | 0 <= i && j == i + 1 && j < |costs| ensures Over(costs[i], costs[j], RoomOf(l), TokensOnly(p, q, l)) {
      assert Placed(l, first, chunks, i) && Placed(l, first, chunks, j);
      NeighboursExceed(l, first, chunks[i], i, chunks[j]);
      if TokensOnly(p, q, l) { NeighboursExceedTokens(p, q, l, first, chunks[i], i, chunks[j]); }
    }
  }

  lemma ExceedsMore(n: nat, room: int, spent: nat, more: nat)
    requires Exceeds(n, room, spent)
    ensures Exceeds(n, room, spent + more) && (more > room ==> Exceeds(n + 1, room, spent + more))
  {
  }

  /** Among the first `m` disjoint pairs of neighbours, `t` exceed the token room and `u` the byte room. */
  lemma {:induction false} PairsExceed(costs: seq<Cost>, room: Room, tokensOnly: bool, m: nat) returns (t: nat, u: nat)
    requires PairsOver(costs, room, tokensOnly) && 2 * m <= |costs|
    ensures t + u == m && (tokensOnly ==> u == 0)
    ensures Exceeds(t, room.tokens, Spent(costs, 2 * m).tokens) && Exceeds(u, room.bytes, Spent(costs, 2 * m).bytes)
  {
    if m == 0 {
      t, u := 0, 0;
    } else {
      t, u := PairsExceed(costs, room, tokensOnly, m - 1);
      var k := 2 * m - 2;
      var before, a, b := Spent(costs, k), costs[k], costs[k + 1];
      assert Spent(costs, k + 1) == Add(before, a) && Spent(costs, k + 2) == Add(Add(before, a), b);
      assert Over(a, b, room, tokensOnly);
      ExceedsMore(t, room.tokens, before.tokens, a.tokens + b.tokens);
      ExceedsMore(u, room.bytes, before.bytes, a.bytes + b.bytes);
      if a.tokens + b.tokens > room.tokens { t := t + 1; } else { u := u + 1; }
    }
  }

  // ---- the totals ----

  lemma UpperStep(p: Pos, q: Pos, l: Limits, n: nat, t: nat, total: nat, last: nat, s: nat)
    requires t * q <= p * total + n * (q - 1) + n * s * q && Rounded(p, q, last, l.estimate(last))
             && s == l.estimate(SEPARATOR_BYTES)
    ensures (t + s + l.estimate(last)) * q <= p * (total + last) + (n + 1) * (q - 1) + (n + 1) * s * q
  {
    var e := l.estimate(last);
    assert (t + s + e) * q == t * q + s * q + e * q;
    assert p * (total + last) == p * total + p * last;
    assert (n + 1) * (q - 1) == n * (q - 1) + (q - 1);
    assert (n + 1) * s * q == n * s * q + s * q by { assert (n + 1) * s == n * s + s; }
  }

  /** Rounding adds less than one token per turn. */
  lemma {:induction false} UpperRounds(p: Pos, q: Pos, l: Limits, turns: seq<nat>)
    requires Rounds(p, q, l.estimate)
    ensures Upper(l, turns).tokens * q <=
              p * Total(turns) + |turns| * (q - 1) + |turns| * l.estimate(SEPARATOR_BYTES) * q
    ensures Upper(l, turns).bytes == Total(turns) + |turns| * SEPARATOR_BYTES
  {
    if turns != [] {
      var front, last := turns[..|turns| - 1], turns[|turns| - 1];
      UpperRounds(p, q, l, front);
      UpperLast(l, turns);
      assert Rounded(p, q, last, l.estimate(last));
      UpperStep(p, q, l, |front|, Upper(l, front).tokens, Total(front), last, l.estimate(SEPARATOR_BYTES));
    }
  }

  lemma {:induction false} TotalAtLeast(turns: seq<nat>, smallest: Pos)
    requires forall i :: 0 <= i < |turns| ==> turns[i] >= smallest
    ensures Total(turns) >= |turns| * smallest
  {
    if turns != [] {
      TotalAtLeast(turns[..|turns| - 1], smallest);
      assert |turns| * smallest == (|turns| - 1) * smallest + smallest;
    }
  }

  lemma DivBounds(n: nat, d: Pos, total: nat)
    requires n * d <= total
    ensures n <= FloorDiv(total, d)
  {
    FloorDivRounds(total, d);
    var f := FloorDiv(total, d);
    assert (f + 1) * d == f * d + d;
    Cancel(n, f + 1, d);
  }

  /** The arithmetic of the token total. */
  lemma TokensAtMost(p: Pos, q: Pos, t: nat, total: nat, source: nat, e: nat, n: nat, turns: nat, s: nat)
    requires t * q <= p * total + n * (q - 1) + n * s * q && total <= source && n <= turns && Rounded(p, q, source, e)
    ensures t <= e + turns + turns * s
  {
    MulMono(total, source, p);
    assert n * (q - 1) <= n * q by { assert n * (q - 1) == n * q - n; }
    MulMono(n, turns, s);
    assert (e + n + n * s) * q == e * q + n * q + n * s * q;
    if t > e + n + n * s { MulStrict(e + n + n * s, t, q); }
  }

  lemma SpentAtMost(p: Pos, q: Pos, l: Limits, chunks: seq<seq<nat>>, source: nat, smallest: Pos)
    requires Rounds(p, q, l.estimate) && Total(Flatten(chunks)) <= source
    requires forall i :: 0 <= i < |Flatten(chunks)| ==> Flatten(chunks)[i] >= smallest
    ensures NoMore(Spent(Costs(l, chunks), |chunks|), Most(l, source, smallest))
  {
    var turns := Flatten(chunks);
    SpentUpper(l, chunks, |chunks|);
    assert chunks[..|chunks|] == chunks;
    UpperRounds(p, q, l, turns);
    TotalAtLeast(turns, smallest);
    DivBounds(|turns|, smallest, source);
    assert Rounded(p, q, source, l.estimate(source));
    TokensAtMost(p, q, Upper(l, turns).tokens, Total(turns), source, l.estimate(source), |turns|,
                 FloorDiv(source, smallest), l.estimate(SEPARATOR_BYTES));
  }

  // ---- from exceeded rooms to the number of calls ----

  lemma OneQuotientBounds(m: nat, n: nat, room: Pos, most: nat)
    requires Exceeds(m, room, most) && n <= 2 * m + 1 && most > 0
    ensures n <= 2 * CeilDiv(most, room) - 1
  {
    TimesIsProduct(m, room);
    BelowCeil(m, most, room);
  }

  lemma TwoQuotientsBound(t: nat, u: nat, n: nat, a: nat, x: Pos, b: nat, y: Pos)
    requires Exceeds(t, x, a) && Exceeds(u, y, b) && n <= 2 * (t + u) + 1 && b > 0
    ensures n <= TwoQuotients(a, x, b, y)
  {
    TimesIsProduct(t, x);
    TimesIsProduct(u, y);
    MulStrict(0, x, y);
    MulStrict(0, b, x);
    if t + u > 0 { CrossBound(t, u, t * x, u * y, a, x, b, y); }
    assert (t + u) * (x * y) < a * y + b * x;
    BelowCeil(t + u, a * y + b * x, x * y);
  }

  lemma PairsAreFew(costs: seq<Cost>, room: Room, tokensOnly: bool, most: Cost) returns (t: nat, u: nat)
    requires PairsOver(costs, room, tokensOnly) && NoMore(Spent(costs, |costs|), most)
    ensures |costs| <= 2 * (t + u) + 1 && (tokensOnly ==> u == 0)
    ensures Exceeds(t, room.tokens, most.tokens) && Exceeds(u, room.bytes, most.bytes)
  {
    var m := |costs| / 2;
    t, u := PairsExceed(costs, room, tokensOnly, m);
    SpentGrows(costs, 2 * m, |costs|);
  }

  /** The bound for given totals and rooms. */
  function CallsFor(tokensOnly: bool, most: Cost, room: Room): int
    requires room.tokens > 0 && room.bytes > 0
  {
    if tokensOnly
    then 2 * CeilDiv(most.tokens, room.tokens) - 1
    else TwoQuotients(most.tokens, room.tokens, most.bytes, room.bytes)
  }

  /** The computed bound, `None` when a call has no room. */
  function WorstCalls(p: Pos, q: Pos, l: Limits, source: nat, smallest: Pos): Option<int> {
    if TokenRoom(l) <= 0 || ByteRoom(l) <= 0 then None
    else Some(CallsFor(TokensOnly(p, q, l), Most(l, source, smallest), RoomOf(l)))
  }

  lemma FewCalls(costs: seq<Cost>, room: Room, tokensOnly: bool, most: Cost)
    requires room.tokens > 0 && room.bytes > 0 && most.tokens > 0 && most.bytes > 0
    requires PairsOver(costs, room, tokensOnly) && NoMore(Spent(costs, |costs|), most)
    ensures |costs| <= CallsFor(tokensOnly, most, room)
  {
    var t, u := PairsAreFew(costs, room, tokensOnly, most);
    if tokensOnly {
      OneQuotientBounds(t, |costs|, room.tokens, most.tokens);
    } else {
      TwoQuotientsBound(t, u, |costs|, most.tokens, room.tokens, most.bytes, room.bytes);
    }
  }

  lemma MostIsPositive(p: Pos, q: Pos, l: Limits, source: Pos, smallest: Pos)
    requires Rounds(p, q, l.estimate)
    ensures Most(l, source, smallest).tokens > 0 && Most(l, source, smallest).bytes > 0
  {
    assert Rounded(p, q, source, l.estimate(source));
    SomeTokens(p, q, source, l.estimate(source));
  }

  /** For every history within a source limit of at least one byte, greedy packing uses no more calls than computed, in
      the two-budget case and in the case where tokens alone decide. */
  lemma CallsAreBounded(p: Pos, q: Pos, l: Limits, first: Cost, chunks: seq<seq<nat>>, source: Pos, smallest: Pos)
    requires NoMore(first, Steady(l)) && Rounds(p, q, l.estimate) && Packed(l, first, chunks)
    requires Total(Flatten(chunks)) <= source
             && forall i :: 0 <= i < |Flatten(chunks)| ==> Flatten(chunks)[i] >= smallest
    requires WorstCalls(p, q, l, source, smallest).Some?
    ensures |chunks| <= WorstCalls(p, q, l, source, smallest).value
  {
    SpentAtMost(p, q, l, chunks, source, smallest);
    PackedPairsOver(p, q, l, first, chunks);
    MostIsPositive(p, q, l, source, smallest);
    FewCalls(Costs(l, chunks), RoomOf(l), TokensOnly(p, q, l), Most(l, source, smallest));
  }

  /** With an empty source limit the computed bound is below zero, so even the empty plan exceeds it. */
  lemma EmptySourceBreaksTheBound(p: Pos, q: Pos, l: Limits, first: Cost, smallest: Pos)
    requires Rounds(p, q, l.estimate) && TokenRoom(l) > 0 && ByteRoom(l) > 0
    ensures WorstCalls(p, q, l, 0, smallest) == Some(-1) && Packed(l, first, []) && Flatten([]) == []
  {
    assert Rounded(p, q, 0, l.estimate(0));
    if l.estimate(0) > 0 { MulMono(1, l.estimate(0), q); }
    BelowCeil(0, 0, TokenRoom(l));
    MulStrict(0, TokenRoom(l), ByteRoom(l));
    BelowCeil(0, 0, TokenRoom(l) * ByteRoom(l));
  }

  // ---- the other limits ----

  /** A single turn can be summarized exactly up to the computed sizes: after a prior summary, and first of all. */
  lemma LargestTurn(p: Pos, q: Pos, l: Limits, turn: nat)
    requires Rounds(p, q, l.estimate)
    ensures Fits(l, NOTHING, 1, [turn]) <==> turn <= BytesWithin(p, q, TokenCapacity(l)) && turn <= ByteCapacity(l)
    ensures Fits(l, NOTHING, 0, [turn]) <==> turn <= BytesWithin(p, q, l.tokens) && turn <= l.bytes
  {
    assert Rounded(p, q, turn, l.estimate(turn));
    ByteBoundIsExact(p, q, turn, l.estimate(turn), TokenCapacity(l));
    ByteBoundIsExact(p, q, turn, l.estimate(turn), l.tokens);
  }

  /** The authority of the first `n` turns, each at its rounded-up cost. */
  function Authority(estimate: nat -> nat, record: nat -> nat, n: nat): nat {
    if n == 0 then 0 else Authority(estimate, record, n - 1) + estimate(record(n))
  }

  /** The most turns whose exact authority fits the allocation; every record has at least one byte. */
  method MostTurns(p: Pos, q: Pos, record: nat -> nat, allocation: nat) returns (turns: nat)
    requires forall n: nat :: record(n) >= 1
    ensures forall n: nat :: Authority(RatioEstimator(p, q), record, n) <= allocation <==> n <= turns
  {
    var estimate := RatioEstimator(p, q);
    RatioRounds(p, q);
    var used := 0;
    turns := 0;
    while used + estimate(record(turns + 1)) <= allocation
      invariant used == Authority(estimate, record, turns) <= allocation
      decreases allocation - used
    {
      assert Authority(estimate, record, turns + 1) >= used + 1 by {
        AuthorityGrows(p, q, estimate, record, turns, turns + 1);
      }
      used := used + estimate(record(turns + 1));
      turns := turns + 1;
    }
    forall n: nat ensures Authority(estimate, record, n) <= allocation <==> n <= turns {
      if n <=
        turns { AuthorityGrows(p, q, estimate, record, n, turns); } else { AuthorityGrows(p, q, estimate, record,
            turns + 1, n); }
    }
  }

  lemma {:induction false} AuthorityGrows(p: Pos, q: Pos, estimate: nat -> nat, record: nat -> nat, a: nat, b: nat)
    requires a <= b && Rounds(p, q, estimate) && forall n: nat :: record(n) >= 1
    ensures Authority(estimate, record, b) >= Authority(estimate, record, a) + (b - a)
  {
    if a < b {
      AuthorityGrows(p, q, estimate, record, a, b - 1);
      assert Rounded(p, q, record(b), estimate(record(b)));
      SomeTokens(p, q, record(b), estimate(record(b)));
    }
  }
}
