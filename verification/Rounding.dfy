/** Rounded-up ratios p/q of a number of bytes, and the bound in bytes that goes with a bound in tokens. */
module Rounding {
  type Pos = n: int | n >= 1 witness 1

  /** The rounded-up quotient of a non-negative number: how many parts of size `d` hold `a`. */
  function CeilDiv(a: nat, d: Pos): nat {
    if a == 0 then 0 else 1 + CeilDiv(if a > d then a - d else 0, d)
  }

  /** The rounded-down quotient: how many parts of size `d` fit in `a`. */
  function FloorDiv(a: nat, d: Pos): nat {
    if a < d then 0 else 1 + FloorDiv(a - d, d)
  }

  lemma {:induction false} FloorDivRounds(a: nat, d: Pos)
    ensures FloorDiv(a, d) * d <= a < FloorDiv(a, d) * d + d && FloorDiv(a, d) == a / d
  {
    if a >= d {
      FloorDivRounds(a - d, d);
      assert (1 + FloorDiv(a - d, d)) * d == d + FloorDiv(a - d, d) * d;
      SameQuotient(a, FloorDiv(a, d), d);
    } else {
      SameQuotient(a, 0, d);
    }
  }

  lemma SameQuotient(a: nat, n: nat, d: Pos)
    requires n * d <= a < n * d + d
    ensures n == a / d
  {
    var m := a / d;
    assert a == m * d + a % d;
    assert (n + 1) * d == n * d + d && (m + 1) * d == m * d + d;
    Cancel(n, m + 1, d);
    Cancel(m, n + 1, d);
  }

  /** `t` is p/q times `b`, rounded up. */
  predicate Rounded(p: Pos, q: Pos, b: nat, t: nat) {
    p * b <= t * q < p * b + q
  }

  ghost predicate Rounds(p: Pos, q: Pos, estimate: nat -> nat) {
    forall b: nat {:trigger Rounded(p, q, b, estimate(b))} :: Rounded(p, q, b, estimate(b))
  }

  lemma MulMono(a: int, b: int, c: nat)
    requires a <= b
    ensures a * c <= b * c
  {
  }

  lemma Cancel(a: int, b: int, c: Pos)
    requires a * c < b * c
    ensures a < b
  {
    if a >= b { MulMono(b, a, c); }
  }

  lemma {:induction false} CeilDivRounds(a: nat, d: Pos)
    ensures a <= CeilDiv(a, d) * d < a + d && CeilDiv(a, d) == (a + d - 1) / d
  {
    if a > 0 {
      var rest := if a > d then a - d else 0;
      CeilDivRounds(rest, d);
      assert (1 + CeilDiv(rest, d)) * d == d + CeilDiv(rest, d) * d;
    }
    SameQuotient(a + d - 1, CeilDiv(a, d), d);
  }

  /** The smallest number of whole parts of size `d` that hold `a`. */
  lemma BelowCeil(m: nat, a: nat, d: Pos)
    ensures m * d < a <==> m < CeilDiv(a, d)
  {
    CeilDivRounds(a, d);
    var r := CeilDiv(a, d);
    if m * d < a { Cancel(m, r, d); }
    if m < r {
      MulMono(m, r - 1, d);
      assert (r - 1) * d == r * d - d;
    }
  }

  function RatioEstimator(p: Pos, q: Pos): nat -> nat {
    (b: nat) => CeilDiv(p * b, q)
  }

  lemma RatioRounds(p: Pos, q: Pos)
    ensures Rounds(p, q, RatioEstimator(p, q))
  {
    forall b: nat ensures Rounded(p, q, b, RatioEstimator(p, q)(b)) { CeilDivRounds(p * b, q); }
  }

  /** The rounded-down quotient: the most bytes whose estimate stays within `tokens`. */
  function BytesWithin(p: Pos, q: Pos, tokens: int): int {
    (tokens * q) / p
  }

  lemma BytesWithinBounds(p: Pos, q: Pos, tokens: int)
    ensures BytesWithin(p, q, tokens) * p <= tokens * q < BytesWithin(p, q, tokens) * p + p
  {
    assert tokens * q == BytesWithin(p, q, tokens) * p + (tokens * q) % p;
  }

  /** A text is within a token limit exactly when it is within the limit's byte bound:
      neither bound rejects what the other admits. */
  lemma ByteBoundIsExact(p: Pos, q: Pos, b: nat, t: nat, tokens: int)
    requires Rounded(p, q, b, t)
    ensures t <= tokens <==> b <= BytesWithin(p, q, tokens)
  {
    var f := BytesWithin(p, q, tokens);
    BytesWithinBounds(p, q, tokens);
    if t <= tokens {
      MulMono(t, tokens, q);
      assert b * p < (f + 1) * p by { assert (f + 1) * p == f * p + p; }
      Cancel(b, f + 1, p);
    }
    if b <= f {
      MulMono(b, f, p);
      assert t * q < (tokens + 1) * q by { assert (tokens + 1) * q == tokens * q + q; }
      Cancel(t, tokens + 1, q);
    }
  }

  lemma RoundedAdds(p: Pos, q: Pos, a: nat, x: nat, b: nat, y: nat, z: nat)
    requires Rounded(p, q, a, x) && Rounded(p, q, b, y) && Rounded(p, q, a + b, z)
    ensures z <= x + y
  {
    assert p * (a + b) == p * a + p * b && (x + y + 1) * q == x * q + y * q + q;
    Cancel(z, x + y + 1, q);
  }

  /** A text of more than `b` bytes costs more than any token count that `b` bytes already reach. */
  lemma MoreBytesMoreTokens(p: Pos, q: Pos, b: int, bytes: nat, t: nat, tokens: int)
    requires Rounded(p, q, bytes, t) && bytes > b && p * b >= q * tokens
    ensures t > tokens
  {
    MulMono(b + 1, bytes, p);
    assert p * (b + 1) == p * b + p;
    assert tokens * q < t * q;
    Cancel(tokens, t, q);
  }

  lemma SomeTokens(p: Pos, q: Pos, b: Pos, t: nat)
    requires Rounded(p, q, b, t)
    ensures t >= 1
  {
    MulMono(1, p, b);
  }

  lemma MulStrict(a: int, b: int, c: Pos)
    requires a < b
    ensures a * c < b * c
  {
    MulMono(a + 1, b, c);
    assert (a + 1) * c == a * c + c;
  }

  lemma CrossExpands(t: int, u: int, x: int, y: int)
    ensures (t + u) * (x * y) == (t * x) * y + (u * y) * x
  {
    Regroup(t, x, y);
    Regroup(u, y, x);
    assert x * y == y * x;
  }

  lemma Regroup(t: int, x: int, y: int)
    ensures t * (x * y) == (t * x) * y
  {
  }

  /** `t` of the first kind and `u` of the second, each exceeding its room, stay below the sum of the two quotients. */
  lemma CrossBound(t: nat, u: nat, a: nat, b: nat, tokens: nat, tokenRoom: Pos, bytes: nat, byteRoom: Pos)
    requires a == t * tokenRoom && a <= tokens && (t > 0 ==> a < tokens)
    requires b == u * byteRoom && b <= bytes && (u > 0 ==> b < bytes) && t + u > 0
    ensures (t + u) * (tokenRoom * byteRoom) < tokens * byteRoom + bytes * tokenRoom
  {
    assert (t + u) * (tokenRoom * byteRoom) == a * byteRoom + b * tokenRoom by {
      CrossExpands(t, u, tokenRoom, byteRoom);
    }
    if t > 0 {
      MulStrict(a, tokens, byteRoom);
      MulMono(b, bytes, tokenRoom);
    } else {
      MulMono(a, tokens, byteRoom);
      MulStrict(b, bytes, tokenRoom);
    }
  }
}
