/** Following one link per node: shared by the parent links of an inventory and the supersession links of a ledger. */
module Chains {
  import opened Common

  /** The node `n` links after `k`, or `None` once the links run out. */
  function Walk<K>(next: map<K, K>, k: K, n: nat): Option<K> {
    if n == 0 then Some(k)
    else match Walk(next, k, n - 1)
      case None => None
      case Some(x) => if x in next then Some(next[x]) else None
  }

  ghost predicate OnCycle<K(!new)>(next: map<K, K>, k: K) {
    exists n: nat :: n >= 1 && Walk(next, k, n) == Some(k)
  }

  ghost predicate Acyclic<K(!new)>(next: map<K, K>) {
    forall k: K :: !OnCycle(next, k)
  }

  lemma {:induction false} WalkAdd<K>(next: map<K, K>, k: K, a: nat, b: nat)
    requires Walk(next, k, a).Some?
    ensures Walk(next, k, a + b) == Walk(next, Walk(next, k, a).value, b)
  {
    if b > 0 { WalkAdd(next, k, a, b - 1); }
  }

  /** A walk that goes on was defined all the way. */
  lemma {:induction false} WalkDefined<K>(next: map<K, K>, k: K, a: nat, b: nat)
    requires a <= b && Walk(next, k, b).Some?
    ensures Walk(next, k, a).Some?
    ensures a < b ==> Walk(next, k, a).value in next
  {
    if a < b { WalkDefined(next, k, a, b - 1); }
  }

  /** A walk that has met the same node at `i` and `j` never leaves the stretch between them. */
  lemma {:induction false} WalkRepeats<K>(next: map<K, K>, k: K, i: nat, j: nat, n: nat) returns (m: nat)
    requires i < j && Walk(next, k, i).Some? && Walk(next, k, i) == Walk(next, k, j) && i <= n
    ensures i <= m < j && Walk(next, k, n) == Walk(next, k, m)
  {
    if n == i {
      m := i;
    } else {
      var p := WalkRepeats(next, k, i, j, n - 1);
      m := if p + 1 == j then i else p + 1;
    }
  }

  /** Within as many steps as there are links, a walk either reaches a node without a link (at `i == j`)
      or is at the same node after `i` and after `j` steps. */
  lemma WalkEndsOrRepeats<K(!new)>(next: map<K, K>, k: K) returns (i: nat, j: nat)
    ensures i <= j <= |next| && Walk(next, k, i).Some?
    ensures i == j ==> Walk(next, k, i).value !in next
    ensures i < j ==> Walk(next, k, i) == Walk(next, k, j)
  {
    if n: nat :| n <= |next| && !(Walk(next, k, n).Some? && Walk(next, k, n).value in next) {
      i := FirstEnd(next, k, n);
      j := i;
    } else {
      if forall a: nat, b: nat | a < b <= |next| :: Walk(next, k, a) != Walk(next, k, b) {
        DistinctFits(seq(|next| + 1, a requires 0 <= a <= |next| => Walk(next, k, a).value), next.Keys);
        assert false;
      }
      i, j :| i < j <= |next| && Walk(next, k, i) == Walk(next, k, j);
    }
  }

  lemma {:induction false} FirstEnd<K(!new)>(next: map<K, K>, k: K, n: nat) returns (m: nat)
    requires !(Walk(next, k, n).Some? && Walk(next, k, n).value in next)
    ensures m <= n && Walk(next, k, m).Some? && Walk(next, k, m).value !in next
  {
    if Walk(next, k, n).None? { m := FirstEnd(next, k, n - 1); } else { m := n; }
  }

  /** Without cycles every node leads to a node without a link, in at most as many steps as there are links. */
  lemma AcyclicWalkEnds<K(!new)>(next: map<K, K>, k: K) returns (n: nat)
    requires Acyclic(next)
    ensures n <= |next| && Walk(next, k, n).Some? && Walk(next, k, n).value !in next
  {
    var i, j := WalkEndsOrRepeats(next, k);
    if i < j {
      WalkAdd(next, k, i, j - i);
      assert OnCycle(next, Walk(next, k, i).value);
      assert false;
    }
    n := i;
  }

  /** A walk that runs out started on no cycle. */
  lemma EndedIsNoCycle<K(!new)>(next: map<K, K>, k: K, m: nat)
    requires Walk(next, k, m).Some? && Walk(next, k, m).value !in next
    ensures !OnCycle(next, k)
  {
    if n: nat :| n >= 1 && Walk(next, k, n) == Some(k) {
      var p := WalkRepeats(next, k, 0, n, m + 1);
      WalkDefined(next, k, p, n);
      assert false;
    }
  }

  /** A walk that meets a node again shows a cycle. */
  lemma MetAgainIsCycle<K(!new)>(next: map<K, K>, k: K, i: nat, j: nat)
    requires i < j && Walk(next, k, i).Some? && Walk(next, k, i) == Walk(next, k, j)
    ensures !Acyclic(next)
  {
    WalkAdd(next, k, i, j - i);
    assert OnCycle(next, Walk(next, k, i).value);
  }

  // ---- fewer links, renamed links and links changed in part ----

  lemma {:induction false} WalkInSubmap<K(!new)>(sub: map<K, K>, all: map<K, K>, k: K, n: nat)
    requires forall x :: x in sub ==> x in all && all[x] == sub[x]
    requires Walk(sub, k, n).Some?
    ensures Walk(all, k, n) == Walk(sub, k, n)
  {
    if n > 0 {
      WalkDefined(sub, k, n - 1, n);
      WalkInSubmap(sub, all, k, n - 1);
    }
  }

  /** Fewer links close no cycle. */
  lemma SubmapAcyclic<K(!new)>(sub: map<K, K>, all: map<K, K>)
    requires Acyclic(all) && forall x :: x in sub ==> x in all && all[x] == sub[x]
    ensures Acyclic(sub)
  {
    forall k, n: nat | n >= 1 ensures Walk(sub, k, n) != Some(k) {
      if Walk(sub, k, n) == Some(k) {
        WalkInSubmap(sub, all, k, n);
        assert OnCycle(all, k);
        assert false;
      }
    }
  }

  /** `image` has the links of `next` among the renamed nodes. */
  ghost predicate Renames<K(!new), L(!new)>(next: map<K, K>, image: map<L, L>, name: map<K, L>) {
    forall k :: k in name ==>
      && (k in next <==> name[k] in image)
      && (k in next ==> next[k] in name && image[name[k]] == name[next[k]])
  }

  lemma {:induction false} WalkRenamed<K(!new), L(!new)>(next: map<K, K>, image: map<L, L>, name: map<K, L>, k: K,
                                         n: nat)
    requires Renames(next, image, name) && k in name
    ensures Walk(next, k, n).None? ==> Walk(image, name[k], n).None?
    ensures Walk(next, k, n).Some? ==>
              Walk(next, k, n).value in name && Walk(image, name[k], n) == Some(name[Walk(next, k, n).value])
  {
    if n > 0 { WalkRenamed(next, image, name, k, n - 1); }
  }

  /** Under different names a cycle is a cycle. */
  lemma CycleRenamed<K(!new), L(!new)>(next: map<K, K>, image: map<L, L>, name: map<K, L>, k: K)
    requires Renames(next, image, name) && k in name && OnCycle(image, name[k])
    requires forall a, b :: a in name && b in name && name[a] == name[b] ==> a == b
    ensures OnCycle(next, k)
  {
    var n: nat :| n >= 1 && Walk(image, name[k], n) == Some(name[k]);
    WalkRenamed(next, image, name, k, n);
    assert Walk(next, k, n) == Some(k);
  }

  ghost predicate Closed<K(!new)>(next: map<K, K>, part: set<K>) {
    forall k :: k in part && k in next ==> next[k] in part
  }

  lemma {:induction false} WalkStaysInside<K(!new)>(next: map<K, K>, part: set<K>, k: K, n: nat)
    requires Closed(next, part) && k in part
    ensures Walk(next, k, n).Some? ==> Walk(next, k, n).value in part
  {
    if n > 0 { WalkStaysInside(next, part, k, n - 1); }
  }

  /** A walk that comes back outside a closed part never entered it, so it is a walk of the unchanged links. */
  lemma {:induction false} WalkStaysOutside<K(!new)>(before: map<K, K>, after: map<K, K>, part: set<K>, k: K, m: nat,
                                              n: nat)
    requires Closed(after, part)
             && (forall x :: x !in part ==> (x in before <==> x in after) && (x in before ==> before[x] == after[x]))
    requires m <= n && Walk(after, k, n).Some? && Walk(after, k, n).value !in part
    ensures Walk(after, k, m).Some? && Walk(after, k, m).value !in part && Walk(before, k, m) == Walk(after, k, m)
    decreases m
  {
    WalkDefined(after, k, m, n);
    if Walk(after, k, m).value in part {
      WalkAdd(after, k, m, n - m);
      WalkStaysInside(after, part, Walk(after, k, m).value, n - m);
      assert false;
    }
    if m > 0 { WalkStaysOutside(before, after, part, k, m - 1, n); }
  }

  /** Links changed only within a closed part without cycles close none. */
  lemma ChangedInPart<K(!new)>(before: map<K, K>, after: map<K, K>, part: set<K>)
    requires Closed(after, part)
             && (forall x :: x !in part ==> (x in before <==> x in after) && (x in before ==> before[x] == after[x]))
    requires Acyclic(before) && forall k :: k in part ==> !OnCycle(after, k)
    ensures Acyclic(after)
  {
    forall k, n: nat | k !in part && n >= 1 ensures Walk(after, k, n) != Some(k) {
      if Walk(after, k, n) == Some(k) {
        WalkStaysOutside(before, after, part, k, n, n);
        assert OnCycle(before, k);
        assert false;
      }
    }
  }

  // ---- links that never meet: disjoint chains ----

  ghost predicate NeverMeet<K(!new)>(next: map<K, K>) {
    forall a, b :: a in next && b in next && next[a] == next[b] ==> a == b
  }

  /** Nothing links to the head of a chain. */
  ghost predicate Head<K(!new)>(next: map<K, K>, k: K) {
    forall a :: a in next ==> next[a] != k
  }

  ghost predicate Leads<K(!new)>(next: map<K, K>, from: K, to: K) {
    exists n: nat :: Walk(next, from, n) == Some(to)
  }

  /** Two walks that meet were on one chain: the shorter one started on the longer one. */
  lemma {:induction false} WalksMeet<K(!new)>(next: map<K, K>, a: K, m: nat, b: K, n: nat)
    requires NeverMeet(next) && m <= n && Walk(next, a, m).Some? && Walk(next, a, m) == Walk(next, b, n)
    ensures Walk(next, b, n - m) == Some(a)
  {
    if m > 0 {
      WalkDefined(next, a, m - 1, m);
      WalkDefined(next, b, n - 1, n);
      WalksMeet(next, a, m - 1, b, n - 1);
    }
  }

  lemma OneHead<K(!new)>(next: map<K, K>, a: K, b: K, k: K)
    requires NeverMeet(next) && Head(next, a) && Head(next, b) && Leads(next, a, k) && Leads(next, b, k)
    ensures a == b
  {
    var m: nat :| Walk(next, a, m) == Some(k);
    var n: nat :| Walk(next, b, n) == Some(k);
    if m <= n {
      WalksMeet(next, a, m, b, n);
    } else {
      WalksMeet(next, b, n, a, m);
    }
  }

  /** The links turned round. */
  ghost function Backwards<K(!new)>(next: map<K, K>): (back: map<K, K>)
    ensures forall k :: k in back ==> back[k] in next && next[back[k]] == k
    ensures forall a :: a in next ==> next[a] in back
  {
    map k | k in next.Values :: var a :| a in next && next[a] == k; a
  }

  lemma {:induction false} WalkBack<K(!new)>(next: map<K, K>, k: K, n: nat)
    requires Walk(Backwards(next), k, n).Some?
    ensures Walk(next, Walk(Backwards(next), k, n).value, n) == Some(k)
  {
    if n > 0 {
      var back := Backwards(next);
      WalkDefined(back, k, n - 1, n);
      WalkBack(next, k, n - 1);
      var a, b := Walk(back, k, n).value, Walk(back, k, n - 1).value;
      assert Walk(next, a, 1) == Some(b) by { assert Walk(next, a, 0) == Some(a); }
      WalkAdd(next, a, 1, n - 1);
    }
  }

  /** On disjoint acyclic chains every node lies below exactly one head (see `OneHead`). */
  lemma HeadExists<K(!new)>(next: map<K, K>, k: K) returns (head: K)
    requires Acyclic(next)
    ensures Head(next, head) && Leads(next, head, k)
  {
    var back := Backwards(next);
    forall x ensures !OnCycle(back, x) {
      if n: nat :| n >= 1 && Walk(back, x, n) == Some(x) {
        WalkBack(next, x, n);
        assert OnCycle(next, x);
        assert false;
      }
    }
    var n := AcyclicWalkEnds(back, k);
    head := Walk(back, k, n).value;
    WalkBack(next, k, n);
  }

  lemma {:induction false} WalkAvoidsFresh<K(!new)>(next: map<K, K>, k: K, p: K, x: K, n: nat)
    requires k !in next && Head(next, k) && p != k && x != k
    ensures Walk(next[k := p], x, n) == Walk(next, x, n) && Walk(next, x, n) != Some(k)
  {
    if n > 0 { WalkAvoidsFresh(next, k, p, x, n - 1); }
  }

  lemma {:induction false} FreshNeverReturns<K(!new)>(next: map<K, K>, k: K, p: K, n: nat)
    requires k !in next && Head(next, k) && p != k && n >= 1
    ensures Walk(next[k := p], k, n) != Some(k)
  {
    if n > 1 { FreshNeverReturns(next, k, p, n - 1); }
    assert Walk(next[k := p], k, 0) == Some(k);
  }

  /** A new head on top of a chain closes no cycle. */
  lemma AcyclicGrows<K(!new)>(next: map<K, K>, k: K, p: K)
    requires Acyclic(next) && k !in next && Head(next, k) && p != k
    ensures Acyclic(next[k := p])
  {
    var grown := next[k := p];
    forall x, n: nat | n >= 1 ensures Walk(grown, x, n) != Some(x) {
      if x == k {
        FreshNeverReturns(next, k, p, n);
      } else {
        WalkAvoidsFresh(next, k, p, x, n);
        assert !OnCycle(next, x);
      }
    }
  }
}
