/** Small values shared by every module: optional values, ASCII case folding and indexing by key. */
module Common {

  datatype Option<+T> = None | Some(value: T)

  type Byte = b: int | 0 <= b < 256

  function LowerChar(c: char): char {
    if 'A' <= c <= 'Z' then (c as int + 32) as char else c
  }

  /** ASCII case folding, as the label and digest comparisons of the tools need it. */
  function Lower(s: string): (r: string)
    ensures |r| == |s|
    ensures forall i :: 0 <= i < |s| ==> r[i] == LowerChar(s[i])
  {
    seq(|s|, i requires 0 <= i < |s| => LowerChar(s[i]))
  }

  /** White space as the tools strip it, within Latin-1. */
  predicate Space(c: char) {
    c == ' ' || '\t' <= c <= '\r' || '\U{1C}' <= c <= '\U{1F}' || c == '\U{85}' || c == '\U{A0}'
  }

  predicate Blank(s: string) {
    forall i :: 0 <= i < |s| ==> Space(s[i])
  }

  /** Digests compared as the tools compare them, whatever the case of their letters. */
  predicate HexEqual(a: string, b: string) {
    Lower(a) == Lower(b)
  }

  ghost predicate Distinct<T(!new)>(s: seq<T>) {
    forall i, j :: 0 <= i < j < |s| ==> s[i] != s[j]
  }

  /** Different members of a set are at most as many as the set. */
  lemma {:induction false} DistinctFits<T(!new)>(s: seq<T>, all: set<T>)
    requires Distinct(s) && forall x :: x in s ==> x in all
    ensures |s| <= |all|
  {
    if s != [] {
      var last := s[|s| - 1];
      DistinctFits(s[..|s| - 1], all - {last});
    }
  }

  /** A dictionary built by assigning every element of `s` under its key, in order: the last one wins. */
  function KeyedBy<K, V>(s: seq<V>, key: V -> K): map<K, V> {
    if s == [] then map[] else KeyedBy(s[..|s| - 1], key)[key(s[|s| - 1]) := s[|s| - 1]]
  }

  ghost predicate DistinctKeys<K(!new), V(!new)>(s: seq<V>, key: V -> K) {
    forall i, j :: 0 <= i < j < |s| ==> key(s[i]) != key(s[j])
  }

  /** The keys are those of the elements; without repeated keys each element is found under its own. */
  lemma {:induction false} KeyedByFinds<K(!new), V(!new)>(s: seq<V>, key: V -> K)
    ensures forall k :: k in KeyedBy(s, key) ==> KeyedBy(s, key)[k] in s && key(KeyedBy(s, key)[k]) == k
    ensures forall v :: v in s ==> key(v) in KeyedBy(s, key)
    ensures DistinctKeys(s, key) ==> forall v :: v in s ==> KeyedBy(s, key)[key(v)] == v
  {
    if s != [] {
      var front, last := s[..|s| - 1], s[|s| - 1];
      KeyedByFinds(front, key);
      assert s == front + [last];
      if DistinctKeys(s, key) {
        forall v | v in s ensures KeyedBy(s, key)[key(v)] == v {
          if v in front {
            var i :| 0 <= i < |front| && front[i] == v;
            assert s[i] == v;
          }
        }
      }
    }
  }

  /** One more element keeps the keys different exactly when its key is new; the dictionary grows by it. */
  lemma DistinctKeysExtend<K(!new), V(!new)>(front: seq<V>, last: V, key: V -> K)
    ensures DistinctKeys(front + [last], key) <==> DistinctKeys(front, key) && key(last) !in KeyedBy(front, key)
    ensures KeyedBy(front + [last], key) == KeyedBy(front, key)[key(last) := last]
  {
    var s := front + [last];
    KeyedByFinds(front, key);
    assert s[..|front|] == front && s[|front|] == last;
    assert forall i :: 0 <= i < |front| ==> s[i] == front[i] && front[i] in front;
    if key(last) in KeyedBy(front, key) {
      var i :| 0 <= i < |front| && front[i] == KeyedBy(front, key)[key(last)];
      assert key(s[i]) == key(s[|front|]);
    }
  }

  /** A key met again among the first elements is a repeated key of the whole. */
  lemma KeyRepeats<K(!new), V(!new)>(s: seq<V>, i: nat, key: V -> K)
    requires i < |s| && key(s[i]) in KeyedBy(s[..i], key)
    ensures !DistinctKeys(s, key)
  {
    KeyedByFinds(s[..i], key);
    var v := KeyedBy(s[..i], key)[key(s[i])];
    var j :| 0 <= j < i && s[..i][j] == v;
    assert key(s[j]) == key(s[i]);
  }

  /** A new key joins the dictionary of the first elements. */
  lemma KeyJoins<K(!new), V(!new)>(s: seq<V>, i: nat, key: V -> K)
    requires i < |s| && DistinctKeys(s[..i], key) && key(s[i]) !in KeyedBy(s[..i], key)
    ensures DistinctKeys(s[..i + 1], key) && KeyedBy(s[..i + 1], key) == KeyedBy(s[..i], key)[key(s[i]) := s[i]]
  {
    DistinctKeysExtend(s[..i], s[i], key);
    assert s[..i + 1] == s[..i] + [s[i]];
  }
}
