/**
 * Sequences of records identified by a key and updated by "replace the first record
 * that has the same key, otherwise append". Two parts of the application work this way:
 * a JavaScript `Map` filled by `set` (insertion order of first occurrence, last value
 * wins), and a MongoDB `updateOne` with `upsert: true` filtered on a key.
 */
module KeyedSeq {
  import opened Js

  ghost function Keys<T, K>(s: seq<T>, key: T -> K): set<K> {
    set i | 0 <= i < |s| :: key(s[i])
  }

  ghost predicate DistinctKeys<T, K>(s: seq<T>, key: T -> K) {
    forall i, j :: 0 <= i < j < |s| ==> key(s[i]) != key(s[j])
  }

  /** The position of the first element whose key is `k`. */
  function IndexOfKey<T, K(==)>(s: seq<T>, key: T -> K, k: K): (r: Option<nat>)
    ensures r.Some? ==> r.value < |s| && key(s[r.value]) == k
    ensures r.Some? ==> forall j :: 0 <= j < r.value ==> key(s[j]) != k
    ensures r.None? <==> k !in Keys(s, key)
  {
    if s == [] then None
    else if key(s[0]) == k then Some(0)
    else
      match IndexOfKey(s[1..], key, k)
      case None =>
        assert forall j :: 1 <= j < |s| ==> s[j] == s[1..][j - 1];
        None
      case Some(i) => Some(i + 1)
  }

  /** Insert-or-replace one element. */
  function Put<T, K(==)>(s: seq<T>, key: T -> K, x: T): (r: seq<T>)
    ensures Keys(r, key) == Keys(s, key) + {key(x)}
    ensures key(x) in Keys(s, key) ==> |r| == |s|
    ensures key(x) !in Keys(s, key) ==> r == s + [x]
    ensures |s| <= |r| && forall i :: 0 <= i < |s| ==> key(r[i]) == key(s[i])
    ensures forall i :: 0 <= i < |s| && key(s[i]) != key(x) ==> r[i] == s[i]
    ensures DistinctKeys(s, key) ==> DistinctKeys(r, key)
    ensures DistinctKeys(s, key) ==> forall i :: 0 <= i < |r| && key(r[i]) == key(x) ==> r[i] == x
  {
    match IndexOfKey(s, key, key(x))
    case Some(i) =>
      var r := s[i := x];
      assert Keys(r, key) == Keys(s, key) by {
        assert forall j :: 0 <= j < |s| ==> key(r[j]) == key(s[j]);
      }
      r
    case None =>
      var r := s + [x];
      assert Keys(r, key) == Keys(s, key) + {key(x)} by {
        assert key(r[|s|]) == key(x);
        assert forall j :: 0 <= j < |s| ==> r[j] == s[j];
      }
      r
  }

  /** Insert-or-replace every element of `xs`, in order. */
  function PutAll<T, K(==)>(s: seq<T>, key: T -> K, xs: seq<T>): seq<T>
    decreases |xs|
  {
    if xs == [] then s else Put(PutAll(s, key, xs[..|xs| - 1]), key, xs[|xs| - 1])
  }

  /** The last element of `xs` whose key is `k`. */
  ghost function LastWithKey<T, K>(xs: seq<T>, key: T -> K, k: K): (r: T)
    requires k in Keys(xs, key)
    ensures key(r) == k && r in xs
    decreases |xs|
  {
    var last := xs[|xs| - 1];
    if key(last) == k then last
    else
      assert k in Keys(xs[..|xs| - 1], key) by {
        var i :| 0 <= i < |xs| && key(xs[i]) == k;
        assert i < |xs| - 1 && xs[..|xs| - 1][i] == xs[i];
      }
      LastWithKey(xs[..|xs| - 1], key, k)
  }

  /** The position of the first element of `xs` whose key is `k`. */
  ghost function FirstIndex<T, K>(xs: seq<T>, key: T -> K, k: K): (r: nat)
    requires k in Keys(xs, key)
    ensures r < |xs| && key(xs[r]) == k
    ensures forall j :: 0 <= j < r ==> key(xs[j]) != k
    decreases |xs|
  {
    if key(xs[0]) == k then 0
    else
      assert k in Keys(xs[1..], key) by {
        var i :| 0 <= i < |xs| && key(xs[i]) == k;
        assert 0 < i && xs[1..][i - 1] == xs[i];
      }
      1 + FirstIndex(xs[1..], key, k)
  }

  lemma KeysSnoc<T, K>(ys: seq<T>, key: T -> K, x: T)
    ensures Keys(ys + [x], key) == Keys(ys, key) + {key(x)}
  {
    var zs := ys + [x];
    assert forall j :: 0 <= j < |ys| ==> zs[j] == ys[j];
    assert zs[|ys|] == x;
  }

  /**
   * What a batch of insert-or-replace does to a sequence with distinct keys: keys stay
   * distinct, the keys are the old ones plus the batch's, old positions keep their keys,
   * every element whose key occurs in the batch is the batch's last element with that key,
   * the other old elements are unchanged, and nothing is appended when every key of the
   * batch was already present.
   */
  lemma {:induction false} PutAllFacts<T, K>(s: seq<T>, key: T -> K, xs: seq<T>)
    requires DistinctKeys(s, key)
    ensures var t := PutAll(s, key, xs);
      && DistinctKeys(t, key)
      && Keys(t, key) == Keys(s, key) + Keys(xs, key)
      && |s| <= |t|
      && (forall i :: 0 <= i < |s| ==> key(t[i]) == key(s[i]))
      && (forall i :: 0 <= i < |t| && key(t[i]) in Keys(xs, key) ==> t[i] == LastWithKey(xs, key, key(t[i])))
      && (forall i :: 0 <= i < |s| && key(s[i]) !in Keys(xs, key) ==> t[i] == s[i])
      && (Keys(xs, key) <= Keys(s, key) ==> |t| == |s|)
    decreases |xs|
  {
    if xs == [] {
      assert Keys(xs, key) == {};
    } else {
      var ys, x := xs[..|xs| - 1], xs[|xs| - 1];
      assert xs == ys + [x];
      KeysSnoc(ys, key, x);
      PutAllFacts(s, key, ys);
      var u := PutAll(s, key, ys);
      var t := Put(u, key, x);
      assert t == PutAll(s, key, xs);
      forall i | 0 <= i < |t| && key(t[i]) in Keys(xs, key)
        ensures t[i] == LastWithKey(xs, key, key(t[i]))
      {
        if key(t[i]) != key(x) {
          assert i < |u| && t[i] == u[i];
        }
      }
    }
  }

  /** Applying the same batch twice leaves the sequence as one application does. */
  lemma PutAllIdempotent<T, K>(s: seq<T>, key: T -> K, xs: seq<T>)
    requires DistinctKeys(s, key)
    ensures PutAll(PutAll(s, key, xs), key, xs) == PutAll(s, key, xs)
  {
    var t := PutAll(s, key, xs);
    PutAllFacts(s, key, xs);
    PutAllFacts(t, key, xs);
    var u := PutAll(t, key, xs);
    forall i | 0 <= i < |t| ensures u[i] == t[i] {
      assert key(u[i]) == key(t[i]);
    }
  }

  /** Appending an element keeps the first index of every key already present; a new key's first index is the end. */
  lemma FirstIndexSnoc<T, K>(ys: seq<T>, key: T -> K, x: T)
    ensures Keys(ys + [x], key) == Keys(ys, key) + {key(x)}
    ensures forall k :: k in Keys(ys, key) ==> FirstIndex(ys + [x], key, k) == FirstIndex(ys, key, k)
    ensures key(x) !in Keys(ys, key) ==> FirstIndex(ys + [x], key, key(x)) == |ys|
  {
    var xs := ys + [x];
    KeysSnoc(ys, key, x);
    forall k | k in Keys(ys, key) ensures FirstIndex(xs, key, k) == FirstIndex(ys, key, k) {
      var a, b := FirstIndex(xs, key, k), FirstIndex(ys, key, k);
      assert xs[b] == ys[b];
    }
  }

  /** Built from nothing, the result lists the keys in the order of their first occurrence in the batch. */
  lemma {:induction false} PutAllFirstOccurrenceOrder<T, K>(key: T -> K, xs: seq<T>)
    ensures var t := PutAll([], key, xs);
      Keys(t, key) == Keys(xs, key) &&
      forall i, j :: 0 <= i < j < |t| ==>
        FirstIndex(xs, key, key(t[i])) < FirstIndex(xs, key, key(t[j]))
    decreases |xs|
  {
    if xs == [] {
      assert Keys(xs, key) == {};
    } else {
      var ys, x := xs[..|xs| - 1], xs[|xs| - 1];
      assert xs == ys + [x];
      FirstIndexSnoc(ys, key, x);
      PutAllFirstOccurrenceOrder(key, ys);
      var u := PutAll([], key, ys);
      var t := Put(u, key, x);
      assert t == PutAll([], key, xs);
      forall i, j | 0 <= i < j < |t|
        ensures FirstIndex(xs, key, key(t[i])) < FirstIndex(xs, key, key(t[j]))
      {
        assert key(t[i]) == key(u[i]) && key(u[i]) in Keys(u, key);
        if j < |u| {
          assert key(t[j]) == key(u[j]) && key(u[j]) in Keys(u, key);
        } else {
          assert key(t[j]) == key(x) && key(x) !in Keys(ys, key);
        }
      }
    }
  }
}
