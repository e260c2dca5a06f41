/**
 * An insertion-ordered dictionary with string keys: the behaviour of a
 * JavaScript `Map`, and of a plain object with non-numeric keys, under
 * `set`, `get`, `delete` and iteration. Setting an existing key keeps its
 * position; setting a new key appends it.
 */
module Keyed {
  import opened Base
  import Seqs

  type Dict<V> = seq<(string, V)>

  function Keys<V>(d: Dict<V>): (ks: seq<string>)
    ensures |ks| == |d| && forall i :: 0 <= i < |d| ==> ks[i] == d[i].0
  {
    seq(|d|, i requires 0 <= i < |d| => d[i].0)
  }

  function Values<V>(d: Dict<V>): (vs: seq<V>)
    ensures |vs| == |d| && forall i :: 0 <= i < |d| ==> vs[i] == d[i].1
  {
    seq(|d|, i requires 0 <= i < |d| => d[i].1)
  }

  /** No key occurs twice. */
  predicate Unique<V>(d: Dict<V>) {
    forall i, j :: 0 <= i < j < |d| ==> d[i].0 != d[j].0
  }

  predicate HasKey<V>(d: Dict<V>, k: string) {
    exists i :: 0 <= i < |d| && d[i].0 == k
  }

  /** The position of `k`, if present. */
  function Find<V>(d: Dict<V>, k: string): (r: Option<nat>)
    ensures r.None? <==> !HasKey(d, k)
    ensures r.Some? ==> r.value < |d| && d[r.value].0 == k && forall j :: 0 <= j < r.value ==> d[j].0 != k
  {
    if d == [] then None
    else if d[0].0 == k then Some(0)
    else match Find(d[1..], k)
      case None =>
        assert forall i :: 1 <= i < |d| ==> d[i] == d[1..][i - 1];
        None
      case Some(i) => Some(i + 1)
  }

  /** `map.get(k)`. */
  function Get<V>(d: Dict<V>, k: string): (r: Option<V>)
    ensures r.None? <==> !HasKey(d, k)
    ensures r.Some? ==> r.value == d[Find(d, k).value].1
  {
    match Find(d, k)
    case None => None
    case Some(i) => Some(d[i].1)
  }

  /** `map.set(k, v)`: replaces in place when `k` is present, appends otherwise. */
  function Put<V>(d: Dict<V>, k: string, v: V): (r: Dict<V>)
    ensures HasKey(d, k) ==> |r| == |d| && r == d[Find(d, k).value := (k, v)]
    ensures !HasKey(d, k) ==> r == d + [(k, v)]
  {
    match Find(d, k)
    case None => d + [(k, v)]
    case Some(i) => d[i := (k, v)]
  }

  /** The first entry with key `k` is at `i`. */
  lemma FindAt<V>(d: Dict<V>, k: string, i: nat)
    requires i < |d| && d[i].0 == k
    requires forall j :: 0 <= j < i ==> d[j].0 != k
    ensures Find(d, k) == Some(i)
  {
    assert HasKey(d, k);
  }

  /** After `set(k, v)`, `k` maps to `v`, every other key keeps its value, and keys stay unique. */
  lemma PutGet<V>(d: Dict<V>, k: string, v: V)
    ensures Get(Put(d, k, v), k) == Some(v)
    ensures forall k' :: k' != k ==> Get(Put(d, k, v), k') == Get(d, k')
    ensures Unique(d) ==> Unique(Put(d, k, v))
    ensures HasKey(d, k) ==> Keys(Put(d, k, v)) == Keys(d)
    ensures !HasKey(d, k) ==> Keys(Put(d, k, v)) == Keys(d) + [k]
  {
    var r := Put(d, k, v);
    match Find(d, k)
    case None =>
      FindAt(r, k, |d|);
      forall k' | k' != k ensures Get(r, k') == Get(d, k') {
        match Find(d, k')
        case None =>
          forall j | 0 <= j < |r| ensures r[j].0 != k' {
            if j < |d| {
              assert r[j] == d[j];
            }
          }
        case Some(j) =>
          FindAt(r, k', j);
      }
    case Some(i) =>
      FindAt(r, k, i);
      forall k' | k' != k ensures Get(r, k') == Get(d, k') {
        match Find(d, k')
        case None =>
          forall j | 0 <= j < |r| ensures r[j].0 != k' {
            if j != i {
              assert r[j] == d[j];
            }
          }
        case Some(j) =>
          FindAt(r, k', j);
      }
      assert Keys(r) == Keys(d);
  }

  /** `map.delete(k)`, or the object rest pattern without `k`: every entry for `k` removed, order kept. */
  function Remove<V>(d: Dict<V>, k: string): (r: Dict<V>)
    ensures !HasKey(r, k)
    ensures |r| <= |d|
  {
    if d == [] then []
    else if d[0].0 == k then Remove(d[1..], k)
    else
      var rest := Remove(d[1..], k);
      assert forall i :: 1 <= i < |rest| + 1 ==> ([d[0]] + rest)[i] == rest[i - 1];
      [d[0]] + rest
  }

  /** Removing `k` leaves every other key's value as it was. */
  lemma {:induction false} RemoveGet<V>(d: Dict<V>, k: string, k': string)
    requires k' != k
    ensures Get(Remove(d, k), k') == Get(d, k')
  {
    if d != [] {
      RemoveGet(d[1..], k, k');
      if d[0].0 != k && d[0].0 != k' {
        var r := Remove(d, k);
        assert r[1..] == Remove(d[1..], k);
      }
    }
  }

  /** Removing a key that is absent changes nothing. */
  lemma {:induction false} RemoveAbsent<V>(d: Dict<V>, k: string)
    requires !HasKey(d, k)
    ensures Remove(d, k) == d
  {
    if d != [] {
      assert d[0].0 != k;
      RemoveAbsent(d[1..], k);
    }
  }

  /** A key is present after `set(k, v)` exactly when it was present before or is `k`. */
  lemma PutHasKey<V>(d: Dict<V>, k: string, v: V, k': string)
    ensures HasKey(Put(d, k, v), k') <==> HasKey(d, k') || k' == k
  {
    PutGet(d, k, v);
    if k' != k {
      assert Get(Put(d, k, v), k') == Get(d, k');
    }
  }

  /** The keys of a sequence of entries with one more entry at its end. */
  lemma SnocHasKey<V>(c: Dict<V>, k: string)
    requires c != []
    ensures HasKey(c, k) <==> HasKey(c[..|c| - 1], k) || c[|c| - 1].0 == k
  {
    var c' := c[..|c| - 1];
    if HasKey(c', k) {
      var i :| 0 <= i < |c'| && c'[i].0 == k;
      assert c[i] == c'[i];
    }
    if HasKey(c, k) && c[|c| - 1].0 != k {
      var i :| 0 <= i < |c| && c[i].0 == k;
      assert c'[i] == c[i];
    }
  }

  /** `set` applied to each entry of `c` in order, starting from `d`: what a `forEach` that copies entries does. */
  function PutAll<V>(d: Dict<V>, c: Dict<V>): (r: Dict<V>)
    ensures |r| <= |d| + |c|
  {
    if c == [] then d else Put(PutAll(d, c[..|c| - 1]), c[|c| - 1].0, c[|c| - 1].1)
  }

  /** Copying one more entry is one more `set`. */
  lemma PutAllStep<V>(d: Dict<V>, c: Dict<V>, i: nat)
    requires i < |c|
    ensures PutAll(d, c[..i + 1]) == Put(PutAll(d, c[..i]), c[i].0, c[i].1)
  {
    Seqs.TakeSnoc(c, i);
  }

  /** After copying `c` over `d`, the keys are those of `d` and those of `c`. */
  lemma {:induction false} PutAllHasKey<V>(d: Dict<V>, c: Dict<V>, k: string)
    ensures HasKey(PutAll(d, c), k) <==> HasKey(d, k) || HasKey(c, k)
  {
    if c != [] {
      var c' := c[..|c| - 1];
      PutAllHasKey(d, c', k);
      PutHasKey(PutAll(d, c'), c[|c| - 1].0, c[|c| - 1].1, k);
      SnocHasKey(c, k);
    }
  }

  /** Copying entries over a dictionary without repeated keys gives one without repeated keys. */
  lemma {:induction false} PutAllUnique<V>(d: Dict<V>, c: Dict<V>)
    requires Unique(d)
    ensures Unique(PutAll(d, c))
  {
    if c != [] {
      PutAllUnique(d, c[..|c| - 1]);
      PutGet(PutAll(d, c[..|c| - 1]), c[|c| - 1].0, c[|c| - 1].1);
    }
  }

  /** In entries without repeated keys, the last entry is found at its own position. */
  lemma FindLast<V>(c: Dict<V>)
    requires c != [] && Unique(c)
    ensures Find(c, c[|c| - 1].0) == Some(|c| - 1)
  {
    var n := |c| - 1;
    forall j | 0 <= j < n ensures c[j].0 != c[n].0 {
      assert j < n;
    }
    FindAt(c, c[n].0, n);
  }

  /** Looking up a key of the prefix finds it where the prefix has it. */
  lemma GetSnoc<V>(c: Dict<V>, k: string)
    requires c != [] && c[|c| - 1].0 != k
    ensures Get(c, k) == Get(c[..|c| - 1], k)
  {
    var c' := c[..|c| - 1];
    SnocHasKey(c, k);
    match Find(c', k)
    case None =>
    case Some(i) =>
      assert c[i] == c'[i];
      forall j | 0 <= j < i ensures c[j].0 != k {
        assert c[j] == c'[j];
      }
      FindAt(c, k, i);
  }

  /** Copied entries win: a key of `c` maps to its value in `c`, any other key keeps its value in `d`. */
  lemma {:induction false} PutAllGet<V>(d: Dict<V>, c: Dict<V>, k: string)
    requires Unique(c)
    ensures Get(PutAll(d, c), k) == if HasKey(c, k) then Get(c, k) else Get(d, k)
  {
    if c != [] {
      var c' := c[..|c| - 1];
      var (k0, v0) := c[|c| - 1];
      assert Unique(c') by {
        forall i, j | 0 <= i < j < |c'| ensures c'[i].0 != c'[j].0 {
          assert c'[i] == c[i] && c'[j] == c[j];
        }
      }
      PutAllGet(d, c', k);
      PutGet(PutAll(d, c'), k0, v0);
      SnocHasKey(c, k);
      if k == k0 {
        FindLast(c);
      } else {
        GetSnoc(c, k);
      }
    }
  }

  /** The keys `c` adds that `d` does not already have. */
  function AbsentFrom<V>(d: Dict<V>): (keep: string -> bool)
    ensures forall k :: keep(k) <==> !HasKey(d, k)
  {
    k => !HasKey(d, k)
  }

  /**
   * Key order after copying `c` over `d`: the keys of `d` in their order, then
   * the new keys of `c` in theirs.
   */
  lemma {:induction false} PutAllKeys<V>(d: Dict<V>, c: Dict<V>)
    requires Unique(c)
    ensures Keys(PutAll(d, c)) == Keys(d) + Seqs.Filter(Keys(c), AbsentFrom(d))
  {
    if c == [] {
      assert Keys(c) == [];
    } else {
      var c' := c[..|c| - 1];
      var (k0, v0) := c[|c| - 1];
      assert Unique(c') by {
        forall i, j | 0 <= i < j < |c'| ensures c'[i].0 != c'[j].0 {
          assert c'[i] == c[i] && c'[j] == c[j];
        }
      }
      PutAllKeys(d, c');
      forall i | 0 <= i < |c'| ensures c'[i].0 != k0 {
        assert c'[i] == c[i];
      }
      PutAllHasKey(d, c', k0);
      PutGet(PutAll(d, c'), k0, v0);
      FilterKeysSnoc(c, AbsentFrom(d));
    }
  }

  /** Filtering the keys of entries with one more entry at the end. */
  lemma FilterKeysSnoc<V>(c: Dict<V>, keep: string -> bool)
    requires c != []
    ensures Seqs.Filter(Keys(c), keep)
         == Seqs.Filter(Keys(c[..|c| - 1]), keep) + (if keep(c[|c| - 1].0) then [c[|c| - 1].0] else [])
  {
    var k0 := c[|c| - 1].0;
    assert Keys(c) == Keys(c[..|c| - 1]) + [k0];
    Seqs.FilterAppend(Keys(c[..|c| - 1]), [k0], keep);
    assert [k0][1..] == [];
  }

  /** Copying entries without repeated keys into an empty dictionary gives the entries themselves. */
  lemma {:induction false} PutAllFresh<V>(c: Dict<V>)
    requires Unique(c)
    ensures PutAll([], c) == c
  {
    if c != [] {
      var c' := c[..|c| - 1];
      assert Unique(c') by {
        forall i, j | 0 <= i < j < |c'| ensures c'[i].0 != c'[j].0 {
          assert c'[i] == c[i] && c'[j] == c[j];
        }
      }
      PutAllFresh(c');
      forall i | 0 <= i < |c'| ensures c'[i].0 != c[|c| - 1].0 {
        assert c'[i] == c[i];
      }
      assert c == c' + [c[|c| - 1]];
    }
  }

  /** Each element paired with its key, in order: the entries a `forEach(x => map.set(key(x), x))` copies. */
  function Pairs<T>(xs: seq<T>, key: T -> string): (d: Dict<T>)
    ensures |d| == |xs| && forall i :: 0 <= i < |xs| ==> d[i] == (key(xs[i]), xs[i])
  {
    seq(|xs|, i requires 0 <= i < |xs| => (key(xs[i]), xs[i]))
  }

  /** One more element is one more entry. */
  lemma PairsStep<T>(xs: seq<T>, key: T -> string, i: nat)
    requires i < |xs|
    ensures Pairs(xs[..i + 1], key) == Pairs(xs[..i], key) + [(key(xs[i]), xs[i])]
  {
  }

  /** A key is among the pairs exactly when some element has it. */
  lemma PairsHasKey<T>(xs: seq<T>, key: T -> string, k: string)
    ensures HasKey(Pairs(xs, key), k) <==> exists i :: 0 <= i < |xs| && key(xs[i]) == k
  {
    var d := Pairs(xs, key);
    if exists i :: 0 <= i < |xs| && key(xs[i]) == k {
      var i :| 0 <= i < |xs| && key(xs[i]) == k;
      assert d[i].0 == k;
    }
  }
}
