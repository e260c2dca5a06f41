/**
 * The entries of the two model pickers and the order they are shown in.
 * The pickers sort by provider label, then by display name. The comparison
 * is modelled as code-unit lexicographic order, and the sort as a stable
 * insertion sort: a stable sort's result is fixed by its comparison.
 */
module OptionOrder {

  /** One selectable model. */
  datatype ModelOption = ModelOption(
    id: string,
    name: string,
    provider: string,
    providerName: string,
    modelId: string,
    supportsVision: bool)

  /** `a` comes no later than `b` in code-unit lexicographic order. */
  predicate StrLe(a: string, b: string)
    decreases |a|
  {
    a == [] || (b != [] && (a[0] < b[0] || (a[0] == b[0] && StrLe(a[1..], b[1..]))))
  }

  lemma {:induction false} StrLeTotal(a: string, b: string)
    ensures StrLe(a, b) || StrLe(b, a)
  {
    if a != [] && b != [] && a[0] == b[0] {
      StrLeTotal(a[1..], b[1..]);
    }
  }

  lemma {:induction false} StrLeTrans(a: string, b: string, c: string)
    ensures StrLe(a, b) && StrLe(b, c) ==> StrLe(a, c)
  {
    if a != [] && b != [] && c != [] && a[0] == b[0] && b[0] == c[0] {
      StrLeTrans(a[1..], b[1..], c[1..]);
    }
  }

  lemma {:induction false} StrLeAntisym(a: string, b: string)
    ensures StrLe(a, b) && StrLe(b, a) ==> a == b
  {
    if a != [] && b != [] && a[0] == b[0] {
      StrLeAntisym(a[1..], b[1..]);
      assert a == [a[0]] + a[1..] && b == [b[0]] + b[1..];
    }
  }

  /** The comparison both pickers sort with: `x` may stay in front of `y`. */
  predicate Before(x: ModelOption, y: ModelOption) {
    if x.providerName != y.providerName then StrLe(x.providerName, y.providerName) else StrLe(x.name, y.name)
  }

  lemma BeforeTotal(x: ModelOption, y: ModelOption)
    ensures Before(x, y) || Before(y, x)
  {
    StrLeTotal(x.providerName, y.providerName);
    StrLeTotal(x.name, y.name);
  }

  lemma BeforeTrans(x: ModelOption, y: ModelOption, z: ModelOption)
    ensures Before(x, y) && Before(y, z) ==> Before(x, z)
  {
    StrLeTrans(x.providerName, y.providerName, z.providerName);
    StrLeTrans(x.name, y.name, z.name);
    StrLeAntisym(x.providerName, y.providerName);
    StrLeAntisym(y.providerName, z.providerName);
    StrLeAntisym(x.providerName, z.providerName);
  }

  /** Provider labels ascend, and display names ascend within one label. */
  ghost predicate Sorted(xs: seq<ModelOption>) {
    forall i, j :: 0 <= i < j < |xs| ==> Before(xs[i], xs[j])
  }

  /** Puts `x` after every element that may stay in front of it. */
  function Insert(x: ModelOption, ys: seq<ModelOption>): (r: seq<ModelOption>)
    ensures multiset(r) == multiset(ys) + multiset{x} && |r| == |ys| + 1
  {
    if ys == [] then [x]
    else if Before(ys[0], x) then
      assert ys == [ys[0]] + ys[1..];
      [ys[0]] + Insert(x, ys[1..])
    else [x] + ys
  }

  lemma {:induction false} InsertSorted(x: ModelOption, ys: seq<ModelOption>)
    requires Sorted(ys)
    ensures Sorted(Insert(x, ys))
  {
    if ys != [] {
      var r := Insert(x, ys);
      if Before(ys[0], x) {
        var rest := Insert(x, ys[1..]);
        InsertSorted(x, ys[1..]);
        forall k | 0 <= k < |rest| ensures Before(ys[0], rest[k]) {
          assert rest[k] in multiset(rest);
          if rest[k] != x {
            assert rest[k] in multiset(ys[1..]);
            var m :| 0 <= m < |ys[1..]| && ys[1..][m] == rest[k];
            assert ys[1..][m] == ys[m + 1];
          }
        }
        assert r == [ys[0]] + rest;
      } else {
        BeforeTotal(ys[0], x);
        forall k | 0 <= k < |ys| ensures Before(x, ys[k]) {
          BeforeTrans(x, ys[0], ys[k]);
        }
        assert r == [x] + ys;
      }
    }
  }

  /** `modelList.sort(...)`: the same options, in sorted order, equal keys keeping their relative order. */
  function SortOptions(xs: seq<ModelOption>): (r: seq<ModelOption>)
    ensures multiset(r) == multiset(xs) && |r| == |xs|
  {
    if xs == [] then []
    else
      assert xs == xs[..|xs| - 1] + [xs[|xs| - 1]];
      Insert(xs[|xs| - 1], SortOptions(xs[..|xs| - 1]))
  }

  /** The sorted list is ordered by provider label, then by display name. */
  lemma {:induction false} SortOptionsSorted(xs: seq<ModelOption>)
    ensures Sorted(SortOptions(xs))
  {
    if xs != [] {
      SortOptionsSorted(xs[..|xs| - 1]);
      InsertSorted(xs[|xs| - 1], SortOptions(xs[..|xs| - 1]));
    }
  }

  /** Some option has the id. */
  predicate HasOptionId(options: seq<ModelOption>, id: string) {
    exists i :: 0 <= i < |options| && options[i].id == id
  }

  /** Sorting neither adds nor drops an id. */
  lemma SortKeepsIds(xs: seq<ModelOption>, id: string)
    ensures HasOptionId(SortOptions(xs), id) <==> HasOptionId(xs, id)
  {
    var r := SortOptions(xs);
    if HasOptionId(xs, id) {
      var i :| 0 <= i < |xs| && xs[i].id == id;
      assert xs[i] in multiset(r);
      var j :| 0 <= j < |r| && r[j] == xs[i];
    }
    if HasOptionId(r, id) {
      var j :| 0 <= j < |r| && r[j].id == id;
      assert r[j] in multiset(xs);
      var i :| 0 <= i < |xs| && xs[i] == r[j];
    }
  }
}
