/** Order-preserving grouping, as both dialogue scripts do it with an
    insertion-ordered dict of lists (`defaultdict(list)` in res.py,
    `setdefault(k, []).append(v)` in _Archive_files/res.py): the keys in the
    order they first appear, and for each key its values in input order. */
module Grouping {

  /** A (key, value) pair fed to the grouping loop. */
  type Pair = (string, string)

  predicate Occurs(ps: seq<Pair>, k: string) {
    exists i :: 0 <= i < |ps| && ps[i].0 == k
  }

  /** The keys in first-appearance order. */
  function Keys(ps: seq<Pair>): seq<string> {
    if ps == [] then []
    else
      var ks := Keys(ps[..|ps| - 1]);
      var k := ps[|ps| - 1].0;
      if k in ks then ks else ks + [k]
  }

  /** The values of key `k`, in input order. */
  function Select(ps: seq<Pair>, k: string): seq<string> {
    if ps == [] then []
    else Select(ps[..|ps| - 1], k) + (if ps[|ps| - 1].0 == k then [ps[|ps| - 1].1] else [])
  }

  /** The dict the grouping loop builds: each key's list of values. */
  function Lists(ps: seq<Pair>): map<string, seq<string>> {
    if ps == [] then map[]
    else
      var m := Lists(ps[..|ps| - 1]);
      var p := ps[|ps| - 1];
      m[p.0 := (if p.0 in m then m[p.0] else []) + [p.1]]
  }

  /** The position where `k` first appears. */
  function First(ps: seq<Pair>, k: string): (i: nat)
    requires Occurs(ps, k)
    ensures i < |ps| && ps[i].0 == k
    ensures forall j :: 0 <= j < i ==> ps[j].0 != k
  {
    var init := ps[..|ps| - 1];
    if Occurs(init, k) then First(init, k)
    else
      assert forall j :: 0 <= j < |init| ==> init[j] == ps[j];
      |ps| - 1
  }

  predicate Distinct(ks: seq<string>) {
    forall a, b :: 0 <= a < b < |ks| ==> ks[a] != ks[b]
  }

  lemma {:induction false} OccursInit(ps: seq<Pair>, k: string)
    requires ps != []
    ensures Occurs(ps, k) <==> Occurs(ps[..|ps| - 1], k) || ps[|ps| - 1].0 == k
  {
    var init := ps[..|ps| - 1];
    if Occurs(ps, k) && ps[|ps| - 1].0 != k {
      var i :| 0 <= i < |ps| && ps[i].0 == k;
      assert init[i].0 == k;
    }
    if Occurs(init, k) {
      var i :| 0 <= i < |init| && init[i].0 == k;
      assert ps[i].0 == k;
    }
  }

  /** The keys are exactly the keys that occur, each once, in the order of
      their first appearance. */
  lemma {:induction false} KeysExactly(ps: seq<Pair>)
    ensures Distinct(Keys(ps))
    ensures forall k :: k in Keys(ps) <==> Occurs(ps, k)
    ensures forall a, b :: 0 <= a < b < |Keys(ps)| ==> First(ps, Keys(ps)[a]) < First(ps, Keys(ps)[b])
  {
    if ps != [] {
      var init := ps[..|ps| - 1];
      KeysExactly(init);
      forall k ensures Occurs(ps, k) <==> Occurs(init, k) || ps[|ps| - 1].0 == k {
        OccursInit(ps, k);
      }
      forall k | Occurs(init, k) ensures First(ps, k) == First(init, k) {
      }
      var ks := Keys(ps);
      forall a, b | 0 <= a < b < |ks| ensures First(ps, ks[a]) < First(ps, ks[b]) {
        assert ks[a] in Keys(init);
        if b == |Keys(init)| {
          assert !Occurs(init, ks[b]);
        } else {
          assert ks[b] in Keys(init);
        }
      }
    }
  }

  /** A key has values exactly when it occurs. */
  lemma {:induction false} SelectEmpty(ps: seq<Pair>, k: string)
    ensures Select(ps, k) == [] <==> !Occurs(ps, k)
  {
    if ps != [] {
      SelectEmpty(ps[..|ps| - 1], k);
      OccursInit(ps, k);
    }
  }

  /** The dict holds a list for exactly the keys that occur, and a key's
      list is its values in input order. */
  lemma {:induction false} ListsSelect(ps: seq<Pair>)
    ensures forall k :: k in Lists(ps) <==> Occurs(ps, k)
    ensures forall k :: k in Lists(ps) ==> Lists(ps)[k] == Select(ps, k)
  {
    if ps != [] {
      var init := ps[..|ps| - 1];
      ListsSelect(init);
      forall k ensures Occurs(ps, k) <==> Occurs(init, k) || ps[|ps| - 1].0 == k {
        OccursInit(ps, k);
      }
      forall k | k !in Lists(init) ensures Select(init, k) == [] {
        SelectEmpty(init, k);
      }
    }
  }

  /** The total size of the groups of `ks`. */
  function Sizes(ps: seq<Pair>, ks: seq<string>): nat {
    if ks == [] then 0 else Sizes(ps, ks[..|ks| - 1]) + |Select(ps, ks[|ks| - 1])|
  }

  lemma {:induction false} SizesStep(ps: seq<Pair>, p: Pair, ks: seq<string>)
    requires Distinct(ks)
    ensures Sizes(ps + [p], ks) == Sizes(ps, ks) + (if p.0 in ks then 1 else 0)
  {
    assert (ps + [p])[..|ps + [p]| - 1] == ps;
    if ks != [] {
      SizesStep(ps, p, ks[..|ks| - 1]);
    }
  }

  lemma SizesAppendKey(ps: seq<Pair>, ks: seq<string>, k: string)
    ensures Sizes(ps, ks + [k]) == Sizes(ps, ks) + |Select(ps, k)|
  {
    assert (ks + [k])[..|ks|] == ks;
  }

  /** Every value lands in exactly one group: the groups hold as many values
      as were fed in. */
  lemma {:induction false} GroupsCount(ps: seq<Pair>)
    ensures Sizes(ps, Keys(ps)) == |ps|
  {
    if ps != [] {
      var init := ps[..|ps| - 1];
      var p := ps[|ps| - 1];
      assert ps == init + [p];
      GroupsCount(init);
      KeysExactly(init);
      SizesStep(init, p, Keys(init));
      if p.0 !in Keys(init) {
        SizesAppendKey(ps, Keys(init), p.0);
        assert Select(ps, p.0) == Select(init, p.0) + [p.1];
        SelectEmpty(init, p.0);
      }
    }
  }

  /** An insertion-ordered dict from key to list of values. */
  class Groups {
    var keys: seq<string>
    var lists: map<string, seq<string>>

    /** The dict holds the grouping of `ps`. */
    ghost predicate Models(ps: seq<Pair>)
      reads this
    {
      keys == Keys(ps) && lists == Lists(ps)
    }

    constructor ()
      ensures keys == [] && lists == map[]
      ensures Models([])
    {
      keys := [];
      lists := map[];
    }

    /** `d[k].append(v)`: a new key goes last. */
    method Append(k: string, v: string, ghost ps: seq<Pair>)
      requires Models(ps)
      modifies this
      ensures keys == old(keys) + (if k in old(lists) then [] else [k])
      ensures lists == old(lists)[k := (if k in old(lists) then old(lists)[k] else []) + [v]]
      ensures Models(ps + [(k, v)])
    {
      var ps' := ps + [(k, v)];
      assert ps'[..|ps'| - 1] == ps;
      KeysExactly(ps);
      ListsSelect(ps);
      if k in lists {
        lists := lists[k := lists[k] + [v]];
      } else {
        assert [] + [v] == [v];
        keys := keys + [k];
        lists := lists[k := [v]];
      }
    }
  }
}
