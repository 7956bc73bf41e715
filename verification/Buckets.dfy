/** Collecting numbered things under keys, in the order keys first appear. */
module Buckets {
  import opened Text

  datatype Bucket<K> = Bucket(key: K, ids: seq<nat>)

  function FindKey<K(==)>(gs: seq<Bucket<K>>, key: K): (i: nat)
    ensures i <= |gs|
    ensures i < |gs| ==> gs[i].key == key
    ensures forall k :: 0 <= k < i ==> gs[k].key != key
  {
    if gs == [] || gs[0].key == key then 0 else 1 + FindKey(gs[1..], key)
  }

  function Add<K(==)>(gs: seq<Bucket<K>>, key: K, id: nat): seq<Bucket<K>> {
    var i := FindKey(gs, key);
    if i == |gs| then gs + [Bucket(key, [id])] else gs[i := gs[i].(ids := gs[i].ids + [id])]
  }

  /** Thing `i` goes under `keys[i]`, or nowhere when there is no key. */
  function Collect<K(==)>(keys: seq<Option<K>>): seq<Bucket<K>> {
    if keys == [] then []
    else
      var (front, last) := (keys[..|keys| - 1], keys[|keys| - 1]);
      if last.None? then Collect(front) else Add(Collect(front), last.value, |front|)
  }

  predicate Ascending(ids: seq<nat>) { forall a, b :: 0 <= a < b < |ids| ==> ids[a] < ids[b] }

  ghost predicate HoldsOwn<K(!new)>(g: Bucket<K>, keys: seq<Option<K>>) {
    forall id: nat :: id in g.ids <==> id < |keys| && keys[id] == Some(g.key)
  }

  /** Keys differ between buckets, and a bucket holds exactly the things with its key, in order; none is empty. */
  ghost predicate Partitions<K(!new)>(gs: seq<Bucket<K>>, keys: seq<Option<K>>) {
    && (forall i, j :: 0 <= i < j < |gs| ==> gs[i].key != gs[j].key)
    && (forall g :: 0 <= g < |gs| ==> gs[g].ids != [] && Ascending(gs[g].ids))
    && (forall g :: 0 <= g < |gs| ==> HoldsOwn(gs[g], keys))
    && (forall id :: 0 <= id < |keys| && keys[id].Some? ==> FindKey(gs, keys[id].value) < |gs|)
  }

  lemma {:induction false} CollectPartitions<K(!new)>(keys: seq<Option<K>>)
    ensures Partitions(Collect(keys), keys)
  {
    if keys != [] {
      var front, last := keys[..|keys| - 1], keys[|keys| - 1];
      CollectPartitions(front);
      assert front + [last] == keys;
      if last.None? {
        SkipPartitions(Collect(front), front);
      } else {
        AddPartitions(Collect(front), front, last.value);
      }
    }
  }

  lemma SkipPartitions<K(!new)>(gs: seq<Bucket<K>>, keys: seq<Option<K>>)
    requires Partitions(gs, keys)
    ensures Partitions(gs, keys + [None])
  {
    forall g | 0 <= g < |gs| ensures HoldsOwn(gs[g], keys + [None]) {
      assert HoldsOwn(gs[g], keys);
    }
  }

  /** After the next thing, each bucket holds exactly the things with its key. */
  lemma AddHolds<K(!new)>(gs: seq<Bucket<K>>, keys: seq<Option<K>>, key: K, g: nat, id: nat)
    requires Partitions(gs, keys) && g < |Add(gs, key, |keys|)|
    ensures var h := Add(gs, key, |keys|)[g];
            id in h.ids <==> id < |keys| + 1 && (keys + [Some(key)])[id] == Some(h.key)
  {
    var i := FindKey(gs, key);
    if id < |keys| {
      assert (keys + [Some(key)])[id] == keys[id];
      assert g < |gs| ==> HoldsOwn(gs[g], keys);
      assert keys[id].Some? ==> FindKey(gs, keys[id].value) < |gs|;
    } else if g < |gs| {
      assert HoldsOwn(gs[g], keys);
      assert g != i ==> gs[g].key != key;
    }
  }

  lemma MemberBelow<K(!new)>(g: Bucket<K>, keys: seq<Option<K>>, id: nat)
    requires HoldsOwn(g, keys) && id in g.ids
    ensures id < |keys|
  {
  }

  lemma AddAscends<K(!new)>(gs: seq<Bucket<K>>, keys: seq<Option<K>>, key: K, g: nat)
    requires Partitions(gs, keys) && g < |Add(gs, key, |keys|)|
    ensures var h := Add(gs, key, |keys|)[g]; h.ids != [] && Ascending(h.ids)
  {
    if g < |gs| {
      var ids := gs[g].ids;
      forall a | 0 <= a < |ids| ensures ids[a] < |keys| {
        MemberBelow(gs[g], keys, ids[a]);
      }
      assert Ascending(ids) && Ascending(ids + [|keys|]);
    } else {
      assert Ascending([|keys|]);
    }
  }

  lemma AddDiffers<K(!new)>(gs: seq<Bucket<K>>, key: K, id: nat, i: nat, j: nat)
    requires forall a, b :: 0 <= a < b < |gs| ==> gs[a].key != gs[b].key
    requires i < j < |Add(gs, key, id)|
    ensures Add(gs, key, id)[i].key != Add(gs, key, id)[j].key
  {
  }

  lemma AddFinds<K(!new)>(gs: seq<Bucket<K>>, key: K, id: nat, other: K)
    ensures FindKey(gs, other) < |gs| || other == key ==> FindKey(Add(gs, key, id), other) < |Add(gs, key, id)|
  {
    var hs, i, k := Add(gs, key, id), FindKey(gs, key), FindKey(gs, other);
    assert k < |gs| ==> hs[k].key == other;
    assert hs[i].key == key;
  }

  lemma AddPartitions<K(!new)>(gs: seq<Bucket<K>>, keys: seq<Option<K>>, key: K)
    requires Partitions(gs, keys)
    ensures Partitions(Add(gs, key, |keys|), keys + [Some(key)])
  {
    var hs, all := Add(gs, key, |keys|), keys + [Some(key)];
    forall g | 0 <= g < |hs| ensures HoldsOwn(hs[g], all) {
      forall id: nat ensures id in hs[g].ids <==> id < |all| && all[id] == Some(hs[g].key) {
        AddHolds(gs, keys, key, g, id);
      }
    }
    forall g | 0 <= g < |hs| ensures hs[g].ids != [] && Ascending(hs[g].ids) {
      AddAscends(gs, keys, key, g);
    }
    forall i, j | 0 <= i < j < |hs| ensures hs[i].key != hs[j].key {
      AddDiffers(gs, key, |keys|, i, j);
    }
    forall id | 0 <= id < |all| && all[id].Some? ensures FindKey(hs, all[id].value) < |hs| {
      AddFinds(gs, key, |keys|, all[id].value);
    }
    hide Ascending;
  }

  method CollectAll<K(==)>(keys: seq<Option<K>>) returns (gs: seq<Bucket<K>>)
    ensures gs == Collect(keys)
  {
    gs := [];
    for i := 0 to |keys|
      invariant gs == Collect(keys[..i])
    {
      assert keys[..i + 1][..i] == keys[..i];
      if keys[i].None? {
        continue;
      }
      ghost var next := Add(gs, keys[i].value, i);
      var k := FindKey(gs, keys[i].value);
      if k == |gs| {
        gs := gs + [Bucket(keys[i].value, [])];
      }
      gs := gs[k := gs[k].(ids := gs[k].ids + [i])];
      assert [] + [i] == [i] && gs == next;
    }
    assert keys[..|keys|] == keys;
  }
}
