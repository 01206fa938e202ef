/** The in-memory store of one node: every put is a step of an LWW join. */
module Storage {
  import opened Versions

  type Store = map<Key, VersionedValue>

  function Lookup(s: Store, k: Key): Option<VersionedValue> {
    if k in s then Some(s[k]) else None
  }

  /** A put is rejected as stale iff something at least as new is already there. */
  predicate Accepts(s: Store, k: Key, v: VersionedValue) {
    k !in s || v.IsNewerThan(s[k])
  }

  function PutStore(s: Store, k: Key, v: VersionedValue): Store {
    if Accepts(s, k, v) then s[k := v] else s
  }

  /** What one slot holds after a further version arrives. */
  function Merge(entry: Option<VersionedValue>, v: VersionedValue): VersionedValue {
    if entry.Some? && !v.IsNewerThan(entry.value) then entry.value else v
  }

  /** The in-order LWW fold of `vs` onto a slot. */
  function JoinFrom(entry: Option<VersionedValue>, vs: seq<VersionedValue>): Option<VersionedValue>
    decreases |vs|
  {
    if vs == [] then entry else JoinFrom(Some(Merge(entry, vs[0])), vs[1..])
  }

  function Join(vs: seq<VersionedValue>): Option<VersionedValue> {
    JoinFrom(None, vs)
  }

  class KVStore {
    var data: Store

    constructor ()
      ensures data == map[]
    {
      data := map[];
    }

    method Get(key: Key) returns (entry: Option<VersionedValue>)
      ensures entry == Lookup(data, key)
    {
      entry := if key in data then Some(data[key]) else None;
    }

    /** `applied` is false exactly when the write is not newer than what is stored;
        either way the slot ends up covering the write and no slot gets older. */
    method Put(key: Key, value: Value, timestamp: real, nodeId: string) returns (applied: bool)
      modifies this
      ensures var v := VersionedValue(value, timestamp, nodeId);
              && applied == Accepts(old(data), key, v)
              && data == PutStore(old(data), key, v)
              && Covers(Lookup(data, key), v)
      ensures forall k :: EntryAtLeast(Lookup(data, k), Lookup(old(data), k))
      ensures applied <==>
                key !in old(data) || timestamp > old(data)[key].timestamp
                || (timestamp == old(data)[key].timestamp && Past(nodeId, old(data)[key].nodeId))
      ensures data == if applied then old(data)[key := VersionedValue(value, timestamp, nodeId)] else old(data)
    {
      var incoming := VersionedValue(value, timestamp, nodeId);
      if key in data {
        NewerIff(incoming, data[key]);
      }
      PutRaises(data, key, incoming);
      if key in data && !incoming.IsNewerThan(data[key]) {
        return false;
      }
      data := data[key := incoming];
      return true;
    }

    method Delete(key: Key) returns (deleted: bool)
      modifies this
      ensures deleted == (key in old(data))
      ensures data == old(data) - {key}
    {
      if key in data {
        data := data - {key};
        return true;
      }
      return false;
    }

    method KeyCount() returns (n: nat)
      ensures n == |data.Keys|
    {
      n := |data|;
    }
  }

  /** LWW never regresses: a put leaves every slot at least as new, and its own slot
      at least as new as the write, even when it is rejected. */
  lemma PutRaises(s: Store, k: Key, v: VersionedValue)
    ensures Covers(Lookup(PutStore(s, k, v), k), v)
    ensures forall k2 :: EntryAtLeast(Lookup(PutStore(s, k, v), k2), Lookup(s, k2))
    ensures forall k2 | k2 != k :: Lookup(PutStore(s, k, v), k2) == Lookup(s, k2)
    ensures Lookup(PutStore(s, k, v), k) == Some(Merge(Lookup(s, k), v))
  {
    AtLeastReflexive(v);
    forall k2 ensures EntryAtLeast(Lookup(PutStore(s, k, v), k2), Lookup(s, k2)) {
      EntryAtLeastReflexive(Lookup(s, k2));
      if k2 == k && k in s {
        NewerIsStrictTotalOnStamps(v, s[k], v);
      }
    }
  }

  lemma {:induction false} JoinFromAppend(entry: Option<VersionedValue>, xs: seq<VersionedValue>,
                                          ys: seq<VersionedValue>)
    ensures JoinFrom(entry, xs + ys) == JoinFrom(JoinFrom(entry, xs), ys)
    decreases |xs|
  {
    if xs == [] {
      assert xs + ys == ys;
    } else {
      assert (xs + ys)[1..] == xs[1..] + ys;
      JoinFromAppend(Some(Merge(entry, xs[0])), xs[1..], ys);
    }
  }

  lemma JoinAppendOne(vs: seq<VersionedValue>, v: VersionedValue)
    ensures Join(vs + [v]) == Some(Merge(Join(vs), v))
  {
    JoinFromAppend(None, vs, [v]);
    assert [v][1..] == [];
  }

  ghost predicate FirstMaximum(vs: seq<VersionedValue>, i: int) {
    && 0 <= i < |vs|
    && (forall j | 0 <= j < |vs| :: AtLeast(vs[i], vs[j]))
    && (forall j | 0 <= j < i :: vs[i].IsNewerThan(vs[j]))
  }

  /** The join is a supremum in the collection: it is the earliest arrival among the
      versions that no other version beats. */
  lemma {:induction false} JoinIsFirstMaximum(vs: seq<VersionedValue>) returns (i: int)
    requires vs != []
    ensures FirstMaximum(vs, i) && Join(vs) == Some(vs[i])
  {
    var init, v := vs[..|vs| - 1], vs[|vs| - 1];
    assert vs == init + [v];
    JoinAppendOne(init, v);
    AtLeastReflexive(v);
    if init == [] {
      i := 0;
    } else {
      var j := JoinIsFirstMaximum(init);
      if v.IsNewerThan(init[j]) {
        i := |vs| - 1;
        forall m | 0 <= m < i ensures v.IsNewerThan(vs[m]) {
          assert AtLeast(init[j], init[m]);
          NewerIsStrictTotalOnStamps(v, init[j], init[m]);
          NewerIsStrictTotalOnStamps(init[j], init[m], v);
          if !v.IsNewerThan(vs[m]) {
            AtLeastTransitive(init[m], v, init[j]);
            AtLeastTransitive(init[j], init[m], v);
          }
        }
        forall m | 0 <= m < |vs| ensures AtLeast(vs[i], vs[m]) {
          NewerIsStrictTotalOnStamps(v, vs[m], v);
        }
      } else {
        i := j;
      }
    }
  }

  /** The join covers every version folded in, and is one of them. */
  lemma JoinCovers(vs: seq<VersionedValue>)
    ensures forall v | v in vs :: Covers(Join(vs), v)
    ensures Join(vs).Some? ==> Join(vs).value in vs
    ensures Join(vs).None? <==> vs == []
  {
    if vs != [] {
      var i := JoinIsFirstMaximum(vs);
    }
  }

  /** Order and duplicates do not matter for stamps: two nodes that were given the same
      set of versions of a key end with the same stamp for it. */
  lemma SameWritesSameStamp(xs: seq<VersionedValue>, ys: seq<VersionedValue>)
    requires forall v :: v in xs <==> v in ys
    ensures Join(xs).Some? <==> Join(ys).Some?
    ensures Join(xs).Some? ==> Join(xs).value.SameStamp(Join(ys).value)
  {
    JoinCovers(xs);
    JoinCovers(ys);
    if Join(xs).Some? {
      NewerIsStrictTotalOnStamps(Join(xs).value, Join(ys).value, Join(xs).value);
    }
  }

  /** No version with the winning stamp carries a different value. */
  ghost predicate WinnerUnambiguous(vs: seq<VersionedValue>) {
    forall v | v in vs && Join(vs).Some? && v.SameStamp(Join(vs).value) :: v == Join(vs).value
  }

  /** Values, unlike stamps, are independent of arrival order exactly when the winning
      stamp determines its value. */
  lemma ArrivalOrderIrrelevantIff(xs: seq<VersionedValue>)
    ensures (forall ys | multiset(ys) == multiset(xs) :: Join(ys) == Join(xs)) <==> WinnerUnambiguous(xs)
  {
    JoinCovers(xs);
    if WinnerUnambiguous(xs) {
      forall ys | multiset(ys) == multiset(xs) ensures Join(ys) == Join(xs) {
        forall v ensures v in xs <==> v in ys {
          assert v in multiset(xs) <==> v in multiset(ys);
        }
        SameWritesSameStamp(xs, ys);
        JoinCovers(ys);
      }
    } else {
      var v :| v in xs && Join(xs).Some? && v.SameStamp(Join(xs).value) && v != Join(xs).value;
      var ys := MoveToFront(xs, v);
      forall x ensures x in xs <==> x in ys {
        assert x in multiset(xs) <==> x in multiset(ys);
      }
      SameWritesSameStamp(xs, ys);
      var i := JoinIsFirstMaximum(ys);
      NewerIsStrictTotalOnStamps(ys[i], ys[0], ys[i]);
      assert Join(ys) == Some(v);
    }
  }

  lemma MoveToFront(xs: seq<VersionedValue>, v: VersionedValue) returns (ys: seq<VersionedValue>)
    requires v in xs
    ensures multiset(ys) == multiset(xs) && |ys| > 0 && ys[0] == v
  {
    var i :| 0 <= i < |xs| && xs[i] == v;
    assert xs == xs[..i] + [v] + xs[i + 1..];
    ys := [v] + xs[..i] + xs[i + 1..];
  }
}
