/** Versioned values and the last-write-wins (LWW) order on them. */
module Versions {

  datatype Option<+T> = None | Some(value: T)

  type Key = string

  /** The store never inspects a value, so integers stand for all of them. */
  type Value = int

  /** Lexicographic order on strings by character, which is what `>` means on
      node ids. Dafny's own `<` on sequences is the prefix order. */
  predicate StringGreater(a: string, b: string) {
    if a == [] then false
    else if b == [] then true
    else if a[0] != b[0] then a[0] > b[0]
    else StringGreater(a[1..], b[1..])
  }

  datatype VersionedValue = VersionedValue(value: Value, timestamp: real, nodeId: string) {

    predicate IsNewerThan(other: VersionedValue) {
      if timestamp != other.timestamp then timestamp > other.timestamp
      else StringGreater(nodeId, other.nodeId)
    }

    predicate SameStamp(other: VersionedValue) {
      timestamp == other.timestamp && nodeId == other.nodeId
    }
  }

  /** `a` is not LWW-older than `b`. */
  predicate AtLeast(a: VersionedValue, b: VersionedValue) {
    !b.IsNewerThan(a)
  }

  /** `entry` holds a version that is not older than `v`. */
  predicate Covers(entry: Option<VersionedValue>, v: VersionedValue) {
    entry.Some? && AtLeast(entry.value, v)
  }

  /** `later` is what an entry equal to `earlier` may have become. */
  predicate EntryAtLeast(later: Option<VersionedValue>, earlier: Option<VersionedValue>) {
    earlier.Some? ==> Covers(later, earlier.value)
  }

  lemma {:induction false} StringTrichotomy(a: string, b: string)
    ensures StringGreater(a, b) || StringGreater(b, a) || a == b
    ensures !(StringGreater(a, b) && StringGreater(b, a))
    ensures !StringGreater(a, a)
  {
    if a != [] && b != [] && a[0] == b[0] {
      StringTrichotomy(a[1..], b[1..]);
      assert a == [a[0]] + a[1..] && b == [b[0]] + b[1..];
    } else if a != [] {
      StringTrichotomy(a[1..], a[1..]);
    }
  }

  lemma {:induction false} StringGreaterTransitive(a: string, b: string, c: string)
    requires StringGreater(a, b) && StringGreater(b, c)
    ensures StringGreater(a, c)
  {
    if c != [] && a[0] == b[0] == c[0] {
      StringGreaterTransitive(a[1..], b[1..], c[1..]);
    }
  }

  /** `a` is past `b`: after a common beginning it goes on where `b` ends, or with a greater
      character. */
  ghost predicate PastAt(a: string, b: string, i: int) {
    && 0 <= i <= |a| && i <= |b| && a[..i] == b[..i]
    && (i == |b| < |a| || (i < |a| && i < |b| && a[i] > b[i]))
  }

  ghost predicate Past(a: string, b: string) {
    exists i :: PastAt(a, b, i)
  }

  /** The node-id tiebreak is the lexicographic order, the greater id being the one past the
      other. */
  lemma {:induction false} StringGreaterIff(a: string, b: string)
    ensures StringGreater(a, b) <==> Past(a, b)
  {
    if a != [] && b != [] && a[0] == b[0] {
      StringGreaterIff(a[1..], b[1..]);
      PastTail(a, b);
    } else if a != [] {
      assert a[..0] == b[..0];
      forall i | PastAt(a, b, i) ensures i == 0 {
        if i > 0 {
          SameHead(a, b, i);
        }
      }
      assert PastAt(a, b, 0) <==> StringGreater(a, b);
    }
  }

  lemma SameHead(a: string, b: string, i: int)
    requires PastAt(a, b, i) && i > 0
    ensures b != [] && a[0] == b[0]
  {
    assert a[..i][0] == a[0] && b[..i][0] == b[0];
  }

  lemma PastTail(a: string, b: string)
    requires a != [] && b != [] && a[0] == b[0]
    ensures Past(a, b) <==> Past(a[1..], b[1..])
  {
    if i :| PastAt(a, b, i) {
      assert i > 0;
      assert a[1..][..i - 1] == a[..i][1..] && b[1..][..i - 1] == b[..i][1..];
      assert PastAt(a[1..], b[1..], i - 1);
    }
    if i :| PastAt(a[1..], b[1..], i) {
      assert a[..i + 1] == [a[0]] + a[1..][..i] && b[..i + 1] == [b[0]] + b[1..][..i];
      assert PastAt(a, b, i + 1);
    }
  }

  /** Which of two versions wins. */
  lemma NewerIff(a: VersionedValue, b: VersionedValue)
    ensures a.IsNewerThan(b) <==>
              a.timestamp > b.timestamp || (a.timestamp == b.timestamp && Past(a.nodeId, b.nodeId))
  {
    StringGreaterIff(a.nodeId, b.nodeId);
  }

  /** The LWW order is a strict order, total on stamps: exactly one of "a is newer",
      "b is newer" and "the stamps are equal" holds. */
  lemma NewerIsStrictTotalOnStamps(a: VersionedValue, b: VersionedValue, c: VersionedValue)
    ensures a.IsNewerThan(b) ==> !b.IsNewerThan(a) && !a.SameStamp(b)
    ensures !a.IsNewerThan(b) && !b.IsNewerThan(a) <==> a.SameStamp(b)
    ensures a.IsNewerThan(b) && b.IsNewerThan(c) ==> a.IsNewerThan(c)
  {
    StringTrichotomy(a.nodeId, b.nodeId);
    if StringGreater(a.nodeId, b.nodeId) && StringGreater(b.nodeId, c.nodeId) {
      StringGreaterTransitive(a.nodeId, b.nodeId, c.nodeId);
    }
  }

  lemma AtLeastReflexive(a: VersionedValue)
    ensures AtLeast(a, a)
  {
    StringTrichotomy(a.nodeId, a.nodeId);
  }

  lemma AtLeastTransitive(a: VersionedValue, b: VersionedValue, c: VersionedValue)
    requires AtLeast(a, b) && AtLeast(b, c)
    ensures AtLeast(a, c)
  {
    NewerIsStrictTotalOnStamps(a, b, c);
    NewerIsStrictTotalOnStamps(b, c, a);
    NewerIsStrictTotalOnStamps(c, a, b);
  }

  lemma EntryAtLeastReflexive(e: Option<VersionedValue>)
    ensures EntryAtLeast(e, e)
  {
    if e.Some? {
      AtLeastReflexive(e.value);
    }
  }

  lemma EntryAtLeastTransitive(a: Option<VersionedValue>, b: Option<VersionedValue>, c: Option<VersionedValue>)
    requires EntryAtLeast(a, b) && EntryAtLeast(b, c)
    ensures EntryAtLeast(a, c)
  {
    if c.Some? {
      AtLeastTransitive(a.value, b.value, c.value);
    }
  }

  lemma CoversRises(later: Option<VersionedValue>, earlier: Option<VersionedValue>, v: VersionedValue)
    requires EntryAtLeast(later, earlier) && Covers(earlier, v)
    ensures Covers(later, v)
  {
    AtLeastTransitive(later.value, earlier.value, v);
  }
}
