/**
 The bytes of a snapshot are decided by the data alone: whichever tables an engine keeps its data in, there is one
 sorted list of its live keys, and every map has one.
 */
module Listing {

  import opened Bytes
  import opened KeyOrder
  import opened Encoding
  import opened Memtable
  import opened Merge
  import opened SnapshotCodec

  /** The list has exactly the keys and values of d, in order. */
  ghost predicate Lists(es: seq<MemEntry>, d: map<Key, Bytes>) {
    Sorted(es) && NoTombstones(es) && LiveMap(View(es)) == d
  }

  lemma ListedAt(es: seq<MemEntry>, d: map<Key, Bytes>, i: nat)
    requires Lists(es, d) && i < |es|
    ensures es[i].key in d && d[es[i].key] == es[i].value
  {
    ViewAt(es, i);
  }

  lemma ListedWhere(es: seq<MemEntry>, d: map<Key, Bytes>, key: Key) returns (i: nat)
    requires Lists(es, d) && key in d
    ensures i < |es| && es[i].key == key
  {
    ViewHas(es, key);
    i :| 0 <= i < |es| && es[i].key == key;
  }

  // ---------------------------------------------------------------- one list at most

  lemma WithoutLast(es: seq<MemEntry>, d: map<Key, Bytes>)
    requires Lists(es, d) && es != []
    ensures var n := |es| - 1; Lists(es[..n], d - {es[n].key})
  {
    var n := |es| - 1;
    var key, less := es[n].key, LiveMap(View(es[..n]));
    ViewHas(es[..n], key);
    LessIrreflexive(key);
    assert key !in View(es[..n]);
    assert View(es) == View(es[..n])[key := Live(es[n].value)];
    assert d - {key} == less;
  }

  lemma SameLast(a: seq<MemEntry>, b: seq<MemEntry>, d: map<Key, Bytes>)
    requires Lists(a, d) && Lists(b, d) && a != [] && b != []
    ensures var e, f := a[|a| - 1], b[|b| - 1]; e.key == f.key && e.value == f.value
  {
    var e, f := a[|a| - 1], b[|b| - 1];
    ListedAt(a, d, |a| - 1);
    ListedAt(b, d, |b| - 1);
    var i := ListedWhere(a, d, f.key);
    var j := ListedWhere(b, d, e.key);
    if e.key != f.key {
      LessAsymmetric(e.key, f.key);
    }
  }

  /** Two lists of the same data have the same keys and values at the same places. */
  lemma {:induction false} ListsOnce(a: seq<MemEntry>, b: seq<MemEntry>, d: map<Key, Bytes>)
    requires Lists(a, d) && Lists(b, d)
    ensures |a| == |b| && forall i :: 0 <= i < |a| ==> a[i].key == b[i].key && a[i].value == b[i].value
  {
    if a == [] || b == [] {
      if a != [] { ListedAt(a, d, 0); }
      if b != [] { ListedAt(b, d, 0); }
    } else {
      var n, m := |a| - 1, |b| - 1;
      SameLast(a, b, d);
      WithoutLast(a, d);
      WithoutLast(b, d);
      ListsOnce(a[..n], b[..m], d - {a[n].key});
      forall i | 0 <= i < |a| ensures a[i].key == b[i].key && a[i].value == b[i].value {
        if i < n {
          assert a[..n][i] == a[i] && b[..m][i] == b[i];
        }
      }
    }
  }

  lemma SameImage(a: seq<MemEntry>, b: seq<MemEntry>, d: map<Key, Bytes>)
    requires Lists(a, d) && Lists(b, d)
    ensures Image(a) == Image(b)
  {
    ListsOnce(a, b, d);
    assert Pairs(a) == Pairs(b);
  }

  // ---------------------------------------------------------------- and one at least

  lemma {:induction false} SplitPoint(es: seq<MemEntry>, key: Key) returns (idx: nat)
    requires Sorted(es)
    ensures Splits(es, key, idx)
  {
    if es == [] {
      idx := 0;
    } else {
      var n := |es| - 1;
      if Less(es[n].key, key) {
        forall i | 0 <= i < n ensures Less(es[i].key, key) {
          LessTransitive(es[i].key, es[n].key, key);
        }
        idx := |es|;
      } else {
        idx := SplitPoint(es[..n], key);
      }
    }
  }

  lemma LiveWith(m: map<Key, Cell>, key: Key, value: Bytes)
    ensures LiveMap(m[key := Live(value)]) == LiveMap(m)[key := value]
  {
  }

  lemma OneMore(es: seq<MemEntry>, d: map<Key, Bytes>, key: Key, value: Bytes) returns (es': seq<MemEntry>)
    requires Lists(es, d) && key !in d
    ensures Lists(es', d[key := value])
  {
    var e := MemEntry(key, value, KIND_PUT, 0);
    var idx := SplitPoint(es, key);
    if idx < |es| && es[idx].key == key {
      ListedAt(es, d, idx);
    }
    InsertedView(es, idx, e);
    LiveWith(View(es), key, value);
    es' := Inserted(es, idx, e);
  }

  lemma {:induction false} HasList(d: map<Key, Bytes>) returns (es: seq<MemEntry>)
    ensures Lists(es, d)
    decreases d.Keys
  {
    if d == map[] {
      es := [];
    } else {
      var key :| key in d;
      var less := HasList(d - {key});
      es := OneMore(less, d - {key}, key, d[key]);
      assert (d - {key})[key := d[key]] == d;
    }
  }

  // ---------------------------------------------------------------- the snapshot of a map

  /** The one list, as bytes. */
  ghost function SnapshotOf(d: map<Key, Bytes>): Bytes {
    assert exists es: seq<MemEntry> :: Lists(es, d) by { var l := HasList(d); }
    var es :| Lists(es, d);
    Image(es)
  }

  lemma SnapshotIs(es: seq<MemEntry>, d: map<Key, Bytes>)
    requires Lists(es, d)
    ensures Image(es) == SnapshotOf(d)
  {
    var l :| Lists(l, d) && SnapshotOf(d) == Image(l);
    SameImage(es, l, d);
  }

  /** Keys and values short enough to be written. */
  ghost predicate ShortData(d: map<Key, Bytes>) { forall k :: k in d ==> Fits(|k|) && Fits(|d[k]|) }

  lemma {:induction false} PutsView(es: seq<MemEntry>)
    requires NoTombstones(es)
    ensures View(AllPut(es)) == View(es)
  {
    if es != [] {
      var n := |es| - 1;
      PutsView(es[..n]);
      assert AllPut(es)[..n] == AllPut(es[..n]);
    }
  }

  /** Decoding the snapshot of a map gives the map. */
  lemma SnapshotDecodes(d: map<Key, Bytes>)
    requires ShortData(d)
    ensures ReadAll(SnapshotOf(d)).Some? && LiveMap(View(ReadAll(SnapshotOf(d)).value)) == d
  {
    var es := HasList(d);
    forall i | 0 <= i < |es| ensures Fits(|es[i].key|) && Fits(|es[i].value|) {
      ListedAt(es, d, i);
    }
    SnapshotIs(es, d);
    ImageRoundTrip(es);
    PutsView(es);
  }
}
