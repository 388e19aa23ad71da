/** The in-memory write buffer: one entry per key, sorted, found by binary search. */
module Memtable {

  import opened Wrappers
  import opened Bytes
  import opened KeyOrder
  import opened Encoding

  const KIND_PUT: byte := 0
  const KIND_DELETE: byte := 1

  datatype MemEntry = MemEntry(key: Key, value: Bytes, kind: byte, seqNo: nat)

  /** Keys and values short enough for the file formats. */
  ghost predicate Writable(es: seq<MemEntry>) {
    forall i :: 0 <= i < |es| ==> Fits(|es[i].key|) && Fits(|es[i].value|)
  }

  /** An entry read from the front of some bytes, and how many it takes; sequence numbers are never stored. */
  datatype Read = Read(entry: MemEntry, size: nat)

  /** What a layer knows about a key it mentions. */
  datatype Cell = Live(value: Bytes) | Dead

  function CellOf(e: MemEntry): Cell { if e.kind == KIND_DELETE then Dead else Live(e.value) }

  ghost predicate Sorted(es: seq<MemEntry>) {
    forall i, j :: 0 <= i < j < |es| ==> Less(es[i].key, es[j].key)
  }

  /** What a list of entries says, a later entry overriding an earlier one for the same key. */
  function View(es: seq<MemEntry>): map<Key, Cell> {
    if es == [] then map[] else View(es[..|es| - 1])[es[|es| - 1].key := CellOf(es[|es| - 1])]
  }

  // ---------------------------------------------------------------- views of sorted lists

  /** A sorted list says about a key what its one entry for it says. */
  lemma {:induction false} ViewAt(es: seq<MemEntry>, i: nat)
    requires Sorted(es) && i < |es|
    ensures es[i].key in View(es) && View(es)[es[i].key] == CellOf(es[i])
  {
    var n := |es| - 1;
    if i < n {
      ViewAt(es[..n], i);
      LessAsymmetric(es[i].key, es[n].key);
    }
  }

  lemma {:induction false} ViewHas(es: seq<MemEntry>, key: Key)
    ensures key in View(es) <==> exists i :: 0 <= i < |es| && es[i].key == key
  {
    if es != [] {
      var n := |es| - 1;
      ViewHas(es[..n], key);
      if key in View(es[..n]) {
        var i :| 0 <= i < n && es[..n][i].key == key;
        assert es[i].key == key;
      }
      if i :| 0 <= i < |es| && es[i].key == key {
        assert i < n ==> es[..n][i].key == key;
      }
    }
  }

  /** The key is at position idx or nowhere. */
  ghost predicate Splits(es: seq<MemEntry>, key: Key, idx: nat) {
    && idx <= |es|
    && (forall i :: 0 <= i < idx ==> Less(es[i].key, key))
    && (forall i :: idx <= i < |es| ==> !Less(es[i].key, key))
  }

  lemma FoundIff(es: seq<MemEntry>, key: Key, idx: nat)
    requires Sorted(es) && Splits(es, key, idx)
    ensures key in View(es) <==> idx < |es| && es[idx].key == key
    ensures key in View(es) ==> View(es)[key] == CellOf(es[idx])
  {
    ViewHas(es, key);
    LessIrreflexive(key);
    if i :| 0 <= i < |es| && es[i].key == key {
      assert i == idx;
      ViewAt(es, i);
    }
  }

  // ---------------------------------------------------------------- updating a sorted list

  function Replaced(es: seq<MemEntry>, idx: nat, e: MemEntry): seq<MemEntry>
    requires idx < |es|
  {
    es[idx := e]
  }

  function Inserted(es: seq<MemEntry>, idx: nat, e: MemEntry): seq<MemEntry>
    requires idx <= |es|
  {
    es[..idx] + [e] + es[idx..]
  }

  lemma ReplacedSorted(es: seq<MemEntry>, idx: nat, e: MemEntry)
    requires Sorted(es) && idx < |es| && es[idx].key == e.key
    ensures Sorted(Replaced(es, idx, e))
  {
  }

  lemma InsertedSorted(es: seq<MemEntry>, idx: nat, e: MemEntry)
    requires Sorted(es) && Splits(es, e.key, idx) && (idx < |es| ==> es[idx].key != e.key)
    ensures Sorted(Inserted(es, idx, e))
  {
    var es' := Inserted(es, idx, e);
    forall i | idx <= i < |es| ensures Less(e.key, es[i].key) {
      LessTotal(es[idx].key, e.key);
      if i > idx {
        LessTransitive(e.key, es[idx].key, es[i].key);
      }
    }
    forall i, j | 0 <= i < j < |es'| ensures Less(es'[i].key, es'[j].key) {
      if j < idx {
      } else if j == idx {
      } else if i == idx {
        assert es'[j] == es[j - 1];
      } else {
        assert es'[j] == es[j - 1];
        assert es'[i] == if i < idx then es[i] else es[i - 1];
      }
    }
  }

  /** Two sorted lists that have the same entries for every key say the same. */
  lemma ViewUpdated(es: seq<MemEntry>, es': seq<MemEntry>, e: MemEntry)
    requires Sorted(es) && Sorted(es') && e in es'
    requires forall x :: x in es && x.key != e.key ==> x in es'
    requires forall x :: x in es' && x != e ==> x in es
    ensures View(es') == View(es)[e.key := CellOf(e)]
  {
    forall key ensures key in View(es') <==> key == e.key || key in View(es) {
      ViewHas(es, key);
      ViewHas(es', key);
      if i :| 0 <= i < |es'| && es'[i].key == key { assert es'[i] in es'; }
      if i :| 0 <= i < |es| && es[i].key == key { assert es[i] in es; }
    }
    forall key | key in View(es') ensures View(es')[key] == if key == e.key then CellOf(e) else View(es)[key] {
      ViewHas(es', key);
      var i :| 0 <= i < |es'| && es'[i].key == key;
      ViewAt(es', i);
      if key == e.key {
        OneEntryPerKey(es', i, e);
      } else {
        assert es'[i] in es;
        var j :| 0 <= j < |es| && es[j] == es'[i];
        ViewAt(es, j);
      }
    }
  }

  lemma OneEntryPerKey(es: seq<MemEntry>, i: nat, e: MemEntry)
    requires Sorted(es) && i < |es| && e in es && es[i].key == e.key
    ensures es[i] == e
  {
    var j :| 0 <= j < |es| && es[j] == e;
    LessIrreflexive(e.key);
    assert i == j;
  }

  lemma ReplacedView(es: seq<MemEntry>, idx: nat, e: MemEntry)
    requires Sorted(es) && idx < |es| && es[idx].key == e.key
    ensures Sorted(Replaced(es, idx, e)) && View(Replaced(es, idx, e)) == View(es)[e.key := CellOf(e)]
  {
    var es' := Replaced(es, idx, e);
    ReplacedSorted(es, idx, e);
    assert es'[idx] == e;
    forall x | x in es && x.key != e.key ensures x in es' {
      var i :| 0 <= i < |es| && es[i] == x;
      assert es'[i] == x;
    }
    ViewUpdated(es, es', e);
  }

  lemma InsertedHas(es: seq<MemEntry>, idx: nat, e: MemEntry)
    requires idx <= |es|
    ensures e in Inserted(es, idx, e)
    ensures forall x :: x in es ==> x in Inserted(es, idx, e)
    ensures forall x :: x in Inserted(es, idx, e) && x != e ==> x in es
  {
    var es' := Inserted(es, idx, e);
    assert es'[idx] == e;
    forall x | x in es ensures x in es' {
      var i :| 0 <= i < |es| && es[i] == x;
      assert es'[if i < idx then i else i + 1] == x;
    }
  }

  lemma InsertedView(es: seq<MemEntry>, idx: nat, e: MemEntry)
    requires Sorted(es) && Splits(es, e.key, idx) && (idx < |es| ==> es[idx].key != e.key)
    ensures Sorted(Inserted(es, idx, e)) && View(Inserted(es, idx, e)) == View(es)[e.key := CellOf(e)]
  {
    InsertedSorted(es, idx, e);
    InsertedHas(es, idx, e);
    ViewUpdated(es, Inserted(es, idx, e), e);
  }

  lemma WritableWith(es: seq<MemEntry>, es': seq<MemEntry>, e: MemEntry)
    requires forall x :: x in es' ==> x in es || x == e
    ensures Writable(es) && Writable([e]) ==> Writable(es')
  {
    if Writable(es) && Writable([e]) {
      assert [e][0] == e;
      forall i | 0 <= i < |es'| ensures Fits(|es'[i].key|) && Fits(|es'[i].value|) {
        assert es'[i] in es';
      }
    }
  }

  // ---------------------------------------------------------------- the table

  /** Go's sort.Search for the first entry whose key is not below the given one. */
  method Search(es: seq<MemEntry>, key: Key) returns (idx: nat)
    requires Sorted(es)
    ensures Splits(es, key, idx)
  {
    idx := 0;
    var hi := |es|;
    while idx < hi
      invariant 0 <= idx <= hi <= |es|
      invariant forall i :: 0 <= i < idx ==> Less(es[i].key, key)
      invariant forall i :: hi <= i < |es| ==> !Less(es[i].key, key)
    {
      var mid := (idx + hi) / 2;
      if Less(es[mid].key, key) {
        forall i | 0 <= i < mid ensures Less(es[i].key, key) {
          LessTransitive(es[i].key, es[mid].key, key);
        }
        idx := mid + 1;
      } else {
        forall i | mid < i < |es| ensures !Less(es[i].key, key) {
          if Less(es[i].key, key) {
            LessTransitive(es[mid].key, es[i].key, key);
          }
        }
        hi := mid;
      }
    }
  }

  class Table {
    var entries: seq<MemEntry>
    var size: nat
    var seqNo: nat

    constructor ()
      ensures Valid() && entries == [] && size == 0
    {
      entries, size, seqNo := [], 0, 0;
    }

    ghost predicate Valid()
      reads this
    {
      Sorted(entries) && (size == 0 <==> entries == [])
    }

    ghost function Contents(): map<Key, Cell>
      reads this
    {
      View(entries)
    }

    method Put(key: Key, value: Bytes)
      requires Valid()
      modifies this
      ensures Valid() && Contents() == old(Contents())[key := Live(value)]
      ensures size == old(size) + |key| + |value| + 16
      ensures Writable(old(entries)) && Fits(|key|) && Fits(|value|) ==> Writable(entries)
    {
      seqNo := seqNo + 1;
      var e := MemEntry(key, value, KIND_PUT, seqNo);
      assert [e][0] == e;
      Insert(e);
      size := size + |key| + |value| + 16;
    }

    method Delete(key: Key)
      requires Valid()
      modifies this
      ensures Valid() && Contents() == old(Contents())[key := Dead]
      ensures size == old(size) + |key| + 16
      ensures Writable(old(entries)) && Fits(|key|) ==> Writable(entries)
    {
      seqNo := seqNo + 1;
      var e := MemEntry(key, [], KIND_DELETE, seqNo);
      assert [e][0] == e && Fits(0);
      Insert(e);
      size := size + |key| + 16;
    }

    /** The value, unless the table does not mention the key or has it as deleted. */
    method Get(key: Key) returns (value: Option<Bytes>)
      requires Valid()
      ensures value == if key in Contents() && Contents()[key].Live? then Some(Contents()[key].value) else None
    {
      var idx := Search(entries, key);
      FoundIff(entries, key, idx);
      if idx >= |entries| || entries[idx].key != key {
        return None;
      }
      var e := entries[idx];
      if e.kind == KIND_DELETE {
        return None;
      }
      return Some(e.value);
    }

    /** Replaces the entry for the key, or makes room for it. */
    method Insert(e: MemEntry)
      requires Sorted(entries)
      modifies this`entries
      ensures Sorted(entries) && entries != [] && View(entries) == View(old(entries))[e.key := CellOf(e)]
      ensures Writable(old(entries)) && Writable([e]) ==> Writable(entries)
    {
      var idx := Search(entries, e.key);
      if idx < |entries| && entries[idx].key == e.key {
        ReplacedView(entries, idx, e);
        entries := entries[idx := e];
      } else {
        InsertedView(entries, idx, e);
        entries := entries[..idx] + [e] + entries[idx..];
      }
      WritableWith(old(entries), entries, e);
    }
  }
}
