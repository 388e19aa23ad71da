/** The k-way merge behind compaction and snapshots. */
module Merge {

  import opened Wrappers
  import opened Bytes
  import opened KeyOrder
  import opened Memtable

  /** What a stack of layers says, oldest first: a later layer overrides an earlier one. */
  function Overlay(layers: seq<seq<MemEntry>>): map<Key, Cell> {
    if layers == [] then map[] else Overlay(layers[..|layers| - 1]) + View(layers[|layers| - 1])
  }

  /** The keys that are not deleted, and their values. */
  ghost function LiveMap(m: map<Key, Cell>): (r: map<Key, Bytes>)
    ensures forall k :: k in r <==> k in m && m[k].Live?
    ensures forall k :: k in r ==> r[k] == m[k].value
    decreases m.Keys
  {
    if m == map[] then map[] else
    var k :| k in m;
    var rest := LiveMap(m - {k});
    if m[k].Live? then rest[k := m[k].value] else rest
  }

  ghost predicate AllSorted(layers: seq<seq<MemEntry>>) {
    forall i :: 0 <= i < |layers| ==> Sorted(layers[i])
  }

  // ---------------------------------------------------------------- one step of the merge, as functions

  predicate HeadIs(es: seq<MemEntry>, key: Key) { es != [] && es[0].key == key }

  /** The smallest key at the head of a layer. */
  function MinKey(layers: seq<seq<MemEntry>>): Option<Key> {
    if layers == [] then None else
    var k := MinKey(layers[..|layers| - 1]);
    var last := layers[|layers| - 1];
    if last != [] && (k.None? || Less(last[0].key, k.value)) then Some(last[0].key) else k
  }

  /** The entry for the key from the last layer that has it at its head. */
  function Newest(layers: seq<seq<MemEntry>>, key: Key): Option<MemEntry> {
    if layers == [] then None else
    var last := layers[|layers| - 1];
    if HeadIs(last, key) then Some(last[0]) else Newest(layers[..|layers| - 1], key)
  }

  function Tail(es: seq<MemEntry>, key: Key): seq<MemEntry> { if HeadIs(es, key) then es[1..] else es }

  function Advance(layers: seq<seq<MemEntry>>, key: Key): (r: seq<seq<MemEntry>>)
    ensures |r| == |layers| && forall i :: 0 <= i < |layers| ==> r[i] == Tail(layers[i], key)
  {
    if layers == [] then [] else Advance(layers[..|layers| - 1], key) + [Tail(layers[|layers| - 1], key)]
  }

  function Total(layers: seq<seq<MemEntry>>): nat {
    if layers == [] then 0 else Total(layers[..|layers| - 1]) + |layers[|layers| - 1]|
  }

  /** No layer starts below the key. */
  ghost predicate Floor(layers: seq<seq<MemEntry>>, key: Key) {
    forall i :: 0 <= i < |layers| && layers[i] != [] ==> !Less(layers[i][0].key, key)
  }

  lemma {:induction false} MinKeyIsFloor(layers: seq<seq<MemEntry>>)
    ensures MinKey(layers).None? ==> forall i :: 0 <= i < |layers| ==> layers[i] == []
    ensures MinKey(layers).Some? ==> Floor(layers, MinKey(layers).value) && Newest(layers, MinKey(layers).value).Some?
  {
    if layers != [] {
      var n := |layers| - 1;
      var most, last := layers[..n], layers[n];
      MinKeyIsFloor(most);
      if last != [] {
        LessIrreflexive(last[0].key);
        if MinKey(most).Some? {
          FloorLower(most, MinKey(most).value, last[0].key);
        }
      }
      forall i | 0 <= i < |layers| && MinKey(layers).Some? && layers[i] != []
        ensures !Less(layers[i][0].key, MinKey(layers).value)
      {
        if i < n {
          assert most[i] == layers[i];
        }
      }
    }
  }

  lemma FloorLower(layers: seq<seq<MemEntry>>, key: Key, lower: Key)
    requires Floor(layers, key)
    ensures Less(lower, key) ==> Floor(layers, lower)
  {
    forall i | 0 <= i < |layers| && layers[i] != [] && Less(lower, key) ensures !Less(layers[i][0].key, lower) {
      if Less(layers[i][0].key, lower) {
        LessTransitive(layers[i][0].key, lower, key);
      }
    }
  }

  lemma {:induction false} AdvanceShrinks(layers: seq<seq<MemEntry>>, key: Key)
    ensures Total(Advance(layers, key)) <= Total(layers)
    ensures Newest(layers, key).Some? ==> Total(Advance(layers, key)) < Total(layers)
  {
    if layers != [] {
      var n := |layers| - 1;
      AdvanceShrinks(layers[..n], key);
      var r := Advance(layers, key);
      assert r[..n] == Advance(layers[..n], key) && r[n] == Tail(layers[n], key);
    }
  }

  /** The merge: take the smallest key, keep its newest entry unless it is a tombstone, go on behind it. */
  function Merged(layers: seq<seq<MemEntry>>): seq<MemEntry>
    decreases Total(layers)
  {
    MinKeyIsFloor(layers);
    if MinKey(layers).None? then []
    else
      var key := MinKey(layers).value;
      AdvanceShrinks(layers, key);
      var e := Newest(layers, key).value;
      (if e.kind == KIND_DELETE then [] else [e]) + Merged(Advance(layers, key))
  }

  // ---------------------------------------------------------------- what it means

  lemma HeadNotInTail(es: seq<MemEntry>)
    requires Sorted(es) && es != []
    ensures es[0].key !in View(es[1..])
  {
    ViewHas(es[1..], es[0].key);
    forall i | 0 <= i < |es| - 1 ensures es[1..][i].key != es[0].key {
      LessAsymmetric(es[0].key, es[i + 1].key);
    }
  }

  lemma {:induction false} ViewHead(es: seq<MemEntry>)
    requires Sorted(es) && es != []
    ensures View(es) == View(es[1..])[es[0].key := CellOf(es[0])]
  {
    var n := |es| - 1;
    if n > 0 {
      ViewHead(es[..n]);
      assert es[..n][1..] == es[1..][..n - 1];
      assert es[1..][n - 1] == es[n];
      LessAsymmetric(es[0].key, es[n].key);
    }
  }

  lemma TailView(es: seq<MemEntry>, key: Key)
    requires Sorted(es) && (es != [] ==> !Less(es[0].key, key))
    ensures Sorted(Tail(es, key)) && key !in View(Tail(es, key))
    ensures View(es) == if HeadIs(es, key) then View(Tail(es, key))[key := CellOf(es[0])] else View(Tail(es, key))
    ensures Tail(es, key) != [] ==> !Less(Tail(es, key)[0].key, key)
  {
    if HeadIs(es, key) {
      ViewHead(es);
      HeadNotInTail(es);
      if |es| > 1 {
        LessAsymmetric(es[0].key, es[1].key);
      }
    } else {
      ViewHas(es, key);
      forall i | 0 <= i < |es| ensures es[i].key != key {
        assert i > 0 ==> Less(es[0].key, es[i].key);
      }
    }
  }

  lemma AdvanceKeepsOrder(layers: seq<seq<MemEntry>>, key: Key)
    requires AllSorted(layers) && Floor(layers, key)
    ensures AllSorted(Advance(layers, key)) && Floor(Advance(layers, key), key)
  {
    forall i | 0 <= i < |layers| ensures Sorted(Tail(layers[i], key)) {
      TailView(layers[i], key);
    }
    forall i | 0 <= i < |layers| && Tail(layers[i], key) != [] ensures !Less(Tail(layers[i], key)[0].key, key) {
      TailView(layers[i], key);
    }
  }

  function With(m: map<Key, Cell>, key: Key, c: Option<Cell>): map<Key, Cell> {
    if c.Some? then m[key := c.value] else m
  }

  lemma OverlayWith(a: map<Key, Cell>, ca: Option<Cell>, b: map<Key, Cell>, cb: Option<Cell>, key: Key)
    requires key !in a && key !in b
    ensures key !in a + b && With(a, key, ca) + With(b, key, cb) == With(a + b, key, if cb.Some? then cb else ca)
  {
  }

  function NewestCell(layers: seq<seq<MemEntry>>, key: Key): Option<Cell> {
    if Newest(layers, key).Some? then Some(CellOf(Newest(layers, key).value)) else None
  }

  function HeadCell(es: seq<MemEntry>, key: Key): Option<Cell> { if HeadIs(es, key) then Some(CellOf(es[0])) else None }

  /** Taking the key off the layers takes its newest cell, and nothing else, off what they say. */
  lemma {:induction false} OverlayAdvance(layers: seq<seq<MemEntry>>, key: Key)
    requires AllSorted(layers) && Floor(layers, key)
    ensures key !in Overlay(Advance(layers, key))
    ensures Overlay(layers) == With(Overlay(Advance(layers, key)), key, NewestCell(layers, key))
  {
    if layers != [] {
      var n := |layers| - 1;
      OverlayAdvance(layers[..n], key);
      TailView(layers[n], key);
      AdvanceLast(layers, key);
      OverlayWith(Overlay(Advance(layers[..n], key)), NewestCell(layers[..n], key), View(Tail(layers[n], key)),
                  HeadCell(layers[n], key), key);
    }
  }

  lemma AdvanceLast(layers: seq<seq<MemEntry>>, key: Key)
    requires layers != []
    ensures var n := |layers| - 1;
            Overlay(Advance(layers, key)) == Overlay(Advance(layers[..n], key)) + View(Tail(layers[n], key))
  {
    var n := |layers| - 1;
    var r := Advance(layers, key);
    assert r[..n] == Advance(layers[..n], key) && r[n] == Tail(layers[n], key);
  }

  lemma {:induction false} OverlayAbove(layers: seq<seq<MemEntry>>, key: Key, k: Key)
    requires AllSorted(layers) && Floor(layers, key) && k in Overlay(layers)
    ensures !Less(k, key)
  {
    var n := |layers| - 1;
    if k in View(layers[n]) {
      ViewHas(layers[n], k);
      var i :| 0 <= i < |layers[n]| && layers[n][i].key == k;
      if Less(k, key) && i > 0 {
        LessTransitive(layers[n][0].key, k, key);
      }
    } else {
      OverlayAbove(layers[..n], key, k);
    }
  }

  ghost predicate NoTombstones(es: seq<MemEntry>) {
    forall i :: 0 <= i < |es| ==> es[i].kind != KIND_DELETE
  }

  lemma ConsSorted(e: MemEntry, es: seq<MemEntry>)
    requires Sorted(es) && forall i :: 0 <= i < |es| ==> Less(e.key, es[i].key)
    ensures Sorted([e] + es) && View([e] + es) == View(es)[e.key := CellOf(e)]
  {
    assert ([e] + es)[1..] == es;
    ViewHead([e] + es);
  }

  lemma LiveUpdate(m: map<Key, Cell>, key: Key, c: Cell)
    requires key !in m
    ensures LiveMap(m[key := c]) == if c.Live? then LiveMap(m)[key := c.value] else LiveMap(m)
  {
  }

  lemma {:induction false} EmptyOverlay(layers: seq<seq<MemEntry>>)
    requires forall i :: 0 <= i < |layers| ==> layers[i] == []
    ensures Overlay(layers) == map[]
  {
    if layers != [] {
      EmptyOverlay(layers[..|layers| - 1]);
    }
  }

  /** All keys of the merge come from the layers. */
  ghost predicate KeysFrom(es: seq<MemEntry>, m: map<Key, Cell>) {
    forall i :: 0 <= i < |es| ==> es[i].key in m
  }

  /**
   The merge of sorted layers is sorted, has no tombstones, and says what the layers say: the newest entry for
   each key, with deleted keys left out.
   */
  lemma {:induction false} MergedMeaning(layers: seq<seq<MemEntry>>)
    requires AllSorted(layers)
    ensures Sorted(Merged(layers)) && NoTombstones(Merged(layers)) && KeysFrom(Merged(layers), Overlay(layers))
    ensures LiveMap(View(Merged(layers))) == LiveMap(Overlay(layers))
    decreases Total(layers)
  {
    MinKeyIsFloor(layers);
    if MinKey(layers).None? {
      EmptyOverlay(layers);
    } else {
      var key := MinKey(layers).value;
      var rest := Advance(layers, key);
      var e := Newest(layers, key).value;
      AdvanceShrinks(layers, key);
      OverlayAdvance(layers, key);
      AdvanceKeepsOrder(layers, key);
      MergedMeaning(rest);
      NewestHasKey(layers, key);
      MergedStep(rest, key, e, Merged(rest));
    }
  }

  lemma {:induction false} NewestHasKey(layers: seq<seq<MemEntry>>, key: Key)
    requires Newest(layers, key).Some?
    ensures Newest(layers, key).value.key == key
  {
    var n := |layers| - 1;
    if !HeadIs(layers[n], key) {
      NewestHasKey(layers[..n], key);
    }
  }

  lemma MergedStep(rest: seq<seq<MemEntry>>, key: Key, e: MemEntry, es: seq<MemEntry>)
    requires AllSorted(rest) && Floor(rest, key) && key !in Overlay(rest) && e.key == key
    requires Sorted(es) && NoTombstones(es) && KeysFrom(es, Overlay(rest))
    requires LiveMap(View(es)) == LiveMap(Overlay(rest))
    ensures var all := (if e.kind == KIND_DELETE then [] else [e]) + es;
            && Sorted(all) && NoTombstones(all) && KeysFrom(all, Overlay(rest)[key := CellOf(e)])
            && LiveMap(View(all)) == LiveMap(Overlay(rest)[key := CellOf(e)])
  {
    LiveUpdate(Overlay(rest), key, CellOf(e));
    if e.kind == KIND_DELETE {
      assert [] + es == es;
    } else {
      forall i | 0 <= i < |es| ensures Less(key, es[i].key) {
        OverlayAbove(rest, key, es[i].key);
        LessTotal(key, es[i].key);
      }
      ConsSorted(e, es);
      ViewHas(es, key);
      LiveUpdate(View(es), key, CellOf(e));
    }
  }

  // ---------------------------------------------------------------- the loop

  ghost predicate Within(inputs: seq<seq<MemEntry>>, positions: seq<nat>) {
    |positions| == |inputs| && forall i :: 0 <= i < |inputs| ==> positions[i] <= |inputs[i]|
  }

  /** What is left of the inputs behind the positions. */
  ghost function Rest(inputs: seq<seq<MemEntry>>, positions: seq<nat>): (r: seq<seq<MemEntry>>)
    requires Within(inputs, positions)
    ensures |r| == |inputs| && forall i :: 0 <= i < |inputs| ==> r[i] == inputs[i][positions[i]..]
  {
    if inputs == [] then []
    else Rest(inputs[..|inputs| - 1], positions[..|inputs| - 1]) + [inputs[|inputs| - 1][positions[|inputs| - 1]..]]
  }

  method Start(inputs: seq<seq<MemEntry>>) returns (positions: seq<nat>)
    ensures Within(inputs, positions) && Rest(inputs, positions) == inputs
  {
    positions := seq(|inputs|, _ => 0);
    assert forall i :: 0 <= i < |inputs| ==> Rest(inputs, positions)[i] == inputs[i];
  }

  /** The smallest key in front of the positions, and the first input that has it; -1 if all are used up. */
  method FindMin(inputs: seq<seq<MemEntry>>, positions: seq<nat>) returns (minKey: Key, minInput: int)
    requires Within(inputs, positions)
    ensures minInput == -1 <==> MinKey(Rest(inputs, positions)).None?
    ensures minInput != -1 ==>
              && 0 <= minInput < |inputs| && MinKey(Rest(inputs, positions)) == Some(minKey)
              && HeadIs(inputs[minInput][positions[minInput]..], minKey)
  {
    ghost var rest := Rest(inputs, positions);
    minKey, minInput := [], -1;
    var i := 0;
    while i < |positions|
      invariant 0 <= i <= |positions|
      invariant minInput == -1 <==> MinKey(rest[..i]).None?
      invariant minInput != -1
            ==> 0 <= minInput < i && MinKey(rest[..i]) == Some(minKey) && HeadIs(rest[minInput], minKey)
    {
      assert rest[..i + 1][..i] == rest[..i];
      if positions[i] < |inputs[i]| {
        var key := inputs[i][positions[i]].key;
        if minInput == -1 || Less(key, minKey) {
          minKey, minInput := key, i;
        }
      }
      i := i + 1;
    }
    assert rest[..i] == rest;
  }

  /** Among the inputs with the key in front, the last. */
  method FindNewest(inputs: seq<seq<MemEntry>>, positions: seq<nat>, minKey: Key, minInput: nat)
    returns (newest: MemEntry)
    requires Within(inputs, positions) && minInput < |inputs| && HeadIs(inputs[minInput][positions[minInput]..], minKey)
    ensures Newest(Rest(inputs, positions), minKey) == Some(newest)
  {
    ghost var rest := Rest(inputs, positions);
    newest := inputs[minInput][positions[minInput]];
    var i := minInput + 1;
    assert rest[..i][..minInput] == rest[..minInput];
    while i < |inputs|
      invariant minInput < i <= |inputs|
      invariant Newest(rest[..i], minKey) == Some(newest)
    {
      assert rest[..i + 1][..i] == rest[..i];
      if positions[i] < |inputs[i]| && inputs[i][positions[i]].key == minKey {
        newest := inputs[i][positions[i]];
      }
      i := i + 1;
    }
    assert rest[..i] == rest;
  }

  /** All inputs with the key in front move on. */
  method StepPast(inputs: seq<seq<MemEntry>>, positions: seq<nat>, minKey: Key) returns (positions': seq<nat>)
    requires Within(inputs, positions)
    ensures Within(inputs, positions') && Rest(inputs, positions') == Advance(Rest(inputs, positions), minKey)
  {
    positions' := positions;
    var i := 0;
    while i < |inputs|
      invariant 0 <= i <= |inputs| && Within(inputs, positions')
      invariant forall j :: i <= j < |inputs| ==> positions'[j] == positions[j]
      invariant forall j :: 0 <= j < i ==> inputs[j][positions'[j]..] == Tail(inputs[j][positions[j]..], minKey)
    {
      if positions'[i] < |inputs[i]| && inputs[i][positions'[i]].key == minKey {
        positions' := positions'[i := positions'[i] + 1];
      }
      i := i + 1;
    }
  }

  /** One round: the newest entry for the smallest key, if there is a key left, and the positions behind it. */
  method MergeRound(inputs: seq<seq<MemEntry>>, positions: seq<nat>)
    returns (newest: Option<MemEntry>, positions': seq<nat>)
    requires Within(inputs, positions)
    ensures newest.None? ==> Merged(Rest(inputs, positions)) == []
    ensures newest.Some? ==>
              && Within(inputs, positions') && Total(Rest(inputs, positions')) < Total(Rest(inputs, positions))
              && Merged(Rest(inputs, positions))
                   == (if newest.value.kind == KIND_DELETE then [] else [newest.value])
                    + Merged(Rest(inputs, positions'))
  {
    ghost var rest := Rest(inputs, positions);
    var minKey, minInput := FindMin(inputs, positions);
    if minInput == -1 {
      return None, positions;
    }
    AdvanceShrinks(rest, minKey);
    var e := FindNewest(inputs, positions, minKey, minInput);
    positions' := StepPast(inputs, positions, minKey);
    newest := Some(e);
  }

  /** All rounds. */
  method MergeRounds(inputs: seq<seq<MemEntry>>) returns (result: seq<MemEntry>)
    ensures result == Merged(inputs)
  {
    var positions := Start(inputs);
    result := [];
    ghost var left, size := Merged(inputs), Total(inputs);
    while true
      invariant Within(inputs, positions)
      invariant left == Merged(Rest(inputs, positions)) && size == Total(Rest(inputs, positions))
      invariant result + left == Merged(inputs)
      decreases size
    {
      var newest, next := MergeRound(inputs, positions);
      if newest.None? {
        return;
      }
      var taken := if newest.value.kind == KIND_DELETE then [] else [newest.value];
      TakeOver(result, taken, Merged(Rest(inputs, next)));
      result, positions := result + taken, next;
      left, size := Merged(Rest(inputs, positions)), Total(Rest(inputs, positions));
    }
  }

  lemma TakeOver(a: seq<MemEntry>, b: seq<MemEntry>, c: seq<MemEntry>)
    ensures a + (b + c) == (a + b) + c
  {
  }

  /** MergeEntries. Its final sort is left out: SortChangesNothing shows that it has nothing to do. */
  method MergeEntries(inputs: seq<seq<MemEntry>>) returns (result: seq<MemEntry>)
    requires AllSorted(inputs)
    ensures result == Merged(inputs)
    ensures Sorted(result) && NoTombstones(result) && LiveMap(View(result)) == LiveMap(Overlay(inputs))
  {
    result := MergeRounds(inputs);
    MergedMeaning(inputs);
  }

  // ---------------------------------------------------------------- the sort at the end

  ghost predicate Ordered(es: seq<MemEntry>) {
    forall i, j :: 0 <= i < j < |es| ==> !Less(es[j].key, es[i].key)
  }

  /** Whatever a sort by key makes of a strictly sorted list, it is the list itself. */
  lemma {:induction false} SortChangesNothing(es: seq<MemEntry>, sorted: seq<MemEntry>)
    requires Sorted(es) && Ordered(sorted) && multiset(sorted) == multiset(es)
    ensures sorted == es
  {
    if es == [] {
      assert |multiset(sorted)| == 0;
    } else {
      assert es[0] in multiset(sorted) && sorted != [];
      assert sorted[0] in multiset(es);
      SameFirst(es, sorted);
      FirstApart(es);
      FirstApart(sorted);
      SortChangesNothing(es[1..], sorted[1..]);
    }
  }

  lemma FirstApart(es: seq<MemEntry>)
    requires es != []
    ensures es == [es[0]] + es[1..] && multiset(es[1..]) == multiset(es) - multiset{es[0]}
  {
    assert es == [es[0]] + es[1..];
  }

  lemma SameFirst(es: seq<MemEntry>, sorted: seq<MemEntry>)
    requires Sorted(es) && Ordered(sorted) && es != [] && sorted != [] && es[0] in sorted && sorted[0] in es
    ensures sorted[0] == es[0]
  {
    var i :| 0 <= i < |sorted| && sorted[i] == es[0];
    var j :| 0 <= j < |es| && es[j] == sorted[0];
    LessIrreflexive(es[0].key);
    assert j > 0 ==> Less(es[0].key, es[j].key);
  }
}
