/** The bytes of an engine snapshot: length-prefixed keys and values, to the end of the data. */
module SnapshotCodec {

  import opened Wrappers
  import opened Bytes
  import opened Memtable
  import opened Encoding

  function Pair(e: MemEntry): Bytes { Field(e.key) + Field(e.value) }

  function Pairs(es: seq<MemEntry>): (r: seq<Bytes>)
    ensures |r| == |es| && forall i :: 0 <= i < |es| ==> r[i] == Pair(es[i])
  {
    if es == [] then [] else [Pair(es[0])] + Pairs(es[1..])
  }

  function Image(es: seq<MemEntry>): Bytes { Concat(Pairs(es)) }

  method EncodeSnapshot(es: seq<MemEntry>) returns (data: Bytes)
    ensures data == Image(es)
  {
    data := [];
    var i := 0;
    while i < |es|
      invariant 0 <= i <= |es| && data == Image(es[..i])
    {
      ConcatAppend(Pairs(es[..i]), Pair(es[i]));
      assert Pairs(es[..i + 1]) == Pairs(es[..i]) + [Pair(es[i])];
      data := data + Pair(es[i]);
      i := i + 1;
    }
    assert es[..i] == es;
  }

  /** A pair read from the front of the bytes, and how many it takes. */
  function ReadPair(b: Bytes): (r: Option<Read>)
    ensures r.Some? ==> 0 < r.value.size <= |b|
  {
    if !HasField(b) then None else
    var key := FieldAt(b);
    var rest := b[4 + |key|..];
    if !HasField(rest) then None else
    var value := FieldAt(rest);
    Some(Read(MemEntry(key, value, KIND_PUT, 0), 8 + |key| + |value|))
  }

  /** All pairs; nothing at all if the data ends in the middle of one. */
  function ReadAll(b: Bytes): Option<seq<MemEntry>>
    decreases |b|
  {
    if b == [] then Some([])
    else if ReadPair(b).None? then None
    else
      var r := ReadPair(b).value;
      match ReadAll(b[r.size..])
      case None => None
      case Some(es) => Some([r.entry] + es)
  }

  function Prepend(read: seq<MemEntry>, rest: Option<seq<MemEntry>>): Option<seq<MemEntry>> {
    match rest
    case None => None
    case Some(es) => Some(read + es)
  }

  function ReadFrom(data: Bytes, pos: nat): Option<seq<MemEntry>>
    requires pos <= |data|
  {
    ReadAll(data[pos..])
  }

  lemma ReadOne(read: seq<MemEntry>, data: Bytes, pos: nat)
    requires pos < |data| && ReadPair(data[pos..]).Some?
    ensures var r := ReadPair(data[pos..]).value;
            && pos + r.size <= |data|
            && Prepend(read, ReadFrom(data, pos)) == Prepend(read + [r.entry], ReadFrom(data, pos + r.size))
  {
    var r := ReadPair(data[pos..]).value;
    DropTwice(data, pos, r.size);
    if ReadFrom(data, pos + r.size).Some? {
      var es := ReadFrom(data, pos + r.size).value;
      assert read + ([r.entry] + es) == (read + [r.entry]) + es;
    }
  }

  lemma AtStart(data: Bytes)
    ensures Prepend([], ReadFrom(data, 0)) == ReadAll(data)
  {
    assert data[0..] == data;
    if ReadAll(data).Some? {
      assert [] + ReadAll(data).value == ReadAll(data).value;
    }
  }

  method DecodeSnapshot(data: Bytes) returns (entries: Option<seq<MemEntry>>)
    ensures entries == ReadAll(data)
  {
    var read: seq<MemEntry> := [];
    var pos := 0;
    AtStart(data);
    while pos < |data|
      invariant pos <= |data| && Prepend(read, ReadFrom(data, pos)) == ReadAll(data)
      decreases |data| - pos
    {
      var r := ReadPair(data[pos..]);
      if r.None? {
        return None;
      }
      ReadOne(read, data, pos);
      read, pos := read + [r.value.entry], pos + r.value.size;
    }
    assert read + [] == read;
    return Some(read);
  }

  /** The bytes of a short pair. */
  lemma PairBytes(e: MemEntry)
    requires |e.key| < 256 && |e.value| < 256
    ensures Image([e]) == [|e.key|, 0, 0, 0] + e.key + [|e.value|, 0, 0, 0] + e.value
  {
    SmallBytes(|e.key|);
    SmallBytes(|e.value|);
    assert Pairs([e]) == [Pair(e)] && Image([e]) == Pair(e) + Concat([]) == Pair(e);
    Assoc(Field(e.key), [|e.value|, 0, 0, 0], e.value);
  }

  // ---------------------------------------------------------------- round trip

  function AsPut(e: MemEntry): MemEntry { MemEntry(e.key, e.value, KIND_PUT, 0) }

  function AllPut(es: seq<MemEntry>): (r: seq<MemEntry>)
    ensures |r| == |es| && forall i :: 0 <= i < |es| ==> r[i] == AsPut(es[i])
  {
    if es == [] then [] else [AsPut(es[0])] + AllPut(es[1..])
  }

  lemma PairRoundTrip(e: MemEntry, rest: Bytes)
    requires Fits(|e.key|) && Fits(|e.value|)
    ensures ReadPair(Pair(e) + rest) == Some(Read(AsPut(e), |Pair(e)|)) && (Pair(e) + rest)[|Pair(e)|..] == rest
  {
    Assoc(Field(e.key), Field(e.value), rest);
    FieldRoundTrip(e.key, Field(e.value) + rest);
    FieldRoundTrip(e.value, rest);
  }

  lemma ReadStep(pair: Bytes, e: MemEntry, rest: Bytes)
    requires ReadPair(pair + rest) == Some(Read(e, |pair|)) && (pair + rest)[|pair|..] == rest
    ensures ReadAll(pair + rest) == Prepend([e], ReadAll(rest))
  {
  }

  /** Decoding undoes encoding. */
  lemma {:induction false} ImageRoundTrip(es: seq<MemEntry>)
    requires Writable(es)
    ensures ReadAll(Image(es)) == Some(AllPut(es))
  {
    if es != [] {
      assert Pairs(es)[1..] == Pairs(es[1..]);
      PairRoundTrip(es[0], Image(es[1..]));
      ReadStep(Pair(es[0]), AsPut(es[0]), Image(es[1..]));
      ImageRoundTrip(es[1..]);
    }
  }

  /** Only puts, short enough to be written again. */
  ghost predicate Puts(es: seq<MemEntry>) {
    forall i :: 0 <= i < |es| ==> es[i].kind == KIND_PUT && Fits(|es[i].key|) && Fits(|es[i].value|)
  }

  lemma ReadPairIsPut(b: Bytes)
    requires ReadPair(b).Some?
    ensures var e := ReadPair(b).value.entry; e.kind == KIND_PUT && Fits(|e.key|) && Fits(|e.value|)
  {
    DecodeBound(b[..4]);
    DecodeBound(b[4 + |FieldAt(b)|..][..4]);
  }

  /** Whatever decodes, decodes to puts. */
  lemma {:induction false} ReadAllPuts(b: Bytes)
    requires ReadAll(b).Some?
    ensures Puts(ReadAll(b).value)
    decreases |b|
  {
    if b != [] {
      ReadPairIsPut(b);
      ReadAllPuts(b[ReadPair(b).value.size..]);
    }
  }

  // ---------------------------------------------------------------- data that was cut off

  /** A field of which not all is there. */
  lemma CutField(b: Bytes, n: nat)
    requires Fits(|b|) && n < |Field(b)|
    ensures !HasField(Field(b)[..n])
  {
    RoundTrip(|b|, 4);
    if n >= 4 {
      assert Field(b)[..n][..4] == Encode(|b|, 4);
    }
  }

  lemma CutPair(e: MemEntry, n: nat)
    requires Fits(|e.key|) && Fits(|e.value|) && n < |Pair(e)|
    ensures ReadPair(Pair(e)[..n]).None?
  {
    var k := |Field(e.key)|;
    if n < k {
      assert Pair(e)[..n] == Field(e.key)[..n];
      CutField(e.key, n);
    } else {
      assert Pair(e)[..n] == Field(e.key) + Field(e.value)[..n - k];
      FieldRoundTrip(e.key, Field(e.value)[..n - k]);
      CutField(e.value, n - k);
    }
  }

  lemma TakeOf(a: Bytes, b: Bytes, n: nat)
    requires n <= |a + b|
    ensures (a + b)[..n] == if n < |a| then a[..n] else a + b[..n - |a|]
  {
  }

  /** Some number of whole pairs ends at byte n. */
  ghost predicate EndsPair(es: seq<MemEntry>, n: int) {
    n == 0 || (es != [] && EndsPair(es[1..], n - |Pair(es[0])|))
  }

  /** Data that was cut off decodes exactly if the cut lies between two pairs. */
  lemma {:induction false} CutDecodesIff(es: seq<MemEntry>, n: nat)
    requires Writable(es) && n <= |Image(es)|
    ensures ReadAll(Image(es)[..n]).Some? <==> EndsPair(es, n)
    decreases |es|
  {
    if es != [] && n > 0 {
      var pair, rest := Pair(es[0]), Image(es[1..]);
      assert Pairs(es)[1..] == Pairs(es[1..]);
      TakeOf(pair, rest, n);
      if n < |pair| {
        CutPair(es[0], n);
        NotNegative(es[1..], n - |pair|);
      } else {
        PairRoundTrip(es[0], rest[..n - |pair|]);
        ReadStep(pair, AsPut(es[0]), rest[..n - |pair|]);
        CutDecodesIff(es[1..], n - |pair|);
      }
    }
  }

  lemma {:induction false} NotNegative(es: seq<MemEntry>, n: int)
    requires n < 0
    ensures !EndsPair(es, n)
  {
    if es != [] {
      NotNegative(es[1..], n - |Pair(es[0])|);
    }
  }
}
