/** A table file: the entries, a bloom filter of their keys, and a footer. */
module SSTable {

  import opened Wrappers
  import opened Bytes
  import opened KeyOrder
  import opened Memtable
  import opened Encoding

  const SST_MAGIC: nat := 0xDEADB0B5
  const BLOOM_SIZE: nat := 1024
  const BLOOM_HASHES: nat := 7
  const FOOTER_SIZE: nat := 24

  /** FNV with a seed mixed in, reduced to 32 bits; not part of this model. */
  type Hash = (Key, nat) -> nat

  // ---------------------------------------------------------------- bloom filter

  function Slot(hash: Hash, key: Key, i: nat): (p: nat)
    ensures p < BLOOM_SIZE
  {
    hash(key, i) % BLOOM_SIZE
  }

  function SetLow(b: byte): byte { if b % 2 == 0 then b + 1 else b }

  function AddUpTo(hash: Hash, bits: Bytes, key: Key, n: nat): (r: Bytes)
    requires |bits| == BLOOM_SIZE
    ensures |r| == BLOOM_SIZE
  {
    if n == 0 then bits
    else var b := AddUpTo(hash, bits, key, n - 1); b[Slot(hash, key, n - 1) := SetLow(b[Slot(hash, key, n - 1)])]
  }

  function Blank(): (r: Bytes)
    ensures |r| == BLOOM_SIZE
  {
    seq(BLOOM_SIZE, _ => 0)
  }

  /** The filter of a list of keys, in the order they were added. */
  function Filter(hash: Hash, es: seq<MemEntry>): (r: Bytes)
    ensures |r| == BLOOM_SIZE
  {
    if es == [] then Blank() else AddUpTo(hash, Filter(hash, es[..|es| - 1]), es[|es| - 1].key, BLOOM_HASHES)
  }

  ghost predicate AllSet(hash: Hash, bits: Bytes, key: Key, n: nat)
    requires |bits| == BLOOM_SIZE
  {
    forall i: nat :: i < n ==> bits[Slot(hash, key, i)] != 0
  }

  ghost predicate Grown(bits: Bytes, bits': Bytes) {
    |bits| == |bits'| && forall p :: 0 <= p < |bits| && bits[p] != 0 ==> bits'[p] != 0
  }

  lemma {:induction false} AddedIsSet(hash: Hash, bits: Bytes, key: Key, n: nat)
    requires |bits| == BLOOM_SIZE
    ensures AllSet(hash, AddUpTo(hash, bits, key, n), key, n) && Grown(bits, AddUpTo(hash, bits, key, n))
  {
    if n > 0 {
      AddedIsSet(hash, bits, key, n - 1);
    }
  }

  /** No false negatives: the filter of a list lets every key of the list pass. */
  lemma {:induction false} FilterHasKeys(hash: Hash, es: seq<MemEntry>, i: nat)
    requires i < |es|
    ensures AllSet(hash, Filter(hash, es), es[i].key, BLOOM_HASHES)
  {
    var n := |es| - 1;
    AddedIsSet(hash, Filter(hash, es[..n]), es[n].key, BLOOM_HASHES);
    if i < n {
      FilterHasKeys(hash, es[..n], i);
    }
  }

  method AddKey(hash: Hash, bits: array<byte>, key: Key)
    requires bits.Length == BLOOM_SIZE
    modifies bits
    ensures bits[..] == AddUpTo(hash, old(bits[..]), key, BLOOM_HASHES)
  {
    var i := 0;
    while i < BLOOM_HASHES
      invariant 0 <= i <= BLOOM_HASHES
      invariant bits[..] == AddUpTo(hash, old(bits[..]), key, i)
    {
      var p := Slot(hash, key, i);
      assert bits[..][p] == bits[p];
      bits[p] := SetLow(bits[p]);
      i := i + 1;
    }
  }

  method MightContain(hash: Hash, bits: Bytes, key: Key) returns (may: bool)
    requires |bits| == BLOOM_SIZE
    ensures may <==> AllSet(hash, bits, key, BLOOM_HASHES)
  {
    var i := 0;
    while i < BLOOM_HASHES
      invariant 0 <= i <= BLOOM_HASHES && AllSet(hash, bits, key, i)
    {
      if bits[Slot(hash, key, i)] == 0 {
        return false;
      }
      i := i + 1;
    }
    return true;
  }

  // ---------------------------------------------------------------- records

  function Record(e: MemEntry): Bytes { Field(e.key) + Field(e.value) + [e.kind] }

  function Records(es: seq<MemEntry>): (r: seq<Bytes>)
    ensures |r| == |es| && forall i :: 0 <= i < |es| ==> r[i] == Record(es[i])
  {
    if es == [] then [] else [Record(es[0])] + Records(es[1..])
  }

  function DataBlock(es: seq<MemEntry>): Bytes { Concat(Records(es)) }

  function ReadRecord(b: Bytes): (r: Option<Read>)
    ensures r.Some? ==> 0 < r.value.size <= |b|
  {
    if !HasField(b) then None else
    var key := FieldAt(b);
    var rest := b[4 + |key|..];
    if !HasField(rest) then None else
    var value := FieldAt(rest);
    var tail := rest[4 + |value|..];
    if tail == [] then None else Some(Read(MemEntry(key, value, tail[0], 0), 9 + |key| + |value|))
  }

  function Stored(e: MemEntry): MemEntry { e.(seqNo := 0) }

  lemma ReadParts(key: Key, value: Bytes, kind: byte, rest: Bytes)
    requires Fits(|key|) && Fits(|value|)
    ensures ReadRecord(Field(key) + (Field(value) + ([kind] + rest)))
         == Some(Read(MemEntry(key, value, kind, 0), |Field(key)| + |Field(value)| + 1))
  {
    FieldRoundTrip(key, Field(value) + ([kind] + rest));
    FieldRoundTrip(value, [kind] + rest);
  }

  lemma FourParts(a: Bytes, b: Bytes, c: Bytes, d: Bytes)
    ensures (a + b + c) + d == a + (b + (c + d)) && ((a + b + c) + d)[|a + b + c|..] == d
  {
    Assoc(a + b, c, d);
    Assoc(a, b, c + d);
  }

  lemma RecordRoundTrip(e: MemEntry, rest: Bytes)
    requires Fits(|e.key|) && Fits(|e.value|)
    ensures ReadRecord(Record(e) + rest) == Some(Read(Stored(e), |Record(e)|))
    ensures (Record(e) + rest)[|Record(e)|..] == rest
  {
    FourParts(Field(e.key), Field(e.value), [e.kind], rest);
    ReadParts(e.key, e.value, e.kind, rest);
  }

  // ---------------------------------------------------------------- writing

  function Footer(dataSize: nat, count: nat): (b: Bytes)
    ensures |b| == FOOTER_SIZE
  {
    Encode(dataSize, 8) + Encode(BLOOM_SIZE, 8) + Encode(count, 4) + Encode(SST_MAGIC, 4)
  }

  function TableFile(hash: Hash, es: seq<MemEntry>): Bytes {
    DataBlock(es) + Filter(hash, es) + Footer(|DataBlock(es)|, |es|)
  }

  lemma DataBlockAppend(es: seq<MemEntry>, e: MemEntry)
    ensures DataBlock(es + [e]) == DataBlock(es) + Record(e)
  {
    ConcatAppend(Records(es), Record(e));
    assert Records(es + [e]) == Records(es) + [Record(e)];
  }

  method Write(hash: Hash, es: seq<MemEntry>) returns (file: Bytes)
    ensures file == TableFile(hash, es)
  {
    var bloom := new byte[BLOOM_SIZE](_ => 0);
    assert bloom[..] == Blank();
    var data: Bytes := [];
    var i := 0;
    while i < |es|
      invariant 0 <= i <= |es| && data == DataBlock(es[..i]) && bloom[..] == Filter(hash, es[..i])
    {
      assert es[..i + 1] == es[..i] + [es[i]];
      DataBlockAppend(es[..i], es[i]);
      AddKey(hash, bloom, es[i].key);
      data := data + Record(es[i]);
      i := i + 1;
    }
    assert es[..i] == es;
    file := data + bloom[..] + Footer(|data|, |es|);
  }

  lemma KilobyteBytes()
    ensures Encode(BLOOM_SIZE, 8) == [0, 4, 0, 0, 0, 0, 0, 0]
  {
    ZeroBytes(6);
    assert Encode(4, 7) == [4] + Encode(0, 6) && Encode(BLOOM_SIZE, 8) == [0] + Encode(4, 7);
  }

  lemma BlockBytes(e: MemEntry)
    requires |e.key| < 256 && |e.value| < 256
    ensures DataBlock([e]) == [|e.key|, 0, 0, 0] + e.key + [|e.value|, 0, 0, 0] + e.value + [e.kind]
  {
    SmallBytes(|e.key|);
    SmallBytes(|e.value|);
    assert Records([e]) == [Record(e)] && DataBlock([e]) == Record(e) + Concat([]) == Record(e);
    Assoc(Field(e.key), [|e.value|, 0, 0, 0], e.value);
  }

  lemma FooterBytes(dataSize: nat, count: nat)
    requires dataSize < 256 && count < 256
    ensures Footer(dataSize, count)
         == [dataSize, 0, 0, 0, 0, 0, 0, 0] + [0, 4, 0, 0, 0, 0, 0, 0] + [count, 0, 0, 0] + [0xB5, 0xB0, 0xAD, 0xDE]
  {
    SmallBytes(dataSize);
    SmallBytes(count);
    FourBytesAre(SST_MAGIC);
    KilobyteBytes();
  }

  /** The bytes of a file of one short entry. */
  lemma FileBytes(hash: Hash, e: MemEntry)
    requires |e.key| < 100 && |e.value| < 100
    ensures TableFile(hash, [e])
         == ([|e.key|, 0, 0, 0] + e.key + [|e.value|, 0, 0, 0] + e.value + [e.kind])
          + Filter(hash, [e])
          + ([9 + |e.key| + |e.value|, 0, 0, 0, 0, 0, 0, 0] + [0, 4, 0, 0, 0, 0, 0, 0] + [1, 0, 0, 0]
             + [0xB5, 0xB0, 0xAD, 0xDE])
  {
    BlockBytes(e);
    FooterBytes(|DataBlock([e])|, 1);
  }

  // ---------------------------------------------------------------- reading

  /** What OpenSSTable keeps in memory. */
  datatype Reader = Reader(bloom: Bytes, entryCount: nat)

  function FooterOf(file: Bytes): Bytes
    requires |file| >= FOOTER_SIZE
  {
    file[|file| - FOOTER_SIZE..]
  }

  function BloomOffset(file: Bytes): nat
    requires |file| >= FOOTER_SIZE
  {
    Decode(FooterOf(file)[..8])
  }

  function Open(file: Bytes): Option<Reader> {
    if |file| < FOOTER_SIZE then None else
    var footer := FooterOf(file);
    if Decode(footer[20..24]) != SST_MAGIC then None
    else if BloomOffset(file) + BLOOM_SIZE > |file| then None
    else Some(Reader(file[BloomOffset(file)..BloomOffset(file) + BLOOM_SIZE], Decode(footer[16..20])))
  }

  lemma {:induction false} DecodesOnlyTo(b: Bytes, n: nat)
    requires Decode(b) == n
    ensures Encode(n, |b|) == b
  {
    if b != [] {
      DecodesOnlyTo(b[1..], Decode(b[1..]));
      assert n == b[0] + 256 * Decode(b[1..]);
    }
  }

  /** A file opens exactly if it ends with the magic number, lowest byte first, and its footer points into it. */
  lemma OpensIff(file: Bytes)
    ensures Open(file).Some? <==> && |file| >= FOOTER_SIZE && file[|file| - 4..] == [0xB5, 0xB0, 0xAD, 0xDE]
                                  && BloomOffset(file) + BLOOM_SIZE <= |file|
  {
    FourBytesAre(SST_MAGIC);
    PowerFour();
    RoundTrip(SST_MAGIC, 4);
    if |file| >= FOOTER_SIZE {
      assert FooterOf(file)[20..24] == file[|file| - 4..];
      DecodesOnlyTo(file[|file| - 4..], Decode(file[|file| - 4..]));
    }
  }

  /** The entries read from the front of the bytes, as long as `left` bytes are not used up and a record can be read. */
  function Scan(b: Bytes, left: int): seq<MemEntry>
    decreases |b|
  {
    if left <= 0 || ReadRecord(b).None? then []
    else var r := ReadRecord(b).value; [r.entry] + Scan(b[r.size..], left - r.size)
  }

  method IterateAll(file: Bytes) returns (entries: Option<seq<MemEntry>>)
    ensures entries == if |file| < FOOTER_SIZE then None else Some(Scan(file, BloomOffset(file)))
  {
    if |file| < FOOTER_SIZE {
      return None;
    }
    var limit := BloomOffset(file);
    var read := ScanFile(file, limit);
    assert file[0..] == file;
    return Some(read);
  }

  /** What scanning the file from `pos` on up to `limit` brings. */
  function ScanFrom(file: Bytes, pos: nat, limit: nat): seq<MemEntry>
    requires pos <= |file|
  {
    Scan(file[pos..], limit - pos)
  }

  lemma ScanOne(file: Bytes, pos: nat, limit: nat)
    requires pos < limit && pos <= |file| && ReadRecord(file[pos..]).Some?
    ensures var r := ReadRecord(file[pos..]).value;
            pos + r.size <= |file| && ScanFrom(file, pos, limit) == [r.entry] + ScanFrom(file, pos + r.size, limit)
  {
    DropTwice(file, pos, ReadRecord(file[pos..]).value.size);
  }

  lemma ScanDone(file: Bytes, pos: nat, limit: nat)
    requires pos <= |file| && (pos >= limit || ReadRecord(file[pos..]).None?)
    ensures ScanFrom(file, pos, limit) == []
  {
  }

  method ScanFile(file: Bytes, limit: nat) returns (read: seq<MemEntry>)
    ensures read == ScanFrom(file, 0, limit)
  {
    read := [];
    var pos := 0;
    while pos < limit
      invariant pos <= |file| && read + ScanFrom(file, pos, limit) == ScanFrom(file, 0, limit)
      decreases |file| - pos
    {
      var r := ReadRecord(file[pos..]);
      if r.None? {
        ScanDone(file, pos, limit);
        return;
      }
      ScanOne(file, pos, limit);
      read, pos := read + [r.value.entry], pos + r.value.size;
    }
    ScanDone(file, pos, limit);
  }

  function AllStored(es: seq<MemEntry>): (r: seq<MemEntry>)
    ensures |r| == |es| && forall i :: 0 <= i < |es| ==> r[i] == Stored(es[i])
  {
    if es == [] then [] else [Stored(es[0])] + AllStored(es[1..])
  }

  lemma ScanStep(rec: Bytes, e: MemEntry, rest: Bytes, left: int)
    requires left > 0 && ReadRecord(rec + rest) == Some(Read(e, |rec|)) && (rec + rest)[|rec|..] == rest
    ensures Scan(rec + rest, left) == [e] + Scan(rest, left - |rec|)
  {
  }

  /** Scanning a data block brings back the entries, whatever follows it. */
  lemma {:induction false} ScanDataBlock(es: seq<MemEntry>, after: Bytes)
    requires Writable(es)
    ensures Scan(DataBlock(es) + after, |DataBlock(es)|) == AllStored(es)
    decreases |es|
  {
    if es != [] {
      var rec, rest := Record(es[0]), DataBlock(es[1..]);
      assert Records(es)[1..] == Records(es[1..]);
      Assoc(rec, rest, after);
      RecordRoundTrip(es[0], rest + after);
      ScanStep(rec, Stored(es[0]), rest + after, |rec| + |rest|);
      ScanDataBlock(es[1..], after);
    }
  }

  lemma FooterRoundTrip(dataSize: nat, count: nat, before: Bytes)
    requires dataSize < Power(8)
    ensures var file := before + Footer(dataSize, count);
            && FooterOf(file) == Footer(dataSize, count) && BloomOffset(file) == dataSize
            && Decode(FooterOf(file)[20..24]) == SST_MAGIC && (Fits(count) ==> Decode(FooterOf(file)[16..20]) == count)
  {
    var file, f := before + Footer(dataSize, count), Footer(dataSize, count);
    assert FooterOf(file) == f;
    assert f[..8] == Encode(dataSize, 8) && f[16..20] == Encode(count, 4) && f[20..24] == Encode(SST_MAGIC, 4);
    RoundTrip(dataSize, 8);
    if Fits(count) {
      RoundTrip(count, 4);
    }
    PowerFour();
    RoundTrip(SST_MAGIC, 4);
  }

  lemma Parts(data: Bytes, bits: Bytes, footer: Bytes)
    ensures var file := data + bits + footer;
            file == data + (bits + footer) && file[|data|..|data| + |bits|] == bits
  {
  }

  /** The file can be opened, and reading it brings back exactly the entries that were written. */
  lemma TableRoundTrip(hash: Hash, es: seq<MemEntry>)
    requires Writable(es) && |DataBlock(es)| < Power(8)
    ensures var r := Open(TableFile(hash, es));
            r.Some? && r.value.bloom == Filter(hash, es) && (Fits(|es|) ==> r.value.entryCount == |es|)
    ensures |TableFile(hash, es)| >= FOOTER_SIZE
    ensures Scan(TableFile(hash, es), BloomOffset(TableFile(hash, es))) == AllStored(es)
  {
    var data, bits, footer := DataBlock(es), Filter(hash, es), Footer(|DataBlock(es)|, |es|);
    FooterRoundTrip(|data|, |es|, data + bits);
    Parts(data, bits, footer);
    ScanDataBlock(es, bits + footer);
  }

  // ---------------------------------------------------------------- looking up a key

  /** The linear search: it stops at the key, behind it, or where no record can be read, not at the end of the data. */
  function Find(b: Bytes, key: Key): Option<MemEntry>
    decreases |b|
  {
    if ReadRecord(b).None? then None else
    var r := ReadRecord(b).value;
    if r.entry.key == key then Some(r.entry)
    else if Less(key, r.entry.key) then None
    else Find(b[r.size..], key)
  }

  function FindFrom(file: Bytes, pos: nat, key: Key): Option<MemEntry>
    requires pos <= |file|
  {
    Find(file[pos..], key)
  }

  lemma FindOne(file: Bytes, pos: nat, key: Key)
    requires pos <= |file| && ReadRecord(file[pos..]).Some?
    ensures var r := ReadRecord(file[pos..]).value;
            && pos + r.size <= |file|
            && FindFrom(file, pos, key) == if r.entry.key == key then Some(r.entry)
                                           else if Less(key, r.entry.key) then None
                                           else FindFrom(file, pos + r.size, key)
  {
    DropTwice(file, pos, ReadRecord(file[pos..]).value.size);
  }

  method Search(file: Bytes, key: Key) returns (found: Option<MemEntry>)
    ensures found == FindFrom(file, 0, key)
  {
    var pos := 0;
    while true
      invariant pos <= |file| && FindFrom(file, pos, key) == FindFrom(file, 0, key)
      decreases |file| - pos
    {
      var r := ReadRecord(file[pos..]);
      if r.None? {
        return None;
      }
      FindOne(file, pos, key);
      if r.value.entry.key == key {
        return Some(r.value.entry);
      }
      if Less(key, r.value.entry.key) {
        return None;
      }
      pos := pos + r.value.size;
    }
  }

  /** What the reader of a file finds for a key. */
  ghost function Lookup(hash: Hash, bloom: Bytes, file: Bytes, key: Key): Option<MemEntry>
    requires |bloom| == BLOOM_SIZE
  {
    if AllSet(hash, bloom, key, BLOOM_HASHES) then Find(file, key) else None
  }

  method Get(hash: Hash, bloom: Bytes, file: Bytes, key: Key) returns (found: Option<MemEntry>)
    requires |bloom| == BLOOM_SIZE
    ensures found == Lookup(hash, bloom, file, key)
  {
    var may := MightContain(hash, bloom, key);
    if !may {
      return None;
    }
    assert file[0..] == file;
    found := Search(file, key);
  }

  lemma FindStep(rec: Bytes, e: MemEntry, rest: Bytes, key: Key)
    requires ReadRecord(rec + rest) == Some(Read(e, |rec|)) && (rec + rest)[|rec|..] == rest
    ensures Find(rec + rest, key)
         == if e.key == key then Some(e) else if Less(key, e.key) then None else Find(rest, key)
  {
  }

  /** In the data block the search finds the key if it is there, gives up behind it, and runs on past the end. */
  lemma {:induction false} FindInBlock(es: seq<MemEntry>, after: Bytes, key: Key, idx: nat)
    requires Writable(es) && Splits(es, key, idx)
    ensures Find(DataBlock(es) + after, key)
         == if idx == |es| then Find(after, key) else if es[idx].key == key then Some(Stored(es[idx])) else None
    decreases |es|
  {
    if es == [] {
      assert [] + after == after;
    } else {
      var rec, rest := Record(es[0]), DataBlock(es[1..]);
      assert Records(es)[1..] == Records(es[1..]);
      Assoc(rec, rest, after);
      RecordRoundTrip(es[0], rest + after);
      FindStep(rec, Stored(es[0]), rest + after, key);
      if idx > 0 {
        LessAsymmetric(es[0].key, key);
        FindInBlock(es[1..], after, key, idx - 1);
      } else {
        LessTotal(es[0].key, key);
      }
    }
  }

  /** What a lookup in the list itself gives. */
  ghost function Listed(es: seq<MemEntry>, key: Key, idx: nat): Option<MemEntry> {
    if idx < |es| && es[idx].key == key then Some(Stored(es[idx])) else None
  }

  /** What follows the data in the file. */
  function Trailer(hash: Hash, es: seq<MemEntry>): Bytes { Filter(hash, es) + Footer(|DataBlock(es)|, |es|) }

  /**
   A lookup in the file agrees with a lookup in the list for every key that is present, that lies below the
   largest, or that the filter stops. For any other key it agrees exactly if the bytes behind the data do not
   happen to read as a record for that key.
   */
  lemma LookupAgreesIff(hash: Hash, es: seq<MemEntry>, key: Key, idx: nat)
    requires Writable(es) && Splits(es, key, idx)
    ensures Lookup(hash, Filter(hash, es), TableFile(hash, es), key) == Listed(es, key, idx)
       <==> !(&& idx == |es| && AllSet(hash, Filter(hash, es), key, BLOOM_HASHES)
              && Find(Trailer(hash, es), key).Some?)
  {
    Parts(DataBlock(es), Filter(hash, es), Footer(|DataBlock(es)|, |es|));
    FindInBlock(es, Trailer(hash, es), key, idx);
    if idx < |es| && es[idx].key == key {
      FilterHasKeys(hash, es, idx);
    }
  }

  // ---------------------------------------------------------------- a key that was never written

  /** One of the first n slots of the key. */
  ghost predicate Hits(hash: Hash, key: Key, n: nat, p: nat) { exists i: nat :: i < n && Slot(hash, key, i) == p }

  lemma {:induction false} AddedBit(hash: Hash, bits: Bytes, key: Key, n: nat, p: nat)
    requires |bits| == BLOOM_SIZE && p < BLOOM_SIZE && bits[p] < 2
    ensures AddUpTo(hash, bits, key, n)[p] == if Hits(hash, key, n, p) then 1 else bits[p]
  {
    if n > 0 {
      AddedBit(hash, bits, key, n - 1, p);
      assert Hits(hash, key, n, p) <==> Hits(hash, key, n - 1, p) || Slot(hash, key, n - 1) == p;
    }
  }

  ghost predicate HitBySome(hash: Hash, es: seq<MemEntry>, p: nat) {
    exists j: nat :: j < |es| && Hits(hash, es[j].key, BLOOM_HASHES, p)
  }

  /** A byte of the filter is 1 if it is a slot of some key, and 0 otherwise. */
  lemma {:induction false} FilterBit(hash: Hash, es: seq<MemEntry>, p: nat)
    requires p < BLOOM_SIZE
    ensures Filter(hash, es)[p] == if HitBySome(hash, es, p) then 1 else 0
  {
    if es != [] {
      var n := |es| - 1;
      FilterBit(hash, es[..n], p);
      AddedBit(hash, Filter(hash, es[..n]), es[n].key, BLOOM_HASHES, p);
      assert HitBySome(hash, es, p) <==> HitBySome(hash, es[..n], p) || Hits(hash, es[n].key, BLOOM_HASHES, p);
    }
  }

  lemma LookupPastEnd(hash: Hash, es: seq<MemEntry>, key: Key)
    requires Writable(es) && Splits(es, key, |es|) && AllSet(hash, Filter(hash, es), key, BLOOM_HASHES)
    ensures Lookup(hash, Filter(hash, es), TableFile(hash, es), key) == Find(Trailer(hash, es), key)
  {
    Parts(DataBlock(es), Filter(hash, es), Footer(|DataBlock(es)|, |es|));
    FindInBlock(es, Trailer(hash, es), key, |es|);
  }

  /** The first bytes of the filter read as the header of a put of key 1 with a value of 256 bytes. */
  ghost predicate LooksLikePut(bits: Bytes) {
    && |bits| == BLOOM_SIZE && bits[0] == 1 && bits[1] == bits[2] == bits[3] == 0
    && bits[4] == 1
    && bits[5] == 0 && bits[6] == 1 && bits[7] == bits[8] == 0
    && bits[265] == KIND_PUT
  }

  lemma FourBytes(a: byte, b: byte)
    ensures Decode([a, b, 0, 0]) == a + 256 * b
  {
    assert [a, b, 0, 0][1..] == [b, 0, 0] && [b, 0, 0][1..] == [0, 0] && [0, 0][1..] == [0] && [0][1..] == [];
    assert Decode([0]) == 0 && Decode([0, 0]) == 0 && Decode([b, 0, 0]) == b;
  }

  lemma PhantomRecord(bits: Bytes, footer: Bytes)
    requires LooksLikePut(bits)
    ensures Find(bits + footer, [1]) == Some(MemEntry([1], bits[9..265], KIND_PUT, 0))
  {
    var b := bits + footer;
    var rest := b[5..];
    assert b[..4] == [1, 0, 0, 0] && rest[..4] == [0, 1, 0, 0];
    FourBytes(1, 0);
    FourBytes(0, 1);
    forall k | 0 <= k < 256 ensures rest[4..260][k] == bits[9..265][k] {
    }
    assert rest[4..260] == bits[9..265];
    assert b[4..5] == [1] && rest[260] == bits[265];
  }

  /** Every table below key 1 whose filter happens to read like that, and passes key 1, has a value for it. */
  lemma PhantomFound(hash: Hash, es: seq<MemEntry>)
    requires Writable(es) && Splits(es, [1], |es|)
    requires LooksLikePut(Filter(hash, es)) && AllSet(hash, Filter(hash, es), [1], BLOOM_HASHES)
    ensures Lookup(hash, Filter(hash, es), TableFile(hash, es), [1])
         == Some(MemEntry([1], Filter(hash, es)[9..265], KIND_PUT, 0))
  {
    LookupPastEnd(hash, es, [1]);
    PhantomRecord(Filter(hash, es), Footer(|DataBlock(es)|, |es|));
  }
}
