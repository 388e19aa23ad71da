/** The records of the write-ahead log: framing, replay, files cut off by a crash, and what is written behind a cut. */
module Wal {

  import opened Wrappers
  import opened Bytes
  import opened Encoding
  import opened RaftTypes

  const HEADER_SIZE: nat := 8
  const MAX_SEGMENT_SIZE: nat := 8388608

  /** The payload format and the checksum; neither is part of this model. */
  datatype Codec = Codec(marshal: Entry -> Bytes, unmarshal: Bytes -> Option<Entry>, crc: Bytes -> nat)

  /** Unmarshal undoes marshal, and checksums have 32 bits. */
  ghost predicate Sound(c: Codec) {
    && (forall e: Entry :: c.unmarshal(c.marshal(e)) == Some(e))
    && (forall b: Bytes :: Fits(c.crc(b)))
  }

  // ---------------------------------------------------------------- records

  function Header(c: Codec, data: Bytes): (b: Bytes)
    ensures |b| == HEADER_SIZE
  {
    Encode(|data|, 4) + Encode(c.crc(data), 4)
  }

  function Framed(c: Codec, data: Bytes): Bytes { Header(c, data) + data }

  function Record(c: Codec, e: Entry): Bytes { Framed(c, c.marshal(e)) }

  /** The bytes of a segment. */
  function SegmentBytes(c: Codec, es: seq<Entry>): Bytes {
    if es == [] then [] else Record(c, es[0]) + SegmentBytes(c, es[1..])
  }

  /** The bytes of a short record: length and checksum, then the payload. */
  lemma RecordBytes(c: Codec, e: Entry)
    requires |c.marshal(e)| < 256
    ensures var data := c.marshal(e);
            var sum := c.crc(data);
            SegmentBytes(c, [e]) == [|data|, 0, 0, 0]
              + [sum % 256, sum / 256 % 256, sum / 65536 % 256, sum / 16777216 % 256] + data
  {
    SmallBytes(|c.marshal(e)|);
    FourBytesAre(c.crc(c.marshal(e)));
  }

  ghost predicate Short(c: Codec, es: seq<Entry>) {
    forall i :: 0 <= i < |es| ==> Fits(|c.marshal(es[i])|)
  }

  // ---------------------------------------------------------------- reading a segment

  /** The payload of an intact record at the front of the bytes; none if they are cut short or damaged. */
  function Payload(c: Codec, b: Bytes): (r: Option<Bytes>)
    ensures r.Some? ==> HEADER_SIZE + |r.value| <= |b|
  {
    if |b| < HEADER_SIZE then None else
    var length := Decode(b[..4]);
    if |b| < HEADER_SIZE + length then None else
    var data := b[HEADER_SIZE..HEADER_SIZE + length];
    if c.crc(data) != Decode(b[4..8]) then None else Some(data)
  }

  /** All entries up to the first record that is not intact; an intact record that does not parse is an error. */
  function ReadRecords(c: Codec, b: Bytes): Option<seq<Entry>>
    decreases |b|
  {
    if Payload(c, b).None? then Some([]) else
    var data := Payload(c, b).value;
    match c.unmarshal(data)
    case None => None
    case Some(e) => Prepend([e], ReadRecords(c, b[HEADER_SIZE + |data|..]))
  }

  function Prepend(read: seq<Entry>, rest: Option<seq<Entry>>): Option<seq<Entry>> {
    match rest
    case None => None
    case Some(es) => Some(read + es)
  }

  function ReadFrom(c: Codec, b: Bytes, pos: nat): Option<seq<Entry>>
    requires pos <= |b|
  {
    ReadRecords(c, b[pos..])
  }

  lemma ReadNext(c: Codec, read: seq<Entry>, b: Bytes, pos: nat)
    requires pos <= |b| && Payload(c, b[pos..]).Some? && c.unmarshal(Payload(c, b[pos..]).value).Some?
    ensures var data := Payload(c, b[pos..]).value;
            && pos + (HEADER_SIZE + |data|) <= |b|
            && Prepend(read, ReadFrom(c, b, pos))
                 == Prepend(read + [c.unmarshal(data).value], ReadFrom(c, b, pos + (HEADER_SIZE + |data|)))
  {
    var data := Payload(c, b[pos..]).value;
    DropTwice(b, pos, HEADER_SIZE + |data|);
    if ReadFrom(c, b, pos + (HEADER_SIZE + |data|)).Some? {
      var es := ReadFrom(c, b, pos + (HEADER_SIZE + |data|)).value;
      assert read + ([c.unmarshal(data).value] + es) == (read + [c.unmarshal(data).value]) + es;
    }
  }

  lemma ReadStart(c: Codec, b: Bytes)
    ensures Prepend([], ReadFrom(c, b, 0)) == ReadRecords(c, b)
  {
    assert b[0..] == b;
    if ReadRecords(c, b).Some? {
      assert [] + ReadRecords(c, b).value == ReadRecords(c, b).value;
    }
  }

  method ReadSegment(c: Codec, b: Bytes) returns (entries: Option<seq<Entry>>)
    ensures entries == ReadRecords(c, b)
  {
    var read: seq<Entry> := [];
    var pos := 0;
    ReadStart(c, b);
    while true
      invariant pos <= |b| && Prepend(read, ReadFrom(c, b, pos)) == ReadRecords(c, b)
      decreases |b| - pos
    {
      var data := Payload(c, b[pos..]);
      if data.None? {
        assert read + [] == read;
        return Some(read);
      }
      var e := c.unmarshal(data.value);
      if e.None? {
        return None;
      }
      ReadNext(c, read, b, pos);
      read, pos := read + [e.value], pos + (HEADER_SIZE + |data.value|);
    }
  }

  // ---------------------------------------------------------------- torn files

  lemma FramedRoundTrip(c: Codec, data: Bytes, rest: Bytes)
    requires Fits(|data|) && Fits(c.crc(data))
    ensures Payload(c, Framed(c, data) + rest) == Some(data) && (Framed(c, data) + rest)[HEADER_SIZE + |data|..] == rest
  {
    var b := Framed(c, data) + rest;
    RoundTrip(|data|, 4);
    RoundTrip(c.crc(data), 4);
    assert b[..4] == Encode(|data|, 4) && b[4..8] == Encode(c.crc(data), 4);
    assert b[HEADER_SIZE..HEADER_SIZE + |data|] == data;
  }

  lemma FramedTorn(c: Codec, data: Bytes, n: nat)
    requires Fits(|data|) && n < |Framed(c, data)|
    ensures Payload(c, Framed(c, data)[..n]) == None
  {
    var b := Framed(c, data)[..n];
    if n >= HEADER_SIZE {
      RoundTrip(|data|, 4);
      assert b[..4] == Encode(|data|, 4);
    }
  }

  /** A record whose payload was damaged on disk passes for intact exactly if the checksum does not tell. */
  lemma DamageShowsIff(c: Codec, data: Bytes, damaged: Bytes, rest: Bytes)
    requires Fits(|data|) && Fits(c.crc(data)) && |damaged| == |data|
    ensures var b := Header(c, data) + damaged + rest;
            Payload(c, b) == if c.crc(damaged) == c.crc(data) then Some(damaged) else None
  {
    var b := Header(c, data) + damaged + rest;
    RoundTrip(|data|, 4);
    RoundTrip(c.crc(data), 4);
    assert b[..4] == Encode(|data|, 4) && b[4..8] == Encode(c.crc(data), 4);
    assert b[HEADER_SIZE..HEADER_SIZE + |data|] == damaged;
  }

  /** How many records lie wholly within the first n bytes. */
  function Whole(c: Codec, es: seq<Entry>, n: int): (k: nat)
    ensures k <= |es|
  {
    if es == [] || n < |Record(c, es[0])| then 0 else 1 + Whole(c, es[1..], n - |Record(c, es[0])|)
  }

  lemma ReadStep(c: Codec, data: Bytes, e: Entry, rest: Bytes)
    requires Payload(c, Framed(c, data) + rest) == Some(data)
    requires (Framed(c, data) + rest)[HEADER_SIZE + |data|..] == rest
    requires c.unmarshal(data) == Some(e)
    ensures ReadRecords(c, Framed(c, data) + rest) == Prepend([e], ReadRecords(c, rest))
  {
  }

  lemma ConsTake(es: seq<Entry>, k: nat)
    requires es != [] && k < |es|
    ensures [es[0]] + es[1..][..k] == es[..k + 1]
  {
  }

  /** Reading past one intact record. */
  lemma ReadOne(c: Codec, e: Entry, rest: Bytes)
    requires Sound(c) && Fits(|c.marshal(e)|)
    ensures ReadRecords(c, Record(c, e) + rest) == Prepend([e], ReadRecords(c, rest))
  {
    FramedRoundTrip(c, c.marshal(e), rest);
    ReadStep(c, c.marshal(e), e, rest);
  }

  lemma FirstRecord(c: Codec, es: seq<Entry>)
    requires es != []
    ensures SegmentBytes(c, es) == Record(c, es[0]) + SegmentBytes(c, es[1..])
  {
  }

  lemma TakeInside(a: Bytes, b: Bytes, n: nat)
    requires n <= |a + b|
    ensures (a + b)[..n] == if n < |a| then a[..n] else a + b[..n - |a|]
  {
  }

  /** A file cut off anywhere reads as the entries whose records are wholly there. */
  lemma {:induction false} TornSegment(c: Codec, es: seq<Entry>, n: nat)
    requires Sound(c) && Short(c, es) && n <= |SegmentBytes(c, es)|
    ensures ReadRecords(c, SegmentBytes(c, es)[..n]) == Some(es[..Whole(c, es, n)])
    decreases |es|
  {
    if es != [] {
      var rec, rest := Record(c, es[0]), SegmentBytes(c, es[1..]);
      FirstRecord(c, es);
      TakeInside(rec, rest, n);
      if n < |rec| {
        FramedTorn(c, c.marshal(es[0]), n);
      } else {
        ReadOne(c, es[0], rest[..n - |rec|]);
        TornSegment(c, es[1..], n - |rec|);
        ConsTake(es, Whole(c, es[1..], n - |rec|));
      }
    }
  }

  lemma {:induction false} AllWhole(c: Codec, es: seq<Entry>)
    ensures Whole(c, es, |SegmentBytes(c, es)|) == |es|
  {
    if es != [] {
      AllWhole(c, es[1..]);
    }
  }

  lemma WholeSegment(c: Codec, es: seq<Entry>)
    requires Sound(c) && Short(c, es)
    ensures ReadRecords(c, SegmentBytes(c, es)) == Some(es)
  {
    TornSegment(c, es, |SegmentBytes(c, es)|);
    AllWhole(c, es);
    assert SegmentBytes(c, es)[..|SegmentBytes(c, es)|] == SegmentBytes(c, es) && es[..|es|] == es;
  }

  // ---------------------------------------------------------------- writing behind what can be read

  /** The bytes at which reading stops. */
  function Unread(c: Codec, b: Bytes): (u: Bytes)
    ensures Payload(c, u).None?
    decreases |b|
  {
    if Payload(c, b).None? then b else Unread(c, b[HEADER_SIZE + |Payload(c, b).value|..])
  }

  lemma PayloadExtends(c: Codec, b: Bytes, more: Bytes)
    requires Payload(c, b).Some?
    ensures Payload(c, b + more) == Payload(c, b)
    ensures var k := HEADER_SIZE + |Payload(c, b).value|; (b + more)[k..] == b[k..] + more
  {
    var all := b + more;
    var length := Decode(b[..4]);
    assert all[..4] == b[..4] && all[4..8] == b[4..8];
    assert all[HEADER_SIZE..HEADER_SIZE + length] == b[HEADER_SIZE..HEADER_SIZE + length];
  }

  lemma LastOfBoth<T>(a: seq<T>, b: seq<T>)
    requires b != []
    ensures (a + b)[..|a + b| - 1] == a + b[..|b| - 1] && (a + b)[|a + b| - 1] == b[|b| - 1]
  {
  }

  lemma PrependTwice(a: seq<Entry>, b: seq<Entry>, rest: Option<seq<Entry>>)
    ensures Prepend(a, Prepend(b, rest)) == Prepend(a + b, rest)
  {
    if rest.Some? {
      assert a + (b + rest.value) == (a + b) + rest.value;
    }
  }

  lemma PrependNothing(rest: Option<seq<Entry>>)
    ensures Prepend([], rest) == rest
  {
    if rest.Some? {
      assert [] + rest.value == rest.value;
    }
  }

  /** Whatever is written behind a readable file is read as if it followed the bytes at which reading stopped. */
  lemma {:induction false} ReadAcross(c: Codec, b: Bytes, more: Bytes)
    requires ReadRecords(c, b).Some?
    ensures ReadRecords(c, b + more) == Prepend(ReadRecords(c, b).value, ReadRecords(c, Unread(c, b) + more))
    decreases |b|
  {
    if Payload(c, b).None? {
      PrependNothing(ReadRecords(c, b + more));
    } else {
      var data := Payload(c, b).value;
      var rest := b[HEADER_SIZE + |data|..];
      PayloadExtends(c, b, more);
      ReadAcross(c, rest, more);
      PrependTwice([c.unmarshal(data).value], ReadRecords(c, rest).value, ReadRecords(c, Unread(c, rest) + more));
    }
  }

  /** The bytes at which reading stopped do not, with what is written behind them, pass for an intact record. */
  ghost predicate Caught(c: Codec, unread: Bytes, more: Bytes) { unread != [] ==> Payload(c, unread + more).None? }

  /**
   Records written behind any file are read back, in addition to what was read before, exactly if it had no
   torn tail.
   */
  lemma ReadBackIff(c: Codec, b: Bytes, more: seq<Entry>)
    requires Sound(c) && Short(c, more) && ReadRecords(c, b).Some? && Caught(c, Unread(c, b), SegmentBytes(c, more))
    ensures ReadRecords(c, b + SegmentBytes(c, more)) == Some(ReadRecords(c, b).value + more)
       <==> Unread(c, b) == [] || more == []
    ensures Unread(c, b) != [] ==> ReadRecords(c, b + SegmentBytes(c, more)) == ReadRecords(c, b)
  {
    var es, tail := ReadRecords(c, b).value, SegmentBytes(c, more);
    ReadAcross(c, b, tail);
    if Unread(c, b) == [] {
      assert [] + tail == tail;
      WholeSegment(c, more);
    } else {
      assert es + [] == es;
      assert more != [] ==> |es + more| > |es|;
    }
  }

  /** If they do pass for one, its payload is read as an entry that was never written, or nothing can be read at all. */
  lemma UncaughtReads(c: Codec, b: Bytes, more: Bytes)
    requires ReadRecords(c, b).Some? && !Caught(c, Unread(c, b), more)
    ensures var data := Payload(c, Unread(c, b) + more).value;
            match c.unmarshal(data)
            case None => ReadRecords(c, b + more) == None
            case Some(e) =>
              ReadRecords(c, b + more).Some? ==> ReadRecords(c, b).value + [e] <= ReadRecords(c, b + more).value
  {
    ReadAcross(c, b, more);
  }

  /** Reading stops at a record the checksum shows to be damaged, and brings back all before it. */
  lemma ReadsUpToDamage(c: Codec, es: seq<Entry>, e: Entry, damaged: Bytes, rest: Bytes)
    requires Sound(c) && Short(c, es) && Fits(|c.marshal(e)|) && |damaged| == |c.marshal(e)|
    requires c.crc(damaged) != c.crc(c.marshal(e))
    ensures ReadRecords(c, SegmentBytes(c, es) + (Header(c, c.marshal(e)) + damaged + rest)) == Some(es)
  {
    var tail := Header(c, c.marshal(e)) + damaged + rest;
    DamageShowsIff(c, c.marshal(e), damaged, rest);
    WholeSegment(c, es);
    UnreadOfRecords(c, es, []);
    assert SegmentBytes(c, es) + [] == SegmentBytes(c, es) && es + [] == es && [] + tail == tail;
    ReadAcross(c, SegmentBytes(c, es), tail);
  }

  lemma UnreadPast(c: Codec, e: Entry, rest: Bytes)
    requires Sound(c) && Fits(|c.marshal(e)|)
    ensures Unread(c, Record(c, e) + rest) == Unread(c, rest)
  {
    FramedRoundTrip(c, c.marshal(e), rest);
  }

  lemma {:induction false} UnreadOfRecords(c: Codec, es: seq<Entry>, tail: Bytes)
    requires Sound(c) && Short(c, es)
    ensures Unread(c, SegmentBytes(c, es) + tail) == Unread(c, tail)
    decreases |es|
  {
    if es == [] {
      assert SegmentBytes(c, es) + tail == tail;
    } else {
      var rest := SegmentBytes(c, es[1..]);
      FirstRecord(c, es);
      Assoc(Record(c, es[0]), rest, tail);
      UnreadPast(c, es[0], rest + tail);
      UnreadOfRecords(c, es[1..], tail);
    }
  }

  /** Where the last record that lies wholly within the first n bytes ends. */
  function WholeEnd(c: Codec, es: seq<Entry>, n: nat): nat { |SegmentBytes(c, es[..Whole(c, es, n)])| }

  lemma WholeEndPast(c: Codec, es: seq<Entry>, n: nat)
    requires es != [] && n >= |Record(c, es[0])|
    ensures WholeEnd(c, es, n) == |Record(c, es[0])| + WholeEnd(c, es[1..], n - |Record(c, es[0])|)
  {
    var k := Whole(c, es[1..], n - |Record(c, es[0])|);
    assert es[..k + 1][0] == es[0] && es[..k + 1][1..] == es[1..][..k];
  }

  lemma UnreadOfTorn(c: Codec, e: Entry, n: nat)
    requires Fits(|c.marshal(e)|) && n < |Record(c, e)|
    ensures Unread(c, Record(c, e)[..n]) == Record(c, e)[..n]
  {
    FramedTorn(c, c.marshal(e), n);
  }

  lemma {:induction false} UnreadOfCut(c: Codec, es: seq<Entry>, n: nat)
    requires Sound(c) && Short(c, es) && n <= |SegmentBytes(c, es)|
    ensures |Unread(c, SegmentBytes(c, es)[..n])| == n - WholeEnd(c, es, n)
    decreases |es|
  {
    if es == [] {
      assert SegmentBytes(c, es)[..n] == [];
    } else {
      var e, rest := es[0], SegmentBytes(c, es[1..]);
      var k := |Record(c, e)|;
      TakeInside(Record(c, e), rest, n);
      if n < k {
        UnreadOfTorn(c, e, n);
        assert es[..0] == [];
      } else {
        UnreadPast(c, e, rest[..n - k]);
        UnreadOfCut(c, es[1..], n - k);
        WholeEndPast(c, es, n);
      }
    }
  }

  /** After a crash at byte n, records appended without cutting the tail are read back exactly if n ends a record. */
  lemma AppendedAfterCutIff(c: Codec, es: seq<Entry>, n: nat, more: seq<Entry>)
    requires Sound(c) && Short(c, es) && Short(c, more) && n <= |SegmentBytes(c, es)|
    requires Caught(c, Unread(c, SegmentBytes(c, es)[..n]), SegmentBytes(c, more))
    ensures ReadRecords(c, SegmentBytes(c, es)[..n] + SegmentBytes(c, more)) == Some(es[..Whole(c, es, n)] + more)
       <==> more == [] || n == WholeEnd(c, es, n)
  {
    TornSegment(c, es, n);
    UnreadOfCut(c, es, n);
    ReadBackIff(c, SegmentBytes(c, es)[..n], more);
  }

  lemma TornSwallows(c: Codec, e: Entry, k: nat, more: Bytes)
    requires Fits(|c.marshal(e)|) && HEADER_SIZE <= k && k + |more| < |Record(c, e)|
    ensures Payload(c, Record(c, e)[..k] + more).None?
  {
    var b := Record(c, e)[..k] + more;
    RoundTrip(|c.marshal(e)|, 4);
    assert b[..4] == Encode(|c.marshal(e)|, 4);
  }

  /** Whatever the checksum: records that fit into the missing part of a torn one are lost. */
  lemma LostBehindTornTail(c: Codec, es: seq<Entry>, e: Entry, k: nat, more: seq<Entry>)
    requires Sound(c) && Short(c, es) && Fits(|c.marshal(e)|)
    requires HEADER_SIZE <= k && k + |SegmentBytes(c, more)| < |Record(c, e)|
    ensures ReadRecords(c, (SegmentBytes(c, es) + Record(c, e)[..k]) + SegmentBytes(c, more)) == Some(es)
  {
    var torn := Record(c, e)[..k];
    var b := SegmentBytes(c, es) + torn;
    FramedTorn(c, c.marshal(e), k);
    WholeSegment(c, es);
    UnreadOfRecords(c, es, []);
    assert SegmentBytes(c, es) + [] == SegmentBytes(c, es);
    ReadAcross(c, SegmentBytes(c, es), torn);
    UnreadOfRecords(c, es, torn);
    assert [] + torn == torn && es + [] == es;
    TornSwallows(c, e, k, SegmentBytes(c, more));
    ReadAcross(c, b, SegmentBytes(c, more));
  }

  /** Any readable file cut off anywhere reads as a beginning of what it held. */
  lemma {:induction false} CutReadsPrefix(c: Codec, b: Bytes, n: nat)
    requires n <= |b| && ReadRecords(c, b).Some?
    ensures ReadRecords(c, b[..n]).Some? && ReadRecords(c, b[..n]).value <= ReadRecords(c, b).value
    decreases |b|
  {
    if Payload(c, b[..n]).Some? {
      var k := HEADER_SIZE + |Payload(c, b[..n]).value|;
      assert b == b[..n] + b[n..];
      PayloadExtends(c, b[..n], b[n..]);
      assert b[..n][k..] == b[k..][..n - k];
      CutReadsPrefix(c, b[k..], n - k);
    }
  }
}
