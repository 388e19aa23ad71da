/**
 The hash of the bloom filter, 32-bit FNV-1a fed with the four bytes of a seed and then the key, and a table file in
 which it makes the reader find a key that was never written.
 */
module Fnv {

  import opened Bytes
  import opened Encoding
  import opened Memtable
  import opened SSTable

  const OFFSET_BASIS: bv32 := 0x811C_9DC5
  const FNV_PRIME: bv32 := 0x0100_0193

  function Blend(h: bv32, b: bv32): bv32 { (h ^ b) * FNV_PRIME }

  function Mix(h: bv32, b: byte): bv32 { Blend(h, b as bv32) }

  function Sum(h: bv32, bs: Bytes): bv32 {
    if bs == [] then h else Mix(Sum(h, bs[..|bs| - 1]), bs[|bs| - 1])
  }

  function SeedBytes(seed: nat): Bytes {
    [seed / 0x100_0000 % 256, seed / 0x1_0000 % 256, seed / 0x100 % 256, seed % 256]
  }

  function Fnv1a(key: Key, seed: nat): nat { Sum(Sum(OFFSET_BASIS, SeedBytes(seed)), key) as nat }

  // ---------------------------------------------------------------- computing it

  lemma SumOne(h: bv32, a: byte)
    ensures Sum(h, [a]) == Mix(h, a)
  {
    assert [a][..0] == [];
  }

  lemma SumThree(h: bv32, a: byte, b: byte, c: byte)
    ensures Sum(h, [a, b, c]) == Mix(Mix(Mix(h, a), b), c)
  {
    assert [a, b, c][..2] == [a, b] && [a, b][..1] == [a];
    SumOne(h, a);
    assert Sum(h, [a, b]) == Mix(Mix(h, a), b);
  }

  lemma SumFour(h: bv32, a: byte, b: byte, c: byte, d: byte)
    ensures Sum(h, [a, b, c, d]) == Mix(Mix(Mix(Mix(h, a), b), c), d)
  {
    assert [a, b, c, d][..3] == [a, b, c];
    SumThree(h, a, b, c);
  }

  lemma SumFive(h: bv32, a: byte, b: byte, c: byte, d: byte, e: byte)
    ensures Sum(h, [a, b, c, d, e]) == Mix(Mix(Mix(Mix(Mix(h, a), b), c), d), e)
  {
    assert [a, b, c, d, e][..4] == [a, b, c, d];
    SumFour(h, a, b, c, d);
  }

  /** The state after the bytes of the seed. */
  function Seeded(seed: bv32): bv32 { Blend(Blend(Blend(Blend(OFFSET_BASIS, 0), 0), 0), seed) }

  lemma SeededIs()
    ensures Sum(OFFSET_BASIS, SeedBytes(0)) == Seeded(0) && Sum(OFFSET_BASIS, SeedBytes(1)) == Seeded(1)
    ensures Sum(OFFSET_BASIS, SeedBytes(2)) == Seeded(2) && Sum(OFFSET_BASIS, SeedBytes(3)) == Seeded(3)
    ensures Sum(OFFSET_BASIS, SeedBytes(4)) == Seeded(4) && Sum(OFFSET_BASIS, SeedBytes(5)) == Seeded(5)
    ensures Sum(OFFSET_BASIS, SeedBytes(6)) == Seeded(6)
  {
    SumFour(OFFSET_BASIS, 0, 0, 0, 0);
    SumFour(OFFSET_BASIS, 0, 0, 0, 1);
    SumFour(OFFSET_BASIS, 0, 0, 0, 2);
    SumFour(OFFSET_BASIS, 0, 0, 0, 3);
    SumFour(OFFSET_BASIS, 0, 0, 0, 4);
    SumFour(OFFSET_BASIS, 0, 0, 0, 5);
    SumFour(OFFSET_BASIS, 0, 0, 0, 6);
  }

  /** The hash is FNV-1a. */
  ghost predicate IsFnv(hash: Hash) { forall key: Key, seed: nat :: hash(key, seed) == Fnv1a(key, seed) }

  lemma FnvFrom(hash: Hash, key: Key, seed: nat, s: bv32, h: bv32)
    requires IsFnv(hash) && Sum(OFFSET_BASIS, SeedBytes(seed)) == s && Sum(s, key) == h
    ensures hash(key, seed) == h as nat
  {
  }

  /** Three keys of printable characters behind a NUL, and the key that will be found among them. */
  const KEY_A: Key := [0, 42, 83]
  const KEY_B: Key := [0, 45, 66, 46]
  const KEY_C: Key := [0, 47, 96, 108, 112]
  const PHANTOM: Key := [1]

  ghost predicate HashedA(hash: Hash) {
    && hash(KEY_A, 0) == 0xB761_4804 && hash(KEY_A, 1) == 0xECBD_8795 && hash(KEY_A, 2) == 0x3274_1F92
    && hash(KEY_A, 3) == 0x410D_54AB && hash(KEY_A, 4) == 0x7610_E800 && hash(KEY_A, 5) == 0x0CAA_F331
    && hash(KEY_A, 6) == 0x1261_266E
  }

  ghost predicate HashedB(hash: Hash) {
    && hash(KEY_B, 0) == 0x919A_8806 && hash(KEY_B, 1) == 0x5C4B_65C5 && hash(KEY_B, 2) == 0xAEA8_BD88
    && hash(KEY_B, 3) == 0xEC9F_B90F && hash(KEY_B, 4) == 0xCC86_565A && hash(KEY_B, 5) == 0xEA90_A739
    && hash(KEY_B, 6) == 0x3BB0_CA7C
  }

  ghost predicate HashedC(hash: Hash) {
    && hash(KEY_C, 0) == 0xFE5E_CA9C && hash(KEY_C, 1) == 0x8D6E_5995 && hash(KEY_C, 2) == 0xB500_80AE
    && hash(KEY_C, 3) == 0x1F46_5A67 && hash(KEY_C, 4) == 0x204B_2CD8 && hash(KEY_C, 5) == 0xDEC6_F951
    && hash(KEY_C, 6) == 0xB223_2DAA
  }

  ghost predicate HashedPhantom(hash: Hash) {
    && hash(PHANTOM, 0) == 0x1110_CE7C && hash(PHANTOM, 1) == 0xED0E_5739 && hash(PHANTOM, 2) == 0xC50B_D9AA
    && hash(PHANTOM, 3) == 0xA109_6267 && hash(PHANTOM, 4) == 0x7906_E4D8 && hash(PHANTOM, 5) == 0x5504_6D95
    && hash(PHANTOM, 6) == 0x2D01_F006
  }

  lemma BlendedA()
    ensures Blend(Blend(Blend(Seeded(0), 0), 42), 83) == 0xB761_4804
    ensures Blend(Blend(Blend(Seeded(1), 0), 42), 83) == 0xECBD_8795
    ensures Blend(Blend(Blend(Seeded(2), 0), 42), 83) == 0x3274_1F92
    ensures Blend(Blend(Blend(Seeded(3), 0), 42), 83) == 0x410D_54AB
    ensures Blend(Blend(Blend(Seeded(4), 0), 42), 83) == 0x7610_E800
    ensures Blend(Blend(Blend(Seeded(5), 0), 42), 83) == 0x0CAA_F331
    ensures Blend(Blend(Blend(Seeded(6), 0), 42), 83) == 0x1261_266E
  {
  }

  lemma HashesA()
    ensures Sum(Seeded(0), KEY_A) == 0xB761_4804
    ensures Sum(Seeded(1), KEY_A) == 0xECBD_8795
    ensures Sum(Seeded(2), KEY_A) == 0x3274_1F92
    ensures Sum(Seeded(3), KEY_A) == 0x410D_54AB
    ensures Sum(Seeded(4), KEY_A) == 0x7610_E800
    ensures Sum(Seeded(5), KEY_A) == 0x0CAA_F331
    ensures Sum(Seeded(6), KEY_A) == 0x1261_266E
  {
    BlendedA();
    SumThree(Seeded(0), 0, 42, 83);
    SumThree(Seeded(1), 0, 42, 83);
    SumThree(Seeded(2), 0, 42, 83);
    SumThree(Seeded(3), 0, 42, 83);
    SumThree(Seeded(4), 0, 42, 83);
    SumThree(Seeded(5), 0, 42, 83);
    SumThree(Seeded(6), 0, 42, 83);
  }

  lemma FnvA(hash: Hash)
    requires IsFnv(hash)
    ensures HashedA(hash)
  {
    SeededIs();
    HashesA();
    FnvFrom(hash, KEY_A, 0, Seeded(0), 0xB761_4804);
    FnvFrom(hash, KEY_A, 1, Seeded(1), 0xECBD_8795);
    FnvFrom(hash, KEY_A, 2, Seeded(2), 0x3274_1F92);
    FnvFrom(hash, KEY_A, 3, Seeded(3), 0x410D_54AB);
    FnvFrom(hash, KEY_A, 4, Seeded(4), 0x7610_E800);
    FnvFrom(hash, KEY_A, 5, Seeded(5), 0x0CAA_F331);
    FnvFrom(hash, KEY_A, 6, Seeded(6), 0x1261_266E);
  }

  lemma BlendedB()
    ensures Blend(Blend(Blend(Blend(Seeded(0), 0), 45), 66), 46) == 0x919A_8806
    ensures Blend(Blend(Blend(Blend(Seeded(1), 0), 45), 66), 46) == 0x5C4B_65C5
    ensures Blend(Blend(Blend(Blend(Seeded(2), 0), 45), 66), 46) == 0xAEA8_BD88
    ensures Blend(Blend(Blend(Blend(Seeded(3), 0), 45), 66), 46) == 0xEC9F_B90F
    ensures Blend(Blend(Blend(Blend(Seeded(4), 0), 45), 66), 46) == 0xCC86_565A
    ensures Blend(Blend(Blend(Blend(Seeded(5), 0), 45), 66), 46) == 0xEA90_A739
    ensures Blend(Blend(Blend(Blend(Seeded(6), 0), 45), 66), 46) == 0x3BB0_CA7C
  {
  }

  lemma HashesB()
    ensures Sum(Seeded(0), KEY_B) == 0x919A_8806
    ensures Sum(Seeded(1), KEY_B) == 0x5C4B_65C5
    ensures Sum(Seeded(2), KEY_B) == 0xAEA8_BD88
    ensures Sum(Seeded(3), KEY_B) == 0xEC9F_B90F
    ensures Sum(Seeded(4), KEY_B) == 0xCC86_565A
    ensures Sum(Seeded(5), KEY_B) == 0xEA90_A739
    ensures Sum(Seeded(6), KEY_B) == 0x3BB0_CA7C
  {
    BlendedB();
    SumFour(Seeded(0), 0, 45, 66, 46);
    SumFour(Seeded(1), 0, 45, 66, 46);
    SumFour(Seeded(2), 0, 45, 66, 46);
    SumFour(Seeded(3), 0, 45, 66, 46);
    SumFour(Seeded(4), 0, 45, 66, 46);
    SumFour(Seeded(5), 0, 45, 66, 46);
    SumFour(Seeded(6), 0, 45, 66, 46);
  }

  lemma FnvB(hash: Hash)
    requires IsFnv(hash)
    ensures HashedB(hash)
  {
    SeededIs();
    HashesB();
    FnvFrom(hash, KEY_B, 0, Seeded(0), 0x919A_8806);
    FnvFrom(hash, KEY_B, 1, Seeded(1), 0x5C4B_65C5);
    FnvFrom(hash, KEY_B, 2, Seeded(2), 0xAEA8_BD88);
    FnvFrom(hash, KEY_B, 3, Seeded(3), 0xEC9F_B90F);
    FnvFrom(hash, KEY_B, 4, Seeded(4), 0xCC86_565A);
    FnvFrom(hash, KEY_B, 5, Seeded(5), 0xEA90_A739);
    FnvFrom(hash, KEY_B, 6, Seeded(6), 0x3BB0_CA7C);
  }

  lemma BlendedC()
    ensures Blend(Blend(Blend(Blend(Blend(Seeded(0), 0), 47), 96), 108), 112) == 0xFE5E_CA9C
    ensures Blend(Blend(Blend(Blend(Blend(Seeded(1), 0), 47), 96), 108), 112) == 0x8D6E_5995
    ensures Blend(Blend(Blend(Blend(Blend(Seeded(2), 0), 47), 96), 108), 112) == 0xB500_80AE
    ensures Blend(Blend(Blend(Blend(Blend(Seeded(3), 0), 47), 96), 108), 112) == 0x1F46_5A67
    ensures Blend(Blend(Blend(Blend(Blend(Seeded(4), 0), 47), 96), 108), 112) == 0x204B_2CD8
    ensures Blend(Blend(Blend(Blend(Blend(Seeded(5), 0), 47), 96), 108), 112) == 0xDEC6_F951
    ensures Blend(Blend(Blend(Blend(Blend(Seeded(6), 0), 47), 96), 108), 112) == 0xB223_2DAA
  {
  }

  lemma HashesC()
    ensures Sum(Seeded(0), KEY_C) == 0xFE5E_CA9C
    ensures Sum(Seeded(1), KEY_C) == 0x8D6E_5995
    ensures Sum(Seeded(2), KEY_C) == 0xB500_80AE
    ensures Sum(Seeded(3), KEY_C) == 0x1F46_5A67
    ensures Sum(Seeded(4), KEY_C) == 0x204B_2CD8
    ensures Sum(Seeded(5), KEY_C) == 0xDEC6_F951
    ensures Sum(Seeded(6), KEY_C) == 0xB223_2DAA
  {
    BlendedC();
    SumFive(Seeded(0), 0, 47, 96, 108, 112);
    SumFive(Seeded(1), 0, 47, 96, 108, 112);
    SumFive(Seeded(2), 0, 47, 96, 108, 112);
    SumFive(Seeded(3), 0, 47, 96, 108, 112);
    SumFive(Seeded(4), 0, 47, 96, 108, 112);
    SumFive(Seeded(5), 0, 47, 96, 108, 112);
    SumFive(Seeded(6), 0, 47, 96, 108, 112);
  }

  lemma FnvC(hash: Hash)
    requires IsFnv(hash)
    ensures HashedC(hash)
  {
    SeededIs();
    HashesC();
    FnvFrom(hash, KEY_C, 0, Seeded(0), 0xFE5E_CA9C);
    FnvFrom(hash, KEY_C, 1, Seeded(1), 0x8D6E_5995);
    FnvFrom(hash, KEY_C, 2, Seeded(2), 0xB500_80AE);
    FnvFrom(hash, KEY_C, 3, Seeded(3), 0x1F46_5A67);
    FnvFrom(hash, KEY_C, 4, Seeded(4), 0x204B_2CD8);
    FnvFrom(hash, KEY_C, 5, Seeded(5), 0xDEC6_F951);
    FnvFrom(hash, KEY_C, 6, Seeded(6), 0xB223_2DAA);
  }

  lemma BlendedPhantom()
    ensures Blend(Seeded(0), 1) == 0x1110_CE7C
    ensures Blend(Seeded(1), 1) == 0xED0E_5739
    ensures Blend(Seeded(2), 1) == 0xC50B_D9AA
    ensures Blend(Seeded(3), 1) == 0xA109_6267
    ensures Blend(Seeded(4), 1) == 0x7906_E4D8
    ensures Blend(Seeded(5), 1) == 0x5504_6D95
    ensures Blend(Seeded(6), 1) == 0x2D01_F006
  {
  }

  lemma HashesPhantom()
    ensures Sum(Seeded(0), PHANTOM) == 0x1110_CE7C
    ensures Sum(Seeded(1), PHANTOM) == 0xED0E_5739
    ensures Sum(Seeded(2), PHANTOM) == 0xC50B_D9AA
    ensures Sum(Seeded(3), PHANTOM) == 0xA109_6267
    ensures Sum(Seeded(4), PHANTOM) == 0x7906_E4D8
    ensures Sum(Seeded(5), PHANTOM) == 0x5504_6D95
    ensures Sum(Seeded(6), PHANTOM) == 0x2D01_F006
  {
    BlendedPhantom();
    SumOne(Seeded(0), 1);
    SumOne(Seeded(1), 1);
    SumOne(Seeded(2), 1);
    SumOne(Seeded(3), 1);
    SumOne(Seeded(4), 1);
    SumOne(Seeded(5), 1);
    SumOne(Seeded(6), 1);
  }

  lemma FnvPhantom(hash: Hash)
    requires IsFnv(hash)
    ensures HashedPhantom(hash)
  {
    SeededIs();
    HashesPhantom();
    FnvFrom(hash, PHANTOM, 0, Seeded(0), 0x1110_CE7C);
    FnvFrom(hash, PHANTOM, 1, Seeded(1), 0xED0E_5739);
    FnvFrom(hash, PHANTOM, 2, Seeded(2), 0xC50B_D9AA);
    FnvFrom(hash, PHANTOM, 3, Seeded(3), 0xA109_6267);
    FnvFrom(hash, PHANTOM, 4, Seeded(4), 0x7906_E4D8);
    FnvFrom(hash, PHANTOM, 5, Seeded(5), 0x5504_6D95);
    FnvFrom(hash, PHANTOM, 6, Seeded(6), 0x2D01_F006);
  }

  // ---------------------------------------------------------------- a key that was never written

  const SLOTS_A: seq<nat> := [4, 917, 914, 171, 0, 817, 622]
  const SLOTS_B: seq<nat> := [6, 453, 392, 271, 602, 825, 636]
  const SLOTS_C: seq<nat> := [668, 405, 174, 615, 216, 337, 426]
  const SLOTS_PHANTOM: seq<nat> := [636, 825, 426, 615, 216, 405, 6]

  ghost predicate SlotsAre(hash: Hash, key: Key, slots: seq<nat>) {
    && |slots| == BLOOM_HASHES
    && Slot(hash, key, 0) == slots[0] && Slot(hash, key, 1) == slots[1] && Slot(hash, key, 2) == slots[2]
    && Slot(hash, key, 3) == slots[3] && Slot(hash, key, 4) == slots[4] && Slot(hash, key, 5) == slots[5]
    && Slot(hash, key, 6) == slots[6]
  }

  lemma SlotAt(hash: Hash, key: Key, slots: seq<nat>, i: nat)
    requires SlotsAre(hash, key, slots) && i < BLOOM_HASHES
    ensures Slot(hash, key, i) == slots[i]
  {
  }

  ghost predicate SlotsAsFnv(hash: Hash) {
    && SlotsAre(hash, KEY_A, SLOTS_A) && SlotsAre(hash, KEY_B, SLOTS_B) && SlotsAre(hash, KEY_C, SLOTS_C)
    && SlotsAre(hash, PHANTOM, SLOTS_PHANTOM)
  }

  lemma FnvSlots(hash: Hash)
    requires HashedA(hash) && HashedB(hash) && HashedC(hash) && HashedPhantom(hash)
    ensures SlotsAsFnv(hash)
  {
  }

  const TRIO: seq<MemEntry> :=
    [MemEntry(KEY_A, [], KIND_PUT, 1), MemEntry(KEY_B, [], KIND_PUT, 2), MemEntry(KEY_C, [], KIND_PUT, 3)]

  lemma HitsIff(hash: Hash, key: Key, slots: seq<nat>, p: nat)
    requires SlotsAre(hash, key, slots)
    ensures Hits(hash, key, BLOOM_HASHES, p) <==> p in slots
  {
    if p in slots {
      var i :| 0 <= i < |slots| && slots[i] == p;
      SlotAt(hash, key, slots, i);
    }
    if Hits(hash, key, BLOOM_HASHES, p) {
      var i: nat :| i < BLOOM_HASHES && Slot(hash, key, i) == p;
      SlotAt(hash, key, slots, i);
    }
  }

  const TRIO_SLOTS: set<nat> :=
    {4, 917, 914, 171, 0, 817, 622, 6, 453, 392, 271,
     602, 825, 636, 668, 405, 174, 615, 216, 337, 426}

  lemma TrioBit(hash: Hash, p: nat)
    requires SlotsAsFnv(hash) && p < BLOOM_SIZE
    ensures Filter(hash, TRIO)[p] == if p in TRIO_SLOTS then 1 else 0
  {
    FilterBit(hash, TRIO, p);
    HitsIff(hash, KEY_A, SLOTS_A, p);
    HitsIff(hash, KEY_B, SLOTS_B, p);
    HitsIff(hash, KEY_C, SLOTS_C, p);
    assert TRIO[0].key == KEY_A && TRIO[1].key == KEY_B && TRIO[2].key == KEY_C;
  }

  lemma TrioLooksLikePut(hash: Hash)
    requires SlotsAsFnv(hash)
    ensures LooksLikePut(Filter(hash, TRIO))
  {
    TrioBit(hash, 0);
    TrioBit(hash, 1);
    TrioBit(hash, 2);
    TrioBit(hash, 3);
    TrioBit(hash, 4);
    TrioBit(hash, 5);
    TrioBit(hash, 6);
    TrioBit(hash, 7);
    TrioBit(hash, 8);
    TrioBit(hash, 265);
  }

  lemma TrioPasses(hash: Hash)
    requires SlotsAsFnv(hash)
    ensures AllSet(hash, Filter(hash, TRIO), PHANTOM, BLOOM_HASHES)
  {
    forall i: nat | i < BLOOM_HASHES ensures Filter(hash, TRIO)[Slot(hash, PHANTOM, i)] != 0 {
      SlotAt(hash, PHANTOM, SLOTS_PHANTOM, i);
      TrioBit(hash, Slot(hash, PHANTOM, i));
    }
  }

  lemma TrioInOrder()
    ensures Writable(TRIO) && Splits(TRIO, PHANTOM, |TRIO|)
  {
    PowerFour();
  }

  lemma PhantomFor(hash: Hash)
    requires HashedA(hash) && HashedB(hash) && HashedC(hash) && HashedPhantom(hash)
    ensures var found := Lookup(hash, Filter(hash, TRIO), TableFile(hash, TRIO), PHANTOM);
            found.Some? && found.value.key == PHANTOM && found.value.kind == KIND_PUT && |found.value.value| == 256
  {
    FnvSlots(hash);
    TrioInOrder();
    TrioLooksLikePut(hash);
    TrioPasses(hash);
    PhantomFound(hash, TRIO);
  }

  /** A table of three keys in which a fourth is found: its record is read out of the filter. */
  lemma PhantomKey(hash: Hash)
    requires IsFnv(hash)
    ensures var found := Lookup(hash, Filter(hash, TRIO), TableFile(hash, TRIO), PHANTOM);
            found.Some? && found.value.key == PHANTOM && found.value.kind == KIND_PUT && |found.value.value| == 256
  {
    FnvA(hash);
    FnvB(hash);
    FnvC(hash);
    FnvPhantom(hash);
    PhantomFor(hash);
  }
}
