/** The Bloom filter over an array of 64-bit words. */
module Bloom {

  predicate BitOf(w: bv64, a: bv7)
    requires a < 64
  {
    w & (1 << a) != 0
  }

  function WithBit(w: bv64, a: bv7): bv64
    requires a < 64
  {
    w | (1 << a)
  }

  lemma SetOneBit(w: bv64, a: bv7, b: bv7)
    requires a < 64 && b < 64
    ensures BitOf(WithBit(w, b), a) == (a == b || BitOf(w, a))
  {
    OneBit(w, a, b);
  }

  lemma OneBit(w: bv64, a: bv7, b: bv7)
    requires a < 64 && b < 64
    ensures ((w | (1 << b)) & (1 << a) != 0) == (a == b || w & (1 << a) != 0)
  {
  }

  /** A shift amount. */
  function Amount(i: nat): (a: bv7)
    requires i < 64
    ensures a < 64
  {
    i as bv7
  }

  lemma AmountsDiffer(i: nat, j: nat)
    requires i < 64 && j < 64 && i != j
    ensures Amount(i) != Amount(j)
  {
    hide Amount;
    AmountIs(i);
    AmountIs(j);
  }

  lemma AmountIs(i: nat)
    requires i < 64
    ensures Amount(i) as int == i
  {
  }

  class BitArray {
    const data: array<bv64>

    constructor (data: array<bv64>)
      ensures this.data == data
    {
      this.data := data;
    }

    function GetBitSize(): nat {
      data.Length * 64
    }

    predicate Get(index: nat)
      requires index < GetBitSize()
      reads data
    {
      BitOf(data[index / 64], Amount(index % 64))
    }

    /** The indices of the set bits. */
    ghost function Bits(): set<nat>
      reads data
    {
      set k: nat | k < GetBitSize() && Get(k)
    }

    /** Set a bit; true if that changed it. */
    method Set(index: nat) returns (changed: bool)
      requires index < GetBitSize()
      modifies data
      ensures Bits() == old(Bits()) + {index} && changed == (index !in old(Bits()))
    {
      hide BitOf, WithBit, Amount;
      if !Get(index) {
        ghost var before := data[..];
        data[index / 64] := WithBit(data[index / 64], Amount(index % 64));
        changed := true;
        forall k: nat | k < GetBitSize() ensures Get(k) == (k == index || BitOf(before[k / 64], Amount(k % 64))) {
          SetOneBit(before[index / 64], Amount(k % 64), Amount(index % 64));
          if k % 64 != index % 64 {
            AmountsDiffer(k % 64, index % 64);
          }
        }
      } else {
        changed := false;
      }
    }
  }

  /** A 32-bit word, as a signed number. */
  function Wrap32(x: int): int {
    var m := x % 0x1_0000_0000;
    if m >= 0x8000_0000 then m - 0x1_0000_0000 else m
  }

  /** The i-th probe: the combined hash, all bits flipped if it is negative, modulo the number of bits. */
  function Probe(h1: int, h2: int, i: nat, bitSize: nat): (p: nat)
    requires 0 < bitSize
    ensures p < bitSize
  {
    var combinedHash := Wrap32(h1 + Wrap32(i * h2));
    (if combinedHash < 0 then -combinedHash - 1 else combinedHash) % bitSize
  }

  class BloomFilter {
    const numHashFunctions: nat
    const bits: BitArray
    /** The hash of an item under a seed. */
    const hash: (int, int) -> int

    constructor (numHashFunctions: nat, bits: BitArray, hash: (int, int) -> int)
      ensures this.numHashFunctions == numHashFunctions && this.bits == bits && this.hash == hash
    {
      this.numHashFunctions, this.bits, this.hash := numHashFunctions, bits, hash;
    }

    predicate Valid() {
      0 < bits.GetBitSize()
    }

    /** Where an item's bits are: they do not depend on what is in the filter. */
    ghost function Probes(item: int): set<nat>
      requires Valid()
    {
      set i: nat | 1 <= i <= numHashFunctions :: ProbeAt(item, i)
    }

    function ProbeAt(item: int, i: nat): nat
      requires Valid()
    {
      var h1 := hash(item, 0);
      Probe(h1, hash(item, h1), i, bits.GetBitSize())
    }

    ghost predicate Contains(item: int)
      requires Valid()
      reads bits.data
    {
      Probes(item) <= bits.Bits()
    }

    /** Insert; true exactly when the filter did not contain the item. */
    method PutLong(item: int) returns (bitsChanged: bool)
      requires Valid()
      modifies bits.data
      ensures bits.Bits() == old(bits.Bits()) + Probes(item) && bitsChanged == !old(Contains(item))
    {
      bitsChanged := false;
      for i := 1 to numHashFunctions + 1
        invariant bits.Bits() == old(bits.Bits()) + set k: nat | 1 <= k < i :: ProbeAt(item, k)
        invariant bitsChanged == exists k: nat :: 1 <= k < i && ProbeAt(item, k) !in old(bits.Bits())
      {
        var changed := bits.Set(ProbeAt(item, i));
        bitsChanged := bitsChanged || changed;
      }
    }

    /** Insert several: all of them are contained from then on, and nothing that was contained is forgotten. */
    method PutAll(items: seq<int>)
      requires Valid()
      modifies bits.data
      ensures forall k | 0 <= k < |items| :: Contains(items[k])
      ensures forall item: int :: old(Contains(item)) ==> Contains(item)
    {
      for i := 0 to |items|
        invariant old(bits.Bits()) <= bits.Bits()
        invariant forall k | 0 <= k < i :: Contains(items[k])
      {
        var changed := PutLong(items[i]);
      }
    }

    method MightContainLong(item: int) returns (found: bool)
      requires Valid()
      ensures found == Contains(item)
    {
      for i := 1 to numHashFunctions + 1
        invariant forall k: nat | 1 <= k < i :: ProbeAt(item, k) in bits.Bits()
      {
        if !bits.Get(ProbeAt(item, i)) {
          assert ProbeAt(item, i) in Probes(item);
          return false;
        }
      }
      return true;
    }
  }
}
