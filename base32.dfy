/** The unpadded base-32 encoding of section 6 of RFC 4648, as Go's
    `base32.StdEncoding.WithPadding(base32.NoPadding)` produces it: the input
    bits, most significant first, are cut into 5-bit groups (the last one
    filled up with zero bits) and each group becomes one letter of the
    alphabet "A".."Z" "2".."7". The decoder is the inverse used to state the
    round trip. */
module Base32 {
  import opened Base

  function Pow2(k: nat): (r: nat)
    ensures r >= 1
  {
    if k == 0 then 1 else 2 * Pow2(k - 1)
  }

  /** The `k` low bits of `n`, most significant first. */
  function Bits(n: nat, k: nat): (r: seq<bool>)
    ensures |r| == k
  {
    if k == 0 then [] else Bits(n / 2, k - 1) + [n % 2 == 1]
  }

  /** The number a bit string spells, most significant bit first. */
  function Value(bits: seq<bool>): (n: nat)
    ensures n < Pow2(|bits|)
  {
    if bits == [] then 0
    else 2 * Value(bits[..|bits| - 1]) + (if bits[|bits| - 1] then 1 else 0)
  }

  lemma {:induction false} ValueOfBits(n: nat, k: nat)
    requires n < Pow2(k)
    ensures Value(Bits(n, k)) == n
  {
    if k > 0 {
      ValueOfBits(n / 2, k - 1);
      var b := Bits(n / 2, k - 1) + [n % 2 == 1];
      assert b[..|b| - 1] == Bits(n / 2, k - 1);
    }
  }

  lemma {:induction false} BitsOfValue(bits: seq<bool>)
    ensures Bits(Value(bits), |bits|) == bits
  {
    if bits != [] {
      var k := |bits|;
      var init := bits[..k - 1];
      BitsOfValue(init);
      var n := Value(bits);
      assert n / 2 == Value(init);
      assert (n % 2 == 1) == bits[k - 1];
      assert bits == init + [bits[k - 1]];
    }
  }

  /** One letter of the alphabet "ABCDEFGHIJKLMNOPQRSTUVWXYZ234567". */
  function Symbol(v: nat): (c: char)
    requires v < 32
    ensures IsSymbol(c)
  {
    if v < 26 then ('A' as int + v) as char else ('2' as int + v - 26) as char
  }

  predicate IsSymbol(c: char) {
    'A' <= c <= 'Z' || '2' <= c <= '7'
  }

  /** The group value a letter stands for. */
  function SymbolValue(c: char): (v: nat)
    requires IsSymbol(c)
    ensures v < 32 && Symbol(v) == c
  {
    if 'A' <= c <= 'Z' then c as int - 'A' as int else c as int - '2' as int + 26
  }

  lemma SymbolValueOfSymbol(v: nat)
    requires v < 32
    ensures SymbolValue(Symbol(v)) == v
  {
  }

  function BytesToBits(bs: seq<byte>): (r: seq<bool>)
    ensures |r| == 8 * |bs|
  {
    if bs == [] then [] else Bits(bs[0], 8) + BytesToBits(bs[1..])
  }

  function BitsToBytes(bits: seq<bool>): (bs: seq<byte>)
    requires |bits| % 8 == 0
    ensures |bs| == |bits| / 8
  {
    if bits == [] then []
    else
      assert Pow2(8) == 256;
      [Value(bits[..8]) as byte] + BitsToBytes(bits[8..])
  }

  lemma {:induction false} BitsToBytesToBits(bs: seq<byte>)
    ensures BitsToBytes(BytesToBits(bs)) == bs
  {
    if bs != [] {
      var bits := BytesToBits(bs);
      assert Pow2(8) == 256;
      assert bits[..8] == Bits(bs[0], 8);
      assert bits[8..] == BytesToBits(bs[1..]);
      ValueOfBits(bs[0], 8);
      BitsToBytesToBits(bs[1..]);
    }
  }

  /** `bits` followed by as many zero bits as make its length a multiple of 5. */
  function PadToGroup(bits: seq<bool>): (r: seq<bool>)
    ensures |r| % 5 == 0 && |bits| <= |r| < |bits| + 5
    ensures r[..|bits|] == bits
  {
    bits + seq((5 - |bits| % 5) % 5, _ => false)
  }

  /** Each 5-bit group as a letter. */
  function GroupsToSymbols(bits: seq<bool>): (s: string)
    requires |bits| % 5 == 0
    ensures |s| == |bits| / 5
    ensures forall i :: 0 <= i < |s| ==> IsSymbol(s[i])
  {
    if bits == [] then []
    else
      assert Pow2(5) == 32;
      [Symbol(Value(bits[..5]))] + GroupsToSymbols(bits[5..])
  }

  /** Each letter as its 5-bit group. */
  function SymbolsToGroups(s: string): (bits: seq<bool>)
    requires forall i :: 0 <= i < |s| ==> IsSymbol(s[i])
    ensures |bits| == 5 * |s|
  {
    if s == [] then [] else Bits(SymbolValue(s[0]), 5) + SymbolsToGroups(s[1..])
  }

  lemma {:induction false} SymbolsOfGroups(bits: seq<bool>)
    requires |bits| % 5 == 0
    ensures SymbolsToGroups(GroupsToSymbols(bits)) == bits
  {
    if bits != [] {
      var s := GroupsToSymbols(bits);
      assert Pow2(5) == 32;
      var v := Value(bits[..5]);
      assert s[0] == Symbol(v);
      assert s[1..] == GroupsToSymbols(bits[5..]);
      SymbolValueOfSymbol(v);
      BitsOfValue(bits[..5]);
      SymbolsOfGroups(bits[5..]);
      assert bits == bits[..5] + bits[5..];
    }
  }

  /** The unpadded encoding of `bs`. */
  function Encode(bs: seq<byte>): (s: string)
    ensures |s| == (8 * |bs| + 4) / 5
    ensures forall i :: 0 <= i < |s| ==> IsSymbol(s[i])
  {
    GroupsToSymbols(PadToGroup(BytesToBits(bs)))
  }

  /** Inverse of `Encode`: `None` for a letter outside the alphabet; the
      trailing fill bits (fewer than 8) are dropped. */
  function Decode(s: string): (r: Option<seq<byte>>)
    ensures r.Some? ==> |r.value| == 5 * |s| / 8
  {
    if forall i :: 0 <= i < |s| ==> IsSymbol(s[i]) then
      var bits := SymbolsToGroups(s);
      Some(BitsToBytes(bits[..8 * (|bits| / 8)]))
    else
      None
  }

  /** Decoding an encoding gives back the bytes. */
  lemma {:induction false} DecodeEncode(bs: seq<byte>)
    ensures Decode(Encode(bs)) == Some(bs)
  {
    var bits := BytesToBits(bs);
    var padded := PadToGroup(bits);
    SymbolsOfGroups(padded);
    assert |padded| / 8 == |bs|;
    assert padded[..8 * |bs|] == bits;
    BitsToBytesToBits(bs);
  }

  /** A token plaintext: 16 random bytes encode to 26 letters of the alphabet. */
  lemma TokenShape(block: RandomBlock)
    ensures |Encode(block)| == 26
    ensures forall i :: 0 <= i < 26 ==> IsSymbol(Encode(block)[i])
  {
  }

  /** A group with value `v` in front of further groups becomes `v`'s letter
      in front of their letters. */
  lemma GroupsToSymbolsCons(v: nat, rest: seq<bool>)
    requires v < 32 && |rest| % 5 == 0
    ensures GroupsToSymbols(Bits(v, 5) + rest) == [Symbol(v)] + GroupsToSymbols(rest)
  {
    var bits := Bits(v, 5) + rest;
    assert bits[..5] == Bits(v, 5) && bits[5..] == rest;
    assert Pow2(5) == 32;
    ValueOfBits(v, 5);
  }

  /** The test vector "f" of section 10 of RFC 4648, which fixes the bit
      order: a byte is read most significant bit first, and the first group
      becomes the first letter, so 0x66 encodes as "MY". */
  lemma EncodeVectorF()
    ensures Encode([102]) == "MY"
  {
    var bs: seq<byte> := [102];
    var bits := Bits(102, 8);
    assert bits == [false, true, true, false, false, true, true, false];
    assert bs[1..] == [];
    assert BytesToBits(bs) == bits;
    var padded := bits + seq(2, _ => false);
    assert PadToGroup(bits) == padded;
    assert Bits(12, 5) == [false, true, true, false, false];
    assert Bits(24, 5) == [true, true, false, false, false];
    assert padded == Bits(12, 5) + (Bits(24, 5) + []);
    GroupsToSymbolsCons(24, []);
    GroupsToSymbolsCons(12, Bits(24, 5) + []);
    assert Symbol(12) == 'M' && Symbol(24) == 'Y';
    assert Encode(bs) == GroupsToSymbols(padded);
  }

  /** Different blocks never give the same plaintext. */
  lemma EncodeInjective(a: seq<byte>, b: seq<byte>)
    requires Encode(a) == Encode(b)
    ensures a == b
  {
    DecodeEncode(a);
    DecodeEncode(b);
  }
}
