/** Booleans packed into bytes, most significant bit first (`store/util.go`, `dev/demo/static/index.js`). */
module Bits {

  /** The mask `1 << (7 - y)`. */
  function Mask(y: nat): bv8
    requires y < 8
  {
    match y
    case 0 => 0x80 case 1 => 0x40 case 2 => 0x20 case 3 => 0x10
    case 4 => 0x08 case 5 => 0x04 case 6 => 0x02 case 7 => 0x01
  }

  predicate Bit(b: bv8, y: nat)
    requires y < 8
  {
    b & Mask(y) != 0
  }

  lemma MaskIsShift(y: nat)
    requires y < 8
    ensures Mask(y) == (1 as bv8) << (7 - y)
  {
    match y case 0 => case 1 => case 2 => case 3 => case 4 => case 5 => case 6 => case 7 =>
  }

  lemma SettingABit(b: bv8, y: nat, z: nat)
    requires y < 8 && z < 8
    ensures Bit(b | Mask(y), z) == (Bit(b, z) || y == z)
  {
    assert Mask(y) & Mask(z) == if y == z then Mask(y) else 0;
    assert (b | Mask(y)) & Mask(z) == (b & Mask(z)) | (Mask(y) & Mask(z));
    assert Mask(y) != 0;
  }

  lemma EqualBits(a: bv8, b: bv8)
    requires forall y :: 0 <= y < 8 ==> Bit(a, y) == Bit(b, y)
    ensures a == b
  {
    assert Bit(a, 0) == Bit(b, 0) && Bit(a, 1) == Bit(b, 1) && Bit(a, 2) == Bit(b, 2) && Bit(a, 3) == Bit(b, 3);
    assert Bit(a, 4) == Bit(b, 4) && Bit(a, 5) == Bit(b, 5) && Bit(a, 6) == Bit(b, 6) && Bit(a, 7) == Bit(b, 7);
  }

  /** `bytes` holds `bools` from the highest bit down, and zero bits after them. */
  ghost predicate Packs(bytes: seq<bv8>, bools: seq<bool>)
  {
    && |bytes| == (|bools| + 7) / 8
    && forall x, y :: 0 <= x < |bytes| && 0 <= y < 8 ==>
         Bit(bytes[x], y) == (8 * x + y < |bools| && bools[8 * x + y])
  }

  lemma PackingIsUnique(a: seq<bv8>, b: seq<bv8>, bools: seq<bool>)
    requires Packs(a, bools) && Packs(b, bools)
    ensures a == b
  {
    forall x | 0 <= x < |a| ensures a[x] == b[x] {
      EqualBits(a[x], b[x]);
    }
  }

  method BoolSliceToBytes(slice: seq<bool>) returns (byteSlice: array<bv8>)
    ensures fresh(byteSlice) && Packs(byteSlice[..], slice)
  {
    var numBytes := |slice| / 8;
    if |slice| % 8 > 0 {
      numBytes := numBytes + 1;
    }
    byteSlice := new bv8[numBytes](_ => 0);
    for i := 0 to |slice|
      invariant forall x, y :: 0 <= x < numBytes && 0 <= y < 8 ==>
                  Bit(byteSlice[x], y) == (8 * x + y < i && slice[8 * x + y])
    {
      var x, y := i / 8, i % 8;
      if slice[i] {
        ghost var b := byteSlice[x];
        MaskIsShift(y);
        byteSlice[x] := byteSlice[x] | (1 << (7 - y));
        forall z | 0 <= z < 8 ensures Bit(byteSlice[x], z) == (Bit(b, z) || y == z) {
          SettingABit(b, y, z);
        }
      }
    }
  }

  /** The bits of `bytes` as booleans, highest first. */
  function Unpack(bytes: seq<bv8>): seq<bool>
  {
    seq(8 * |bytes|, i requires 0 <= i < 8 * |bytes| => Bit(bytes[i / 8], i % 8))
  }

  lemma UnpackAt(bytes: seq<bv8>, i: nat, j: nat)
    requires i < |bytes| && j < 8
    ensures 8 * i + j < |Unpack(bytes)| && Unpack(bytes)[8 * i + j] == Bit(bytes[i], j)
  {
    assert (8 * i + j) / 8 == i && (8 * i + j) % 8 == j;
  }

  method ByteArrayToBoolArray(byteArray: seq<bv8>) returns (boolArray: array<bool>)
    ensures fresh(boolArray) && boolArray[..] == Unpack(byteArray)
  {
    var numBytes := |byteArray|;
    boolArray := new bool[numBytes * 8];
    for i := 0 to numBytes
      invariant forall k :: 0 <= k < 8 * i ==> boolArray[k] == Unpack(byteArray)[k]
    {
      var b := byteArray[i];
      for j := 0 to 8
        invariant forall k :: 0 <= k < 8 * i + j ==> boolArray[k] == Unpack(byteArray)[k]
      {
        var value := false;
        MaskIsShift(j);
        if b & (1 << (7 - j)) != 0 {
          value := true;
        }
        boolArray[i * 8 + j] := value;
        UnpackAt(byteArray, i, j);
      }
    }
  }

  /** Unpacking, cut to the declared length, undoes packing. The bits cut off are zero. */
  lemma UnpackUndoesPacking(bytes: seq<bv8>, bools: seq<bool>)
    requires Packs(bytes, bools)
    ensures |bools| <= |Unpack(bytes)| < |bools| + 8
    ensures Unpack(bytes)[..|bools|] == bools
    ensures forall i :: |bools| <= i < |Unpack(bytes)| ==> !Unpack(bytes)[i]
  {
    forall i | 0 <= i < |Unpack(bytes)|
      ensures Unpack(bytes)[i] == (i < |bools| && bools[i])
    {
      assert i == 8 * (i / 8) + i % 8;
      assert Bit(bytes[i / 8], i % 8) == (8 * (i / 8) + i % 8 < |bools| && bools[8 * (i / 8) + i % 8]);
    }
  }
}
