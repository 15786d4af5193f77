// The two padding formats of a packet payload. Both prefix the length as an
// unsigned 16-bit integer, and both strip with 16-bit arithmetic.
module Padding {
  import opened Bytes
  import opened Transport

  datatype PadRange = PadRange(min: int, max: int)

  // length prefix, data, random padding; the prefix is uint16(len(data))
  function Framed(data: bytes, pad: bytes): bytes {
    Be16(|data| % TWO_16) + data + pad
  }

  datatype Strip = Nil | Panic | Kept(data: bytes)

  // data[lo:hi] in Go
  function GoSlice(data: bytes, lo: int, hi: int): Strip {
    if 0 <= lo <= hi <= |data| then Kept(data[lo..hi]) else Panic
  }

  function RemovePadding(data: bytes): Strip {
    if |data| < 2 then Nil
    else
      var origLen := Unbe16(data[..2]);
      if origLen + 2 > |data| then Nil
      else GoSlice(data, 2, (2 + origLen) % TWO_16)
  }

  function RemoveStealthPadding(data: bytes): Strip {
    if |data| < 2 then Nil
    else
      var origLen := Unbe16(data[..2]);
      if origLen + 2 > |data| || origLen == 0 then Nil
      else GoSlice(data, 2, (2 + origLen) % TWO_16)
  }

  // Fills a fresh buffer: prefix, data, random bytes.
  method Fill(data: bytes, padLen: nat) returns (out: bytes)
    ensures |out| == 2 + |data| + padLen
    ensures out == Framed(data, out[2 + |data|..])
  {
    var buf := new byte[2 + |data| + padLen];
    var prefix := Be16(|data| % TWO_16);
    buf[0], buf[1] := prefix[0], prefix[1];
    forall i | 0 <= i < |data| {
      buf[2 + i] := data[i];
    }
    out := buf[..];
    assert out[..2] == prefix;
    assert out[2..2 + |data|] == data;
    assert out == out[..2] + out[2..2 + |data|] + out[2 + |data|..];
  }

  method AddPadding(data: bytes, obfs: PadRange) returns (out: bytes)
    requires obfs.min >= 0
    ensures obfs.min <= |out| - 2 - |data|
    ensures |out| - 2 - |data| == obfs.min || |out| - 2 - |data| < obfs.max
    ensures out == Framed(data, out[2 + |data|..])
  {
    var padLen := obfs.min;
    var diff := obfs.max - obfs.min;
    if diff > 0 {
      var r := SecureRandInt(diff);
      padLen := padLen + r;
    }
    out := Fill(data, padLen);
  }

  method AddStealthPadding(data: bytes, s: PadRange) returns (out: bytes)
    requires s.min >= 0
    ensures s.min <= |out| - 2 - |data|
    ensures |out| - 2 - |data| == s.min || |out| - 2 - |data| <= s.max
    ensures out == Framed(data, out[2 + |data|..])
  {
    var r := SecureRandInt(s.max - s.min + 1);
    out := Fill(data, s.min + r);
  }

  lemma FramedParts(data: bytes, pad: bytes)
    ensures |Framed(data, pad)| == 2 + |data| + |pad|
    ensures Unbe16(Framed(data, pad)[..2]) == |data| % TWO_16
    ensures forall k :: 0 <= k <= |data| ==> Framed(data, pad)[2..2 + k] == data[..k]
  {
    assert Framed(data, pad)[..2] == Be16(|data| % TWO_16);
  }

  // Obfuscation padding is undone exactly up to 65533 bytes. Beyond that the
  // result is a shortened payload, or a slice whose 16-bit upper bound wrapped.
  lemma ObfsStripExact(data: bytes, pad: bytes)
    ensures RemovePadding(Framed(data, pad)) == Kept(data) <==> |data| <= 65533
    ensures RemovePadding(Framed(data, pad)) == Panic <==> |data| % TWO_16 >= 65534
  {
    FramedParts(data, pad);
    var k := |data| % TWO_16;
    assert Framed(data, pad)[2..2 + k] == data[..k];
    if |data| < TWO_16 {
      assert data[..k] == data;
    }
  }

  lemma StealthStripExact(data: bytes, pad: bytes)
    ensures RemoveStealthPadding(Framed(data, pad)) == Kept(data) <==> 1 <= |data| <= 65533
    ensures RemoveStealthPadding(Framed(data, pad)) == Nil <==> |data| % TWO_16 == 0
    ensures RemoveStealthPadding(Framed(data, pad)) == Panic <==> |data| % TWO_16 >= 65534
  {
    FramedParts(data, pad);
    var k := |data| % TWO_16;
    assert Framed(data, pad)[2..2 + k] == data[..k];
    if |data| < TWO_16 {
      assert data[..k] == data;
    }
  }

  // Payloads of at most four bytes travel unpadded; this is when they look padded.
  predicate LooksPadded(data: bytes) {
    3 <= |data| <= 4 && 1 <= Unbe16(data[..2]) <= |data| - 2
  }

  lemma ShortStripExact(data: bytes)
    requires |data| <= 4
    ensures RemoveStealthPadding(data) == Nil <==> !LooksPadded(data)
    ensures LooksPadded(data) ==>
      RemoveStealthPadding(data).Kept? && |RemoveStealthPadding(data).data| < |data|
  {
    if |data| == 2 && Unbe16(data[..2]) + 2 <= |data| {
      assert Unbe16(data[..2]) == 0;
    }
  }
}
