// The packet format: an optional padding layer, an optional AEAD layer, and a
// 32-bit length in front. Encoding takes its random choices as an argument.
module Packet {
  import opened Bytes
  import opened Framing
  import opened Padding

  const NONCE_SIZE: int := 12
  const TAG_SIZE: int := 16
  const MAX_PACKET: int := 0x100_0000

  // AES-GCM under one key, reduced to what NIST SP 800-38D promises of it
  // (sections 7.1 and 7.2): opening what was sealed, and the length of the tag.
  datatype Aead = Aead(seal: (bytes, bytes) -> bytes, open: (bytes, bytes) -> Option<bytes>) {
    ghost predicate Lawful() {
      forall nonce: bytes, m: bytes | |nonce| == NONCE_SIZE ::
        && |seal(nonce, m)| == |m| + TAG_SIZE
        && open(nonce, seal(nonce, m)) == Some(m)
    }
  }

  datatype ObfsConfig = ObfsConfig(enabled: bool, pad: PadRange)
  datatype StealthConfig = StealthConfig(randomPadding: bool, pad: PadRange, burstSplit: bool, maxBurst: int)

  // None stands for a nil pointer, or for an empty pre-shared key.
  datatype Mode = Mode(aead: Option<Aead>, obfs: Option<ObfsConfig>, stealth: Option<StealthConfig>) {
    predicate ObfsOn() {
      obfs.Some? && obfs.value.enabled
    }

    predicate StealthOn() {
      !ObfsOn() && stealth.Some? && stealth.value.randomPadding
    }

    predicate Pads(data: bytes) {
      ObfsOn() || (StealthOn() && |data| > 4)
    }

    ghost predicate Lawful() {
      aead.Some? ==> aead.value.Lawful()
    }
  }

  // The random choices behind one packet.
  datatype Choice = Choice(pad: bytes, nonce: bytes)

  predicate ValidChoice(ch: Choice) {
    |ch.nonce| == NONCE_SIZE
  }

  function Payload(m: Mode, data: bytes, pad: bytes): bytes {
    if m.Pads(data) then Framed(data, pad) else data
  }

  function Body(m: Mode, data: bytes, ch: Choice): bytes {
    if m.aead.Some?
    then ch.nonce + m.aead.value.seal(ch.nonce, Payload(m, data, ch.pad))
    else Payload(m, data, ch.pad)
  }

  // The prefix is uint32(pktLen), which truncates.
  function Encode(m: Mode, data: bytes, ch: Choice): bytes {
    Be32(|Body(m, data, ch)| % TWO_32) + Body(m, data, ch)
  }

  datatype Decoded = Plain(data: bytes) | Refused | Crashed

  function Unpad(m: Mode, plaintext: bytes): Decoded {
    if m.ObfsOn() then
      match RemovePadding(plaintext)
      case Nil => Refused
      case Panic => Crashed
      case Kept(d) => Plain(d)
    else if m.StealthOn() then
      match RemoveStealthPadding(plaintext)
      case Nil => Plain(plaintext)
      case Panic => Crashed
      case Kept(d) => Plain(d)
    else Plain(plaintext)
  }

  function DecodeBody(m: Mode, pkt: bytes): Decoded {
    if m.aead.None? then Unpad(m, pkt)
    else if |pkt| < NONCE_SIZE then Refused
    else
      match m.aead.value.open(pkt[..NONCE_SIZE], pkt[NONCE_SIZE..])
      case None => Refused
      case Some(plaintext) => Unpad(m, plaintext)
  }

  // One packet at the front of the wire.
  function NextPacket(m: Mode, wire: bytes): Next {
    if |wire| < 4 then Need
    else
      var n := Unbe32(wire[..4]);
      if n == 0 || n > MAX_PACKET then Bad
      else if |wire| < 4 + n then Need
      else
        AsNext(DecodeBody(m, wire[4..4 + n]), wire[4 + n..])
  }

  function AsNext(d: Decoded, rest: bytes): Next {
    match d
    case Plain(data) => Got(data, rest)
    case Refused => Bad
    case Crashed => Crash
  }

  // When stripping gives the data back, by what a caller knows before the call.
  predicate StripDomain(m: Mode, data: bytes) {
    if m.Pads(data) then |data| <= 65533
    else m.StealthOn() ==> !LooksPadded(data)
  }

  function BodyLength(m: Mode, data: bytes, padLen: nat): nat {
    (if m.Pads(data) then 2 + |data| + padLen else |data|)
    + (if m.aead.Some? then NONCE_SIZE + TAG_SIZE else 0)
  }

  predicate InDomain(m: Mode, data: bytes, padLen: nat) {
    StripDomain(m, data) && 1 <= BodyLength(m, data, padLen) <= MAX_PACKET
  }

  lemma BodyLengthExact(m: Mode, data: bytes, ch: Choice)
    requires m.Lawful() && ValidChoice(ch)
    ensures |Body(m, data, ch)| == BodyLength(m, data, |ch.pad|)
  {
  }

  lemma UnpadExact(m: Mode, data: bytes, pad: bytes)
    ensures Unpad(m, Payload(m, data, pad)) == Plain(data) <==> StripDomain(m, data)
  {
    ObfsStripExact(data, pad);
    StealthStripExact(data, pad);
    if |data| <= 4 {
      ShortStripExact(data);
    }
    assert |Framed(data, pad)| > |data|;
  }

  lemma BodyExact(m: Mode, data: bytes, ch: Choice)
    requires m.Lawful() && ValidChoice(ch)
    ensures DecodeBody(m, Body(m, data, ch)) == Plain(data) <==> StripDomain(m, data)
  {
    UnpadExact(m, data, ch.pad);
    if m.aead.Some? {
      var payload := Payload(m, data, ch.pad);
      var sealed := m.aead.value.seal(ch.nonce, payload);
      assert |sealed| == |payload| + TAG_SIZE;
      assert (ch.nonce + sealed)[..NONCE_SIZE] == ch.nonce;
      assert (ch.nonce + sealed)[NONCE_SIZE..] == sealed;
    }
  }

  // What the length prefix makes of a body and the bytes behind it.
  lemma NextOfBody(m: Mode, body: bytes, rest: bytes)
    ensures var next := NextPacket(m, Be32(|body| % TWO_32) + body + rest);
      if |body| >= TWO_32 then next.Got? ==> |next.rest| > |rest|
      else if 1 <= |body| <= MAX_PACKET then next == AsNext(DecodeBody(m, body), rest)
      else next == Bad
  {
    var wire, n := Be32(|body| % TWO_32) + body + rest, |body| % TWO_32;
    Be32RoundTrip(n);
    assert wire[..4] == Be32(n);
    if |body| < TWO_32 {
      assert wire[4..4 + n] == body && wire[4 + n..] == rest;
    }
  }

  // A packet is read back, leaving what follows untouched, exactly in its domain.
  lemma PacketExact(m: Mode, data: bytes, ch: Choice, rest: bytes)
    requires m.Lawful() && ValidChoice(ch)
    ensures NextPacket(m, Encode(m, data, ch) + rest) == Got(data, rest)
       <==> InDomain(m, data, |ch.pad|)
  {
    BodyLengthExact(m, data, ch);
    BodyExact(m, data, ch);
    NextOfBody(m, Body(m, data, ch), rest);
  }

  // The payload: two length bytes, the data and the pad, when the mode pads.
  lemma PayloadLayout(m: Mode, data: bytes, pad: bytes)
    ensures var padded := (m.obfs.Some? && m.obfs.value.enabled)
        || (m.stealth.Some? && m.stealth.value.randomPadding && |data| > 4);
      Payload(m, data, pad) == if padded then [|data| / 256 % 256, |data| % 256] + data + pad else data
  {
    var n := |data|;
    var q, r := n / 65536, n % 65536;
    assert n == 65536 * q + r;
    assert n / 256 == 256 * q + r / 256 && n % 256 == r % 256;
  }

  // What goes on the wire: the length, the nonce, the ciphertext.
  lemma PacketLayout(m: Mode, data: bytes, ch: Choice)
    requires m.Lawful() && ValidChoice(ch) && |Body(m, data, ch)| < TWO_32
    ensures var packet, payload := Encode(m, data, ch), Payload(m, data, ch.pad);
      && packet[..4] == Be32(|packet| - 4)
      && (m.aead.None? ==> packet[4..] == payload)
      && (m.aead.Some? ==> packet[4..] == ch.nonce + m.aead.value.seal(ch.nonce, payload) && |ch.nonce| == 12)
  {
    assert Encode(m, data, ch)[4..] == Body(m, data, ch);
  }

  // What the reader does with the length: 1 byte to 16 MiB, and never before it is all there.
  lemma LengthRule(m: Mode, wire: bytes)
    ensures |wire| < 4 ==> NextPacket(m, wire).Need?
    ensures |wire| >= 4 ==>
      var n := wire[0] as int * 16777216 + wire[1] as int * 65536 + wire[2] as int * 256 + wire[3] as int;
      && (n == 0 || n > 16777216 ==> NextPacket(m, wire).Bad?)
      && (0 < n <= 16777216 ==>
            && (NextPacket(m, wire).Need? <==> |wire| < 4 + n)
            && (NextPacket(m, wire).Got? ==> NextPacket(m, wire).rest == wire[4 + n..]))
  {
  }

  // An empty Write is an empty message, except that without key and obfuscation its
  // packet has length 0, which the reader refuses.
  lemma EmptyExact(m: Mode, ch: Choice, rest: bytes)
    requires m.Lawful() && ValidChoice(ch) && BodyLength(m, [], |ch.pad|) <= MAX_PACKET
    ensures NextPacket(m, Encode(m, [], ch) + rest)
         == if m.aead.None? && !m.ObfsOn() then Bad else Got([], rest)
  {
    PacketExact(m, [], ch, rest);
    BodyLengthExact(m, [], ch);
    NextOfBody(m, Body(m, [], ch), rest);
  }

  // A packet cut short is waited for: never misread, never refused.
  lemma PrefixNeedsMore(m: Mode, data: bytes, ch: Choice, k: nat)
    requires m.Lawful() && ValidChoice(ch) && InDomain(m, data, |ch.pad|)
    requires k < |Encode(m, data, ch)|
    ensures NextPacket(m, Encode(m, data, ch)[..k]) == Need
  {
    BodyLengthExact(m, data, ch);
    var n := |Body(m, data, ch)|;
    Be32RoundTrip(n);
    if k >= 4 {
      assert Encode(m, data, ch)[..k][..4] == Be32(n);
    }
  }

  function Reader(m: Mode): Decoder {
    (wire: bytes) => NextPacket(m, wire)
  }

  lemma ReaderSound(m: Mode)
    ensures Sound(Reader(m))
  {
    forall wire, more ensures Stable(Reader(m), wire, more) {
      NextPacketGrows(m, wire, more);
    }
  }

  lemma NextPacketGrows(m: Mode, wire: bytes, more: bytes)
    ensures NextPacket(m, wire).Got? ==>
      && |NextPacket(m, wire).rest| < |wire|
      && NextPacket(m, wire + more) == Got(NextPacket(m, wire).data, NextPacket(m, wire).rest + more)
    ensures NextPacket(m, wire).Bad? || NextPacket(m, wire).Crash? ==>
      NextPacket(m, wire + more) == NextPacket(m, wire)
  {
    if |wire| >= 4 {
      assert (wire + more)[..4] == wire[..4];
      var n := Unbe32(wire[..4]);
      if 4 + n <= |wire| {
        assert (wire + more)[4..4 + n] == wire[4..4 + n];
        assert (wire + more)[4 + n..] == wire[4 + n..] + more;
      }
    }
  }

  function FrameOf(m: Mode, data: bytes, ch: Choice): Frame {
    Frame(Encode(m, data, ch), data)
  }

  // So every result about framed streams holds of packets, exactly in the domain.
  lemma PacketFrames(m: Mode, data: bytes, ch: Choice)
    requires m.Lawful() && ValidChoice(ch)
    ensures Encodes(Reader(m), FrameOf(m, data, ch)) <==> InDomain(m, data, |ch.pad|)
  {
    PacketExact(m, data, ch, []);
    assert Encode(m, data, ch) + [] == Encode(m, data, ch);
    if InDomain(m, data, |ch.pad|) {
      forall k | 0 <= k < |Encode(m, data, ch)|
        ensures Reader(m)(Encode(m, data, ch)[..k]) == Need
      {
        PrefixNeedsMore(m, data, ch, k);
      }
    }
  }

  // Read alone off the wire, a packet is one message equal to its data exactly in
  // the domain: outside it something is lost, added, refused or left over.
  lemma ScanOneExact(m: Mode, data: bytes, ch: Choice)
    requires m.Lawful() && ValidChoice(ch)
    ensures ScanWire(Reader(m), Encode(m, data, ch)) == Scan([data], |Encode(m, data, ch)|, Clean)
       <==> InDomain(m, data, |ch.pad|)
  {
    var wire := Encode(m, data, ch);
    PacketExact(m, data, ch, []);
    assert wire + [] == wire;
    ReaderSound(m);
    ScanSingle(Reader(m), wire, data);
  }
}
