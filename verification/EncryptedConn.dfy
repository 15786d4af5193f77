// The connection object: it splits, pads, seals and frames what is written, and
// reassembles, opens and strips what is read.
module EncryptedStream {
  import opened Bytes
  import opened Framing
  import opened Packet
  import opened Padding
  import opened Transport

  const MIN_BURST: int := 2048
  const DEFAULT_BURST: int := 4096

  predicate Bursts(m: Mode, size: nat) {
    m.stealth.Some? && m.stealth.value.burstSplit && size > m.stealth.value.maxBurst
  }

  function BurstCap(maxBurst: int): int {
    Max(MIN_BURST, if maxBurst <= 0 then DEFAULT_BURST else maxBurst)
  }

  // What loading a configuration guarantees of the padding settings.
  predicate ConfigOk(m: Mode) {
    && (m.obfs.Some? ==> m.obfs.value.pad.min >= 0)
    && (m.stealth.Some? ==> m.stealth.value.pad.min >= 0)
  }

  // The pad lengths the two padding functions can choose.
  predicate PadInRange(m: Mode, data: bytes, padLen: nat) {
    if m.ObfsOn() then
      var r := m.obfs.value.pad;
      r.min <= padLen && (padLen == r.min || padLen < r.max)
    else if m.Pads(data) then
      var r := m.stealth.value.pad;
      r.min <= padLen && (padLen == r.min || padLen <= r.max)
    else true
  }

  // A packet to send: the data and the choices made for it.
  datatype Sealed = Sealed(data: bytes, ch: Choice)

  // The data the packets carry, and what they put on the wire.
  function DataOf(ps: seq<Sealed>): bytes {
    if ps == [] then [] else DataOf(ps[..|ps| - 1]) + ps[|ps| - 1].data
  }

  function WireBytes(m: Mode, ps: seq<Sealed>): bytes {
    if ps == [] then [] else WireBytes(m, ps[..|ps| - 1]) + Encode(m, ps[|ps| - 1].data, ps[|ps| - 1].ch)
  }

  // Every packet was made with choices its mode allows.
  predicate WellMade(m: Mode, ps: seq<Sealed>) {
    ps == [] ||
    (var p := ps[|ps| - 1];
     ValidChoice(p.ch) && PadInRange(m, p.data, |p.ch.pad|) && WellMade(m, ps[..|ps| - 1]))
  }

  // Chunk sizes of a burst: in range, and only the very last one may be short.
  predicate BurstSizes(maxBurst: int, ps: seq<Sealed>, more: bool) {
    ps == [] ||
    (var size := |ps[|ps| - 1].data|;
     && 0 < size <= BurstCap(maxBurst)
     && (more ==> size >= MIN_BURST)
     && BurstSizes(maxBurst, ps[..|ps| - 1], true))
  }

  // The size of a burst chunk when remaining bytes are left to send.
  predicate ChunkFits(maxBurst: int, remaining: int, size: int) {
    0 < size <= remaining && size <= BurstCap(maxBurst) && (size >= MIN_BURST || size == remaining)
  }

  // The packets of a Write that succeeds.
  ghost predicate Allowed(m: Mode, data: bytes, ps: seq<Sealed>) {
    && WellMade(m, ps) && DataOf(ps) == data
    && if Bursts(m, |data|) then BurstSizes(m.stealth.value.maxBurst, ps, false) else |ps| == 1
  }

  // What is known of the packet a Write failed on: the wire got cut of it.
  ghost predicate Torn(m: Mode, rest: bytes, broken: Sealed, cut: bytes) {
    WellMade(m, [broken]) && broken.data <= rest && cut <= Encode(m, broken.data, broken.ch)
  }

  // What a Write may have done when it returns: done was written whole and carries the
  // n bytes counted.
  ghost predicate Outcome(m: Mode, data: bytes, n: nat, ok: bool, done: seq<Sealed>, broken: Sealed, cut: bytes) {
    if ok then n == |data| && cut == [] && Allowed(m, data, done)
    else if Bursts(m, |data|) then
      && Bursting(m, data, n, data[Min(n, |data|)..], done) && n < |data|
      && Torn(m, data[n..], broken, cut)
      && ChunkFits(m.stealth.value.maxBurst, |data| - n, |broken.data|)
    else n == 0 && done == [] && broken.data == data && Torn(m, data, broken, cut)
  }

  // One Read call, as a function of the buffer, the wire and the caller's space.
  datatype ReadResult =
    | Delivered(out: bytes, readBuf: bytes, inbox: bytes)
    | Failed
    | Panicked

  function Take(m: Mode, readBuf: bytes, inbox: bytes, space: nat): ReadResult {
    if readBuf != [] then
      var n := Min(space, |readBuf|);
      Delivered(readBuf[..n], readBuf[n..], inbox)
    else
      match NextPacket(m, inbox)
      case Got(d, rest) =>
        var n := Min(space, |d|);
        Delivered(d[..n], d[n..], rest)
      case Crash => Panicked
      case _ => Failed
  }

  // Never more than the caller has room for; the rest of the buffer, or of the one packet
  // taken from the wire, is kept for later.
  lemma TakeExact(m: Mode, readBuf: bytes, inbox: bytes, space: nat)
    ensures var t, next := Take(m, readBuf, inbox, space), NextPacket(m, inbox);
      && (t.Delivered? ==> |t.out| <= space)
      && (readBuf != [] ==>
            && t.Delivered? && t.out == readBuf[..Min(space, |readBuf|)]
            && t.out + t.readBuf == readBuf && t.inbox == inbox)
      && (readBuf == [] && next.Got? ==>
            && t.Delivered? && t.out + t.readBuf == next.data
            && |t.out| == Min(space, |next.data|) && t.inbox == next.rest)
      && (readBuf == [] && next.Crash? ==> t == Panicked)
      && (readBuf == [] && (next.Need? || next.Bad?) ==> t == Failed)
  {
    if readBuf != [] {
      var n := Min(space, |readBuf|);
      assert readBuf == readBuf[..n] + readBuf[n..];
    } else if NextPacket(m, inbox).Got? {
      var d := NextPacket(m, inbox).data;
      var n := Min(space, |d|);
      assert d == d[..n] + d[n..];
    }
  }

  method RandomBytes(n: nat) returns (r: bytes)
    ensures |r| == n
  {
    var buf := new byte[n];
    r := buf[..];
  }

  // Fills a packet buffer: the length, then the nonce, then the rest.
  method FillPacket(nonce: bytes, content: bytes) returns (out: bytes)
    ensures out == Be32(|nonce + content| % TWO_32) + (nonce + content)
  {
    var pktLen := |nonce| + |content|;
    var buf := new byte[4 + pktLen];
    var head := Be32(pktLen % TWO_32);
    forall i | 0 <= i < 4 {
      buf[i] := head[i];
    }
    forall i | 0 <= i < |nonce| {
      buf[4 + i] := nonce[i];
    }
    forall i | 0 <= i < |content| {
      buf[4 + |nonce| + i] := content[i];
    }
    out := buf[..];
    assert out[..4] == head;
    assert out[4..4 + |nonce|] == nonce;
    assert out[4 + |nonce|..] == content;
    assert out == out[..4] + (out[4..4 + |nonce|] + out[4 + |nonce|..]);
  }

  // Random size, at least 2048, at most what remains.
  method ChooseChunk(maxBurst: int, remaining: nat) returns (size: nat)
    requires maxBurst > 0 && remaining > 0
    ensures ChunkFits(maxBurst, remaining, size)
  {
    var r := SecureRandInt(maxBurst - MIN_BURST + 1);
    size := MIN_BURST + r;
    if size > remaining {
      size := remaining;
    }
  }

  class EncryptedConn {
    const conn: FragmentedConn
    const mode: Mode
    var readBuf: bytes

    constructor (conn: FragmentedConn, mode: Mode)
      ensures this.conn == conn && this.mode == mode && readBuf == []
    {
      this.conn, this.mode, readBuf := conn, mode, [];
    }

    ghost function Output(): bytes
      reads conn.conn
    {
      conn.conn.Output()
    }

    // Padding comes before encryption.
    method Pad(data: bytes) returns (payload: bytes, ghost pad: bytes)
      requires ConfigOk(mode)
      ensures payload == Payload(mode, data, pad) && PadInRange(mode, data, |pad|)
    {
      payload, pad := data, [];
      if mode.obfs.Some? && mode.obfs.value.enabled {
        payload := AddPadding(data, mode.obfs.value.pad);
        pad := payload[2 + |data|..];
      } else if mode.stealth.Some? && mode.stealth.value.randomPadding && |data| > 4 {
        payload := AddStealthPadding(data, mode.stealth.value.pad);
        pad := payload[2 + |data|..];
      }
    }

    // On success the whole packet is on the wire and all of data is accepted; on
    // failure nothing is accepted and the wire got some prefix of the packet.
    method WritePacket(data: bytes) returns (n: nat, ok: bool, ghost ch: Choice, ghost wrote: bytes)
      requires ConfigOk(mode)
      modifies conn`firstWrite, conn.conn`sent
      ensures ValidChoice(ch) && PadInRange(mode, data, |ch.pad|)
      ensures n == if ok then |data| else 0
      ensures Output() == old(Output()) + wrote
      ensures wrote <= Encode(mode, data, ch)
      ensures ok ==> wrote == Encode(mode, data, ch)
    {
      var payload;
      ghost var pad;
      payload, pad := Pad(data);
      var nonce := RandomBytes(NONCE_SIZE);
      ch := Choice(pad, nonce);
      var buf;
      if mode.aead.Some? {
        var randomOk: bool := *;
        if !randomOk {
          wrote := [];
          return 0, false, ch, wrote;
        }
        buf := FillPacket(nonce, mode.aead.value.seal(nonce, payload));
      } else {
        buf := FillPacket([], payload);
        assert [] + payload == payload;
      }
      assert buf == Encode(mode, data, ch);
      var count;
      count, ok := conn.Write(buf);
      wrote := buf[..count];
      if !ok {
        return 0, false, ch, wrote;
      }
      assert wrote == buf;
      n := |data|;
    }

    // One chunk of a burst.
    method SendChunk(chunk: bytes, ghost start: bytes, ghost data: bytes, ghost total: nat, ghost remaining: bytes,
                     ghost done: seq<Sealed>)
      returns (n: nat, ok: bool, ghost p: Sealed, ghost wrote: bytes)
      requires ConfigOk(mode) && Bursts(mode, |data|) && Bursting(mode, data, total, remaining, done)
      requires chunk <= remaining && ChunkFits(mode.stealth.value.maxBurst, |remaining|, |chunk|)
      requires Output() == start + WireBytes(mode, done)
      modifies conn`firstWrite, conn.conn`sent
      ensures ok ==> n == |chunk| && Output() == start + WireBytes(mode, done + [p])
      ensures !ok ==> Output() == start + WireBytes(mode, done) + wrote
      ensures ok ==> Bursting(mode, data, total + n, remaining[n..], done + [p])
      ensures !ok ==> Outcome(mode, data, total, false, done, p, wrote)
    {
      ghost var ch;
      n, ok, ch, wrote := WritePacket(chunk);
      p := Sealed(chunk, ch);
      if ok {
        BurstingStep(mode, data, total, remaining, done, p);
        ConcatAssociative(start, WireBytes(mode, done), wrote);
      } else {
        BurstTorn(mode, data, total, remaining, done, p, wrote);
      }
    }

    // Random-sized chunks until nothing remains; the count returned is the length
    // of the chunks fully written.
    method BurstWrite(data: bytes)
      returns (total: nat, ok: bool, ghost done: seq<Sealed>, ghost broken: Sealed, ghost cut: bytes)
      requires ConfigOk(mode) && Bursts(mode, |data|)
      modifies conn`firstWrite, conn.conn`sent
      ensures Outcome(mode, data, total, ok, done, broken, cut)
      ensures Output() == old(Output()) + WireBytes(mode, done) + cut
    {
      ghost var start := Output();
      total, ok, done, cut := 0, true, [], [];
      broken := Sealed([], Choice([], []));
      var remaining := data;
      var maxBurst := mode.stealth.value.maxBurst;
      if maxBurst <= 0 {
        maxBurst := DEFAULT_BURST;
      }
      while |remaining| > 0
        invariant ok && cut == []
        invariant Bursting(mode, data, total, remaining, done)
        invariant Output() == start + WireBytes(mode, done)
        decreases |remaining|
      {
        var chunkSize := ChooseChunk(maxBurst, |remaining|);
        var n;
        ghost var p, wrote;
        n, ok, p, wrote := SendChunk(remaining[..chunkSize], start, data, total, remaining, done);
        if !ok {
          broken, cut := p, wrote;
          return;
        }
        done := done + [p];
        total := total + n;
        remaining := remaining[n..];
      }
      BurstDone(mode, data, total, remaining, done);
    }

    // One packet for all of data.
    method WriteSingle(data: bytes)
      returns (n: nat, ok: bool, ghost done: seq<Sealed>, ghost broken: Sealed, ghost cut: bytes)
      requires ConfigOk(mode) && !Bursts(mode, |data|)
      modifies conn`firstWrite, conn.conn`sent
      ensures Outcome(mode, data, n, ok, done, broken, cut)
      ensures Output() == old(Output()) + (WireBytes(mode, done) + cut)
    {
      ghost var ch, wrote;
      n, ok, ch, wrote := WritePacket(data);
      broken := Sealed(data, ch);
      if ok {
        done, cut := [broken], [];
        SingleDone(mode, data, broken);
      } else {
        done, cut := [], wrote;
        SingleTorn(mode, data, broken, cut);
      }
    }

    // The write lock is held for the whole call, so the packets of one Write are
    // next to each other on the wire.
    method Write(data: bytes)
      returns (n: nat, ok: bool, ghost done: seq<Sealed>, ghost broken: Sealed, ghost cut: bytes)
      requires ConfigOk(mode)
      modifies conn`firstWrite, conn.conn`sent
      ensures Outcome(mode, data, n, ok, done, broken, cut)
      ensures Output() == old(Output()) + WireBytes(mode, done) + cut
    {
      if mode.stealth.Some? && mode.stealth.value.burstSplit && |data| > mode.stealth.value.maxBurst {
        n, ok, done, broken, cut := BurstWrite(data);
      } else {
        n, ok, done, broken, cut := WriteSingle(data);
        ConcatAssociative(old(Output()), WireBytes(mode, done), cut);
      }
    }

    method Read(space: nat) returns (out: bytes, ok: bool, panicked: bool)
      modifies this`readBuf, conn.conn`inbox
      ensures match Take(mode, old(readBuf), old(conn.conn.inbox), space)
        case Delivered(o, b, i) => ok && !panicked && out == o && readBuf == b && conn.conn.inbox == i
        case Failed => !ok && !panicked && out == [] && readBuf == []
        case Panicked => panicked && out == [] && readBuf == []
      ensures |out| <= space
      ensures old(readBuf) != [] ==>
        && ok && out == old(readBuf)[..Min(space, |old(readBuf)|)] && out + readBuf == old(readBuf)
        && conn.conn.inbox == old(conn.conn.inbox)
      ensures old(readBuf) == [] ==>
        var next := NextPacket(mode, old(conn.conn.inbox));
        && (ok <==> next.Got?) && (panicked <==> next.Crash?)
        && (ok ==>
              && out + readBuf == next.data && |out| == Min(space, |next.data|)
              && conn.conn.inbox == next.rest)
    {
      out, ok, panicked := [], false, false;
      TakeExact(mode, readBuf, conn.conn.inbox, space);
      if |readBuf| > 0 {
        var n := Min(space, |readBuf|);
        out, readBuf, ok := readBuf[..n], readBuf[n..], true;
        return;
      }
      ghost var wire := conn.conn.inbox;
      var header, pkt;
      header, ok := conn.conn.ReadFull(4);
      if !ok {
        return;
      }
      var pktLen := Unbe32(header);
      if pktLen == 0 || pktLen > MAX_PACKET {
        ok := false;
        return;
      }
      pkt, ok := conn.conn.ReadFull(pktLen);
      if !ok {
        return;
      }
      assert pkt == wire[4..4 + pktLen] && conn.conn.inbox == wire[4 + pktLen..];
      var plain := OpenAndStrip(pkt);
      if !plain.Plain? {
        ok, panicked := false, plain.Crashed?;
        return;
      }
      var n := Min(space, |plain.data|);
      out, readBuf, ok := plain.data[..n], plain.data[n..], true;
    }

    method OpenAndStrip(pkt: bytes) returns (plain: Decoded)
      ensures plain == DecodeBody(mode, pkt)
    {
      var plaintext := pkt;
      if mode.aead.Some? {
        if |pkt| < NONCE_SIZE {
          return Refused;
        }
        var message := mode.aead.value.open(pkt[..NONCE_SIZE], pkt[NONCE_SIZE..]);
        if message.None? {
          return Refused;
        }
        plaintext := message.value;
      }
      if mode.obfs.Some? && mode.obfs.value.enabled {
        var stripped := RemovePadding(plaintext);
        if stripped.Panic? {
          return Crashed;
        }
        if stripped.Nil? {
          return Refused;
        }
        plaintext := stripped.data;
      } else if mode.stealth.Some? && mode.stealth.value.randomPadding {
        var stripped := RemoveStealthPadding(plaintext);
        if stripped.Panic? {
          return Crashed;
        }
        if !stripped.Nil? {
          plaintext := stripped.data;
        }
      }
      return Plain(plaintext);
    }
  }

  lemma Snoc(m: Mode, ps: seq<Sealed>, p: Sealed)
    ensures DataOf(ps + [p]) == DataOf(ps) + p.data
    ensures WireBytes(m, ps + [p]) == WireBytes(m, ps) + Encode(m, p.data, p.ch)
    ensures WellMade(m, ps + [p])
       <==> WellMade(m, ps) && ValidChoice(p.ch) && PadInRange(m, p.data, |p.ch.pad|)
  {
    assert (ps + [p])[..|ps|] == ps;
  }

  lemma SnocSizes(maxBurst: int, ps: seq<Sealed>, p: Sealed, more: bool)
    ensures BurstSizes(maxBurst, ps + [p], more) <==>
      BurstSizes(maxBurst, ps, true) && 0 < |p.data| <= BurstCap(maxBurst) && (more ==> |p.data| >= MIN_BURST)
  {
    assert (ps + [p])[..|ps|] == ps;
  }

  // The loop of a burst: what is sent so far and what remains.
  ghost predicate Bursting(m: Mode, data: bytes, total: int, remaining: bytes, done: seq<Sealed>) {
    && 0 <= total <= |data| && remaining == data[total..] && DataOf(done) == data[..total]
    && WellMade(m, done)
    && m.stealth.Some? && BurstSizes(m.stealth.value.maxBurst, done, remaining != [])
  }

  lemma BurstingStep(m: Mode, data: bytes, total: int, remaining: bytes, done: seq<Sealed>, p: Sealed)
    requires Bursting(m, data, total, remaining, done) && p.data <= remaining && p.data != []
    requires ValidChoice(p.ch) && PadInRange(m, p.data, |p.ch.pad|)
    requires ChunkFits(m.stealth.value.maxBurst, |remaining|, |p.data|)
    ensures Bursting(m, data, total + |p.data|, remaining[|p.data|..], done + [p])
    ensures WireBytes(m, done + [p]) == WireBytes(m, done) + Encode(m, p.data, p.ch)
  {
    Snoc(m, done, p);
    SnocSizes(m.stealth.value.maxBurst, done, p, remaining[|p.data|..] != []);
    DropDrop(data, total, |p.data|);
    assert data[..total + |p.data|] == data[..total] + p.data;
  }

  lemma SingleDone(m: Mode, data: bytes, p: Sealed)
    requires !Bursts(m, |data|) && p.data == data && ValidChoice(p.ch) && PadInRange(m, data, |p.ch.pad|)
    ensures Allowed(m, data, [p])
    ensures WireBytes(m, [p]) + [] == Encode(m, data, p.ch)
  {
    assert [] + data == data && [] + Encode(m, data, p.ch) == Encode(m, data, p.ch);
  }

  lemma SingleTorn(m: Mode, data: bytes, broken: Sealed, cut: bytes)
    requires !Bursts(m, |data|) && broken.data == data && cut <= Encode(m, data, broken.ch)
    requires ValidChoice(broken.ch) && PadInRange(m, data, |broken.ch.pad|)
    ensures Outcome(m, data, 0, false, [], broken, cut)
    ensures WireBytes(m, []) + cut == cut
  {
  }

  lemma BurstTorn(m: Mode, data: bytes, total: nat, remaining: bytes, done: seq<Sealed>, broken: Sealed, cut: bytes)
    requires Bursts(m, |data|) && Bursting(m, data, total, remaining, done) && remaining != []
    requires Torn(m, remaining, broken, cut)
    requires ChunkFits(m.stealth.value.maxBurst, |remaining|, |broken.data|)
    ensures Outcome(m, data, total, false, done, broken, cut)
  {
  }

  lemma BurstDone(m: Mode, data: bytes, total: nat, remaining: bytes, done: seq<Sealed>)
    requires Bursts(m, |data|) && Bursting(m, data, total, remaining, done) && remaining == []
    ensures total == |data| && Allowed(m, data, done)
    ensures WireBytes(m, done) + [] == WireBytes(m, done)
  {
    assert data[..total] == data;
  }

  lemma CapExact(maxBurst: int)
    ensures BurstCap(maxBurst) == if maxBurst <= 0 then 4096 else if maxBurst < 2048 then 2048 else maxBurst
  {
  }

  // A Write that succeeds sends one packet, unless burst splitting is on and the data is
  // longer than the configured maximum.
  lemma SingleUnlessLong(m: Mode, data: bytes, ps: seq<Sealed>)
    requires Allowed(m, data, ps)
    requires !(m.stealth.Some? && m.stealth.value.burstSplit && |data| > m.stealth.value.maxBurst)
    ensures |ps| == 1 && ps[0].data == data
  {
    assert DataOf(ps[..0]) + ps[0].data == ps[0].data;
  }

  lemma {:induction false} BurstIndexed(maxBurst: int, ps: seq<Sealed>, more: bool, i: nat)
    requires BurstSizes(maxBurst, ps, more) && i < |ps|
    ensures 0 < |ps[i].data| <= BurstCap(maxBurst)
    ensures i + 1 < |ps| || more ==> |ps[i].data| >= 2048
  {
    if i + 1 < |ps| {
      BurstIndexed(maxBurst, ps[..|ps| - 1], true, i);
    }
  }
}
