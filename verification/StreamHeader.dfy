// The header of a multiplexed stream: a type tag, a 16-bit length, a target string.
// The client also accepts the older header, which has no tag.
module StreamHeader {
  import opened Bytes
  import opened Transport

  const FORWARD: byte := 0x01
  const REVERSE: byte := 0x02
  const FAKE: byte := 0xFF
  const MAX_TARGET: int := 4096

  const TCP_SCHEME: bytes := [116, 99, 112, 58, 47, 47]    // tcp://
  const UDP_SCHEME: bytes := [117, 100, 112, 58, 47, 47]   // udp://

  datatype Network = Tcp | Udp

  function TrimPrefix(s: bytes, p: bytes): bytes {
    if p <= s then s[|p|..] else s
  }

  datatype Address = Address(net: Network, addr: bytes)

  function SplitTarget(s: bytes): Address {
    if UDP_SCHEME <= s then Address(Udp, TrimPrefix(s, UDP_SCHEME))
    else Address(Tcp, TrimPrefix(s, TCP_SCHEME))
  }

  function Untagged(target: bytes): bytes {
    Be16(|target| % TWO_16) + target
  }

  function Tagged(tag: byte, target: bytes): bytes {
    [tag] + Untagged(target)
  }

  // Dial: connect to the address and relay, rest being the bytes not yet read.
  datatype Verdict = Reject | Discard | Dial(to: Address, rest: bytes)

  function ParseTarget(wire: bytes): Verdict {
    if |wire| < 2 then Reject
    else
      var n := Unbe16(wire[..2]);
      if n == 0 || n > MAX_TARGET || |wire| < 2 + n then Reject
      else Dial(SplitTarget(wire[2..2 + n]), wire[2 + n..])
  }

  // The server ignores every stream whose tag is not forward.
  function ServerParse(wire: bytes): Verdict {
    if wire == [] || wire[0] != FORWARD then Reject else ParseTarget(wire[1..])
  }

  // The client takes anything but the two known tags for an untagged header.
  function ClientParse(wire: bytes): Verdict {
    if wire == [] then Reject
    else if wire[0] == REVERSE then ParseTarget(wire[1..])
    else if wire[0] == FAKE then Discard
    else ParseTarget(wire)
  }

  // ---------- The code that reads and writes headers ----------

  ghost predicate Follows(v: Verdict, left: bytes, parsed: Verdict) {
    && (v.Dial? <==> parsed.Dial?) && (v.Discard? <==> parsed.Discard?)
    && (parsed.Dial? ==> v == parsed && left == parsed.rest)
  }

  method ReadTarget(stream: NetConn, hdr: bytes) returns (v: Verdict)
    requires |hdr| == 2
    modifies stream`inbox
    ensures Follows(v, stream.inbox, ParseTarget(hdr + old(stream.inbox)))
  {
    ghost var wire := hdr + stream.inbox;
    assert wire[..2] == hdr;
    var n := Unbe16(hdr);
    if n == 0 || n > MAX_TARGET {
      return Reject;
    }
    var buf, ok := stream.ReadFull(n);
    if !ok {
      return Reject;
    }
    assert wire[2..2 + n] == buf && wire[2 + n..] == stream.inbox;
    v := Dial(SplitTarget(buf), stream.inbox);
  }

  method ReadLengthAndTarget(stream: NetConn) returns (v: Verdict)
    modifies stream`inbox
    ensures Follows(v, stream.inbox, ParseTarget(old(stream.inbox)))
  {
    var hdr, ok := stream.ReadFull(2);
    if !ok {
      return Reject;
    }
    assert hdr + stream.inbox == old(stream.inbox);
    v := ReadTarget(stream, hdr);
  }

  method HandleStream(stream: NetConn) returns (v: Verdict)
    modifies stream`inbox
    ensures Follows(v, stream.inbox, ServerParse(old(stream.inbox)))
  {
    var tag, ok := stream.ReadFull(1);
    if !ok {
      return Reject;
    }
    if tag[0] == FORWARD {
      v := ReadLengthAndTarget(stream);
    } else {
      v := Reject;
    }
  }

  method HandleReverseStream(stream: NetConn) returns (v: Verdict)
    modifies stream`inbox
    ensures Follows(v, stream.inbox, ClientParse(old(stream.inbox)))
  {
    var tag, ok := stream.ReadFull(1);
    if !ok {
      return Reject;
    }
    if tag[0] == REVERSE {
      v := ReadLengthAndTarget(stream);
    } else if tag[0] == FAKE {
      v := Discard;
    } else {
      var second;
      second, ok := stream.ReadFull(1);
      if !ok {
        return Reject;
      }
      assert (tag + second) + stream.inbox == old(stream.inbox);
      v := ReadTarget(stream, tag + second);
    }
  }

  // openReverseStream: the tag in one write, length and target in another.
  method SendReverseHeader(stream: NetConn, target: bytes) returns (ok: bool)
    modifies stream`sent
    ensures old(stream.Output()) <= stream.Output() <= old(stream.Output()) + Tagged(REVERSE, target)
    ensures ok ==> stream.Output() == old(stream.Output()) + Tagged(REVERSE, target)
  {
    ghost var start := stream.Output();
    var n;
    n, ok := stream.Write([REVERSE]);
    assert [REVERSE][..n] <= Tagged(REVERSE, target);
    if !ok {
      return;
    }
    assert [REVERSE][..n] == [REVERSE];
    n, ok := stream.Write(Untagged(target));
    ConcatAssociative(start, [REVERSE], Untagged(target)[..n]);
    assert [REVERSE] + Untagged(target)[..n] <= Tagged(REVERSE, target);
    assert ok ==> Untagged(target)[..n] == Untagged(target);
  }

  // OpenStream with sendTarget: tag, length and target in three writes. The error of the
  // first is not looked at, so a broken tag does not stop the other two; after a broken
  // length no target is sent. Exactly the complete three make the tagged header.
  method SendForwardHeader(stream: NetConn, target: bytes)
    returns (ghost tag: bytes, ghost hdr: bytes, ghost body: bytes)
    modifies stream`sent
    ensures stream.Output() == old(stream.Output()) + (tag + hdr + body)
    ensures tag <= [FORWARD] && hdr <= Be16(|target| % TWO_16) && body <= target
    ensures |hdr| < 2 ==> body == []
    ensures tag + hdr + body == Tagged(FORWARD, target) <==> |tag| == 1 && |hdr| == 2 && |body| == |target|
  {
    ghost var start := stream.Output();
    var n, ok := stream.Write([FORWARD]);
    tag := [FORWARD][..n];
    var header := Be16(|target| % TWO_16);
    n, ok := stream.Write(header);
    hdr, body := header[..n], [];
    if ok {
      n, ok := stream.Write(target);
      body := target[..n];
    }
    ConcatAssociative(start, tag, hdr);
    ConcatAssociative(start, tag + hdr, body);
    assert start + (tag + hdr) + [] == start + (tag + hdr);
    HeaderWhole(tag, hdr, body, target);
  }

  lemma HeaderWhole(tag: bytes, hdr: bytes, body: bytes, target: bytes)
    requires tag <= [FORWARD] && hdr <= Be16(|target| % TWO_16) && body <= target
    ensures tag + hdr + body == Tagged(FORWARD, target) <==> |tag| == 1 && |hdr| == 2 && |body| == |target|
  {
    if |tag| == 1 && |hdr| == 2 && |body| == |target| {
      assert tag == [FORWARD] && hdr == Be16(|target| % TWO_16) && body == target;
      ConcatAssociative(tag, hdr, body);
    } else {
      assert |tag + hdr + body| < |Tagged(FORWARD, target)|;
    }
  }

  // ---------- Round trips ----------

  lemma UntaggedParts(target: bytes, rest: bytes)
    ensures var wire, n := Untagged(target) + rest, |target| % TWO_16;
      && Unbe16(wire[..2]) == n
      && (|target| < TWO_16 ==> wire[2..2 + n] == target && wire[2 + n..] == rest)
  {
    assert (Untagged(target) + rest)[..2] == Be16(|target| % TWO_16);
  }

  // A length and a target are read back, and the bytes behind them are left untouched,
  // exactly for targets of 1 to 4096 bytes.
  lemma TargetExact(target: bytes, rest: bytes)
    ensures ParseTarget(Untagged(target) + rest) == Dial(SplitTarget(target), rest)
       <==> 1 <= |target| <= MAX_TARGET
  {
    UntaggedParts(target, rest);
    var wire, n := Untagged(target) + rest, |target| % TWO_16;
    if |target| >= TWO_16 && 2 + n <= |wire| {
      assert |wire[2 + n..]| > |rest|;
    }
  }

  // Every other tag: the server ignores the stream, whatever follows.
  lemma ServerTags(tag: byte, target: bytes, rest: bytes)
    requires 1 <= |target| <= MAX_TARGET
    ensures ServerParse([tag] + Untagged(target) + rest)
         == if tag == 1 then Dial(SplitTarget(target), rest) else Reject
  {
    var wire := [tag] + Untagged(target) + rest;
    assert wire[0] == tag && wire[1..] == Untagged(target) + rest;
    TargetExact(target, rest);
  }

  // The client discards a stream exactly when it begins with 255, dials what a header
  // tagged 2 names, and takes everything else for an untagged header.
  lemma ClientTags(wire: bytes, target: bytes, rest: bytes)
    requires 1 <= |target| <= MAX_TARGET
    ensures ClientParse(wire).Discard? <==> wire != [] && wire[0] == 255
    ensures ClientParse([2] + Untagged(target) + rest) == Dial(SplitTarget(target), rest)
    ensures wire != [] && wire[0] != 2 && wire[0] != 255 ==> ClientParse(wire) == ParseTarget(wire)
  {
    var tagged := [2] + Untagged(target) + rest;
    assert tagged[0] == 2 && tagged[1..] == Untagged(target) + rest;
    TargetExact(target, rest);
  }

  // A header cut short is never dialled, on either side.
  lemma CutHeaderRejected(target: bytes, k: nat)
    requires 1 <= |target| <= MAX_TARGET && k < |Tagged(FORWARD, target)|
    ensures ServerParse(Tagged(FORWARD, target)[..k]) == Reject
    ensures ClientParse(Tagged(REVERSE, target)[..k]) == Reject
  {
    if k > 0 {
      var cut := Untagged(target)[..k - 1];
      assert Tagged(FORWARD, target)[..k][1..] == cut && Tagged(REVERSE, target)[..k][1..] == cut;
      if |cut| >= 2 {
        assert cut[..2] == Be16(|target|);
      }
    }
  }

  // The schemes, spelled out: a target without one is a TCP address.
  lemma SchemesExact(addr: bytes)
    ensures TCP_SCHEME == ['t' as int, 'c' as int, 'p' as int, ':' as int, '/' as int, '/' as int]
    ensures UDP_SCHEME == ['u' as int, 'd' as int, 'p' as int, ':' as int, '/' as int, '/' as int]
    ensures !(TCP_SCHEME <= addr) && !(UDP_SCHEME <= addr) ==> SplitTarget(addr) == Address(Tcp, addr)
  {
  }

  lemma ForwardExact(target: bytes, rest: bytes)
    ensures ServerParse(Tagged(FORWARD, target) + rest) == Dial(SplitTarget(target), rest)
       <==> 1 <= |target| <= 4096
  {
    assert (Tagged(FORWARD, target) + rest)[1..] == Untagged(target) + rest;
    TargetExact(target, rest);
  }

  // What a mapping sends is what the client dials: the scheme comes off once, even when
  // the address itself looks like a scheme, and the tagged path is the one taken.
  lemma ReverseExact(net: Network, addr: bytes, rest: bytes)
    ensures var target := (if net.Tcp? then TCP_SCHEME else UDP_SCHEME) + addr;
      ClientParse(Tagged(REVERSE, target) + rest) == Dial(Address(net, addr), rest)
      <==> |addr| <= 4096 - 6
  {
    var scheme := if net.Tcp? then TCP_SCHEME else UDP_SCHEME;
    var target := scheme + addr;
    assert (Tagged(REVERSE, target) + rest)[1..] == Untagged(target) + rest;
    TargetExact(target, rest);
    assert target[..6] == scheme && target[|scheme|..] == addr;
    assert target[0] == scheme[0];
    assert SplitTarget(target) == Address(net, addr);
  }

  // Losing a few bytes at the front always changes the address.
  lemma SuffixDiffers(target: bytes, k: nat)
    requires 0 < k < 6 && k <= |target|
    ensures SplitTarget(target[k..]) != SplitTarget(target)
  {
    var t := target[k..];
    if TCP_SCHEME <= target || UDP_SCHEME <= target {
      assert t[0] == target[k];
      assert !(TCP_SCHEME <= t) && !(UDP_SCHEME <= t) by {
        if TCP_SCHEME <= target && |t| >= 6 {
          assert target[k] == TCP_SCHEME[k];
        } else if |t| >= 6 {
          assert target[k] == UDP_SCHEME[k];
        }
      }
      assert |SplitTarget(t).addr| == |target| - k;
    }
  }

  // The old header, which the client still accepts: decoded correctly exactly when its
  // length does not begin with the byte of the reverse tag.
  lemma LegacyExact(target: bytes, rest: bytes)
    requires 1 <= |target| <= 4096
    ensures ClientParse(Untagged(target) + rest) == Dial(SplitTarget(target), rest)
       <==> !(512 <= |target| <= 767)
  {
    FirstByte(target, rest);
    TargetExact(target, rest);
    if 512 <= |target| <= 767 {
      Misread(target, rest);
    }
  }

  lemma FirstByte(target: bytes, rest: bytes)
    requires |target| <= MAX_TARGET
    ensures var wire := Untagged(target) + rest;
      wire != [] && wire[0] != FAKE && (wire[0] == REVERSE <==> 512 <= |target| <= 767)
  {
    assert (Untagged(target) + rest)[0] == |target| / 256;
  }

  lemma Misread(target: bytes, rest: bytes)
    requires 512 <= |target| <= 767
    ensures ParseTarget((Untagged(target) + rest)[1..]) != Dial(SplitTarget(target), rest)
  {
    var w := (Untagged(target) + rest)[1..];
    assert w == [|target| % 256] + target + rest;
    var n := Unbe16(w[..2]);
    assert w[..2] == [|target| % 256, target[0]];
    if ParseTarget(w).Dial? && ParseTarget(w).rest == rest {
      assert |w| == 1 + |target| + |rest|;
      assert n == |target| - 1;
      assert w[2..2 + n] == target[1..];
      SuffixDiffers(target, 1);
    }
  }
}
