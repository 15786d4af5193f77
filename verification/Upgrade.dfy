// The HTTP upgrade: two parties exchange heads on a byte stream and then switch to
// tunnel bytes on the same stream. The client keeps what it read ahead, the server
// throws its own read-ahead away.
module Upgrade {
  import opened Bytes
  import opened Transport

  const LF: byte := '\n' as int
  const CR: byte := '\r' as int

  // Where a head ends: just after its first empty line, a line being closed by LF with
  // an optional CR before it. None when no empty line has arrived yet.
  function HeadEnd(s: bytes, lineStart: nat, i: nat): (r: Option<nat>)
    requires lineStart <= i <= |s|
    ensures r.Some? ==> i < r.value <= |s|
    decreases |s| - i
  {
    if i == |s| then None
    else if s[i] != LF then HeadEnd(s, lineStart, i + 1)
    else if i == lineStart || (i == lineStart + 1 && s[lineStart] == CR) then Some(i + 1)
    else HeadEnd(s, i + 1, i + 1)
  }

  function Head(s: bytes): Option<nat> {
    HeadEnd(s, 0, 0)
  }

  // The byte before n closes an empty line: one of nothing, or of a CR alone.
  predicate EmptyLineEnds(s: bytes, n: nat) {
    && 1 <= n <= |s| && s[n - 1] == 10
    && (n == 1 || s[n - 2] == 10 || (s[n - 2] == 13 && (n == 2 || s[n - 3] == 10)))
  }

  lemma {:induction false} HeadEndMeans(s: bytes, lineStart: nat, i: nat)
    requires lineStart <= i <= |s| && (lineStart == 0 || s[lineStart - 1] == LF)
    requires forall k | lineStart <= k < i :: s[k] != LF
    ensures var r := HeadEnd(s, lineStart, i);
      && (r.Some? ==> EmptyLineEnds(s, r.value) && forall n | i < n < r.value :: !EmptyLineEnds(s, n))
      && (r.None? ==> forall n | i < n :: !EmptyLineEnds(s, n))
    decreases |s| - i
  {
    if i < |s| {
      if s[i] != LF {
        HeadEndMeans(s, lineStart, i + 1);
        assert !EmptyLineEnds(s, i + 1);
      } else if !(i == lineStart || (i == lineStart + 1 && s[lineStart] == CR)) {
        HeadEndMeans(s, i + 1, i + 1);
        assert !EmptyLineEnds(s, i + 1);
      }
    }
  }

  // A head ends at its first empty line, whichever of the two line ends is used.
  lemma HeadMeans(s: bytes)
    ensures Head(s).Some? ==>
      EmptyLineEnds(s, Head(s).value) && forall n | 0 <= n < Head(s).value :: !EmptyLineEnds(s, n)
    ensures Head(s).None? ==> forall n :: !EmptyLineEnds(s, n)
  {
    HeadEndMeans(s, 0, 0);
  }

  // A header line: not empty and free of line ends.
  predicate Line(l: bytes) {
    l != [] && LF !in l && CR !in l
  }

  function Text(lines: seq<bytes>): bytes {
    if lines == [] then [CR, LF] else lines[0] + [CR, LF] + Text(lines[1..])
  }

  // The scan of one line reaches its line end.
  lemma {:induction false} SkipLine(s: bytes, lineStart: nat, i: nat, end: nat)
    requires lineStart <= i <= end < |s| && s[end] == LF
    requires forall k | i <= k < end :: s[k] != LF
    ensures HeadEnd(s, lineStart, i) == HeadEnd(s, lineStart, end)
    decreases end - i
  {
    if i < end {
      SkipLine(s, lineStart, i + 1, end);
    }
  }

  // A head made of lines ends exactly where it should, whatever follows it.
  lemma {:induction false} HeadOfText(before: bytes, lines: seq<bytes>, rest: bytes)
    requires forall i | 0 <= i < |lines| :: Line(lines[i])
    ensures HeadEnd(before + Text(lines) + rest, |before|, |before|) == Some(|before| + |Text(lines)|)
    decreases |lines|
  {
    var s := before + Text(lines) + rest;
    var start := |before|;
    if lines == [] {
      assert s[start] == CR && s[start + 1] == LF;
    } else {
      var l := lines[0];
      var end := start + |l| + 1;
      assert s[start..end + 1] == l + [CR, LF];
      assert forall k | start <= k < start + |l| :: s[k] == s[start..end + 1][k - start] == l[k - start];
      assert s[end - 1] == CR && s[end] == LF;
      SkipLine(s, start, start, end);
      var before' := before + (l + [CR, LF]);
      assert s == before' + Text(lines[1..]) + rest;
      HeadOfText(before', lines[1..], rest);
    }
  }

  lemma HeadExact(lines: seq<bytes>, rest: bytes)
    requires forall i | 0 <= i < |lines| :: Line(lines[i])
    ensures Head(Text(lines) + rest) == Some(|Text(lines)|)
  {
    HeadOfText([], lines, rest);
    assert [] + Text(lines) + rest == Text(lines) + rest;
  }

  // A head is recognised only when its last byte has arrived.
  lemma {:induction false} HeadGrows(s: bytes, more: bytes, lineStart: nat, i: nat)
    requires lineStart <= i <= |s|
    ensures HeadEnd(s, lineStart, i).Some? ==> HeadEnd(s + more, lineStart, i) == HeadEnd(s, lineStart, i)
    decreases |s| - i
  {
    if i < |s| {
      assert (s + more)[i] == s[i];
      if s[i] == LF {
        HeadGrows(s, more, i + 1, i + 1);
      } else {
        HeadGrows(s, more, lineStart, i + 1);
      }
    }
  }

  lemma HeadStable(s: bytes, more: bytes)
    ensures Head(s).Some? ==> Head(s + more) == Head(s)
  {
    HeadGrows(s, more, 0, 0);
  }

  // ---------- The reader that keeps its read-ahead ----------

  class BufferedConn {
    const conn: NetConn
    var buf: bytes      // read from the socket, not yet consumed

    constructor (conn: NetConn)
      ensures this.conn == conn && buf == []
    {
      this.conn, buf := conn, [];
    }

    // Everything still to be read through this connection, in order.
    ghost function Pending(): bytes
      reads this, conn
    {
      buf + conn.inbox
    }

    // Reads a head: fills the buffer in segments of at most size bytes until an empty
    // line is in it. Whatever was read past the head stays in the buffer.
    method ReadHead(size: nat) returns (head: bytes, ok: bool)
      requires size > 0
      modifies this`buf, conn`inbox
      ensures head + Pending() == old(Pending())
      ensures ok ==> Head(head) == Some(|head|) == Head(old(Pending()))
      ensures !ok ==> head == [] && Head(old(Pending())).None?
    {
      ghost var all := Pending();
      while Head(buf).None?
        invariant Pending() == all
        decreases |conn.inbox|
      {
        ghost var b, i := buf, conn.inbox;
        var chunk, more := conn.Read(size);
        if !more {
          assert buf + [] == buf;
          return [], false;
        }
        ConcatAssociative(b, chunk, conn.inbox);
        buf := buf + chunk;
      }
      var n := Head(buf).value;
      HeadStable(buf, conn.inbox);
      head, ok := buf[..n], true;
      HeadPrefix(buf, n);
      assert buf == buf[..n] + buf[n..];
      ConcatAssociative(buf[..n], buf[n..], conn.inbox);
      buf := buf[n..];
    }

    // bufio.Reader.Read: from the buffer first, then from the socket.
    method Read(space: nat) returns (out: bytes, ok: bool)
      requires space > 0
      modifies this`buf, conn`inbox
      ensures out + Pending() == old(Pending())
      ensures ok <==> old(Pending()) != []
      ensures ok ==> 0 < |out| <= space
    {
      if |buf| > 0 {
        var n := Min(space, |buf|);
        out, ok := buf[..n], true;
        assert buf == buf[..n] + buf[n..];
        ConcatAssociative(buf[..n], buf[n..], conn.inbox);
        buf := buf[n..];
        return;
      }
      out, ok := conn.Read(space);
      assert buf + conn.inbox == conn.inbox && old(buf + conn.inbox) == old(conn.inbox);
    }
  }

  // The head found in a buffer is a head by itself.
  lemma {:induction false} HeadCut(s: bytes, lineStart: nat, i: nat, n: nat)
    requires lineStart <= i <= |s| && HeadEnd(s, lineStart, i) == Some(n)
    ensures n <= |s| && i <= n && HeadEnd(s[..n], lineStart, i) == Some(n)
    decreases |s| - i
  {
    assert i < |s|;
    if s[i] != LF {
      HeadCut(s, lineStart, i + 1, n);
    } else if !(i == lineStart || (i == lineStart + 1 && s[lineStart] == CR)) {
      HeadCut(s, i + 1, i + 1, n);
    }
  }

  lemma HeadPrefix(s: bytes, n: nat)
    requires Head(s) == Some(n)
    ensures n <= |s| && Head(s[..n]) == Some(n)
  {
    HeadCut(s, 0, 0, n);
  }

  // ---------- The two-party protocol ----------

  datatype ClientAt = SendsRequest | AwaitsHead | ClientTunnel
  datatype ServerAt = AwaitsRequest | Hijacked | ServerTunnel

  datatype State = State(
    client: ClientAt,
    server: ServerAt,
    up: bytes,            // on the wire, client to server
    down: bytes,          // on the wire, server to client
    serverBuf: bytes,     // read by the HTTP server before the hijack
    clientBuf: bytes,     // the client's bufio buffer
    discarded: bytes,     // what the hijack threw away
    upSent: bytes,        // tunnel bytes the client has sent
    upGot: bytes,         // tunnel bytes the server's tunnel has read
    downSent: bytes,      // tunnel bytes the server has sent
    downGot: bytes)       // tunnel bytes the client's tunnel has read

  const START := State(SendsRequest, AwaitsRequest, [], [], [], [], [], [], [], [], [])

  datatype Action =
    | SendRequest
    | ServerFill(k: nat)       // the HTTP server reads ahead
    | Hijack                   // a whole request head is in the buffer
    | Send101
    | ClientFill(k: nat)       // bufio reads ahead
    | FinishHead               // a whole 101 head is in the buffer
    | ClientSend(b: bytes)
    | ServerSend(b: bytes)
    | ServerRead(k: nat)       // the server's tunnel reads the raw connection
    | ClientRead(k: nat)       // the client's tunnel reads the buffered connection

  datatype Heads = Heads(request: seq<bytes>, response: seq<bytes>)

  ghost predicate WellFormed(h: Heads) {
    && (forall i | 0 <= i < |h.request| :: Line(h.request[i]))
    && (forall i | 0 <= i < |h.response| :: Line(h.response[i]))
  }

  predicate Enabled(s: State, a: Action) {
    match a
    case SendRequest => s.client.SendsRequest?
    case ServerFill(k) => s.server.AwaitsRequest? && k <= |s.up|
    case Hijack => s.server.AwaitsRequest? && Head(s.serverBuf).Some?
    case Send101 => s.server.Hijacked?
    case ClientFill(k) => !s.client.SendsRequest? && k <= |s.down|
    case FinishHead => s.client.AwaitsHead? && Head(s.clientBuf).Some?
    case ClientSend(_) => s.client.ClientTunnel?
    case ServerSend(_) => s.server.ServerTunnel?
    case ServerRead(k) => s.server.ServerTunnel? && k <= |s.up|
    case ClientRead(k) => s.client.ClientTunnel? && k <= |s.clientBuf|
  }

  function Step(h: Heads, s: State, a: Action): State
    requires Enabled(s, a)
  {
    match a
    case SendRequest => s.(client := AwaitsHead, up := s.up + Text(h.request))
    case ServerFill(k) => s.(serverBuf := s.serverBuf + s.up[..k], up := s.up[k..])
    case Hijack => s.(server := Hijacked, discarded := s.serverBuf[Head(s.serverBuf).value..], serverBuf := [])
    case Send101 => s.(server := ServerTunnel, down := s.down + Text(h.response))
    case ClientFill(k) => s.(clientBuf := s.clientBuf + s.down[..k], down := s.down[k..])
    case FinishHead => s.(client := ClientTunnel, clientBuf := s.clientBuf[Head(s.clientBuf).value..])
    case ClientSend(b) => s.(up := s.up + b, upSent := s.upSent + b)
    case ServerSend(b) => s.(down := s.down + b, downSent := s.downSent + b)
    case ServerRead(k) => s.(upGot := s.upGot + s.up[..k], up := s.up[k..])
    case ClientRead(k) => s.(downGot := s.downGot + s.clientBuf[..k], clientBuf := s.clientBuf[k..])
  }

  // Client to server: nothing before the request; then the request, in the HTTP server's
  // hands; after the hijack tunnel bytes only, and only once the 101 was written.
  ghost predicate UpInv(h: Heads, s: State) {
    && s.discarded == []
    && (s.client.SendsRequest? ==> s.up == [] && s.serverBuf == [] && s.server.AwaitsRequest?)
    && (!s.client.ClientTunnel? ==> s.upSent == [])
    && (!s.client.SendsRequest? && s.server.AwaitsRequest? ==> s.serverBuf + s.up == Text(h.request))
    && (!s.server.AwaitsRequest? ==> s.serverBuf == [] && s.upGot + s.up == s.upSent)
    && (!s.server.ServerTunnel? ==> s.upGot == [])
    && (s.client.ClientTunnel? ==> s.server.ServerTunnel?)
  }

  // Server to client: the 101 head, then tunnel bytes; buffer and wire together hold
  // exactly what the client has not consumed.
  ghost predicate DownInv(h: Heads, s: State) {
    && (!s.server.ServerTunnel? ==> s.clientBuf == [] && s.down == [] && s.downSent == [])
    && (!s.client.ClientTunnel? ==> s.downGot == [])
    && (s.server.ServerTunnel? && !s.client.ClientTunnel? ==>
          s.clientBuf + s.down == Text(h.response) + s.downSent)
    && (s.client.ClientTunnel? ==> s.downGot + (s.clientBuf + s.down) == s.downSent)
  }

  ghost predicate Inv(h: Heads, s: State) {
    UpInv(h, s) && DownInv(h, s)
  }

  // Moving k bytes from the front of b to the end of a keeps a + b.
  lemma Shift(a: bytes, b: bytes, k: nat)
    requires k <= |b|
    ensures (a + b[..k]) + b[k..] == a + b
  {
    assert b == b[..k] + b[k..];
  }

  lemma StepUp(h: Heads, s: State, a: Action)
    requires WellFormed(h) && Inv(h, s) && Enabled(s, a)
    ensures UpInv(h, Step(h, s, a))
  {
    match a
    case SendRequest => assert [] + Text(h.request) == Text(h.request);
    case ServerFill(k) => Shift(s.serverBuf, s.up, k);
    case Hijack =>
      assert !s.client.SendsRequest?;
      HeadExact(h.request, []);
      assert Text(h.request) + [] == Text(h.request);
      HeadStable(s.serverBuf, s.up);
      assert s.up == [];
      assert [] + s.up == s.up;
    case ClientSend(b) => ConcatAssociative(s.upGot, s.up, b);
    case ServerRead(k) => Shift(s.upGot, s.up, k);
    case FinishHead => assert Head([]).None?;
    case _ =>
  }

  lemma StepDown(h: Heads, s: State, a: Action)
    requires WellFormed(h) && Inv(h, s) && Enabled(s, a)
    ensures DownInv(h, Step(h, s, a))
  {
    match a
    case Send101 => assert [] + ([] + Text(h.response)) == Text(h.response) + [];
    case ClientFill(k) => Shift(s.clientBuf, s.down, k);
    case FinishHead =>
      assert Head([]).None?;
      HeadExact(h.response, s.downSent);
      HeadStable(s.clientBuf, s.down);
      TakeHead(Text(h.response), s.downSent, s.clientBuf, s.down);
    case ServerSend(b) =>
      ConcatAssociative(s.clientBuf, s.down, b);
      ConcatAssociative(Text(h.response), s.downSent, b);
      ConcatAssociative(s.downGot, s.clientBuf + s.down, b);
    case ClientRead(k) =>
      Shift(s.downGot, s.clientBuf, k);
      ConcatAssociative(s.downGot, s.clientBuf, s.down);
      ConcatAssociative(s.downGot + s.clientBuf[..k], s.clientBuf[k..], s.down);
    case _ =>
  }

  lemma TakeHead(head: bytes, tail: bytes, buf: bytes, wire: bytes)
    requires buf + wire == head + tail && |head| <= |buf|
    ensures [] + (buf[|head|..] + wire) == tail
  {
    assert (buf + wire)[|head|..] == buf[|head|..] + wire;
    assert (head + tail)[|head|..] == tail;
  }

  ghost predicate Runs(h: Heads, s: State, acts: seq<Action>)
    decreases |acts|
  {
    acts == [] || (Enabled(s, acts[0]) && Runs(h, Step(h, s, acts[0]), acts[1..]))
  }

  ghost function After(h: Heads, s: State, acts: seq<Action>): State
    requires Runs(h, s, acts)
    decreases |acts|
  {
    if acts == [] then s else After(h, Step(h, s, acts[0]), acts[1..])
  }

  lemma {:induction false} RunKeeps(h: Heads, s: State, acts: seq<Action>)
    requires WellFormed(h) && Inv(h, s) && Runs(h, s, acts)
    ensures Inv(h, After(h, s, acts))
    decreases |acts|
  {
    if acts != [] {
      StepUp(h, s, acts[0]);
      StepDown(h, s, acts[0]);
      RunKeeps(h, Step(h, s, acts[0]), acts[1..]);
    }
  }

  // What the two tunnels were given to send in a run.
  function Given(acts: seq<Action>, client: bool): bytes {
    if acts == [] then []
    else
      (match acts[0]
       case ClientSend(b) => if client then b else []
       case ServerSend(b) => if client then [] else b
       case _ => [])
      + Given(acts[1..], client)
  }

  lemma {:induction false} GivenExact(h: Heads, s: State, acts: seq<Action>)
    requires Runs(h, s, acts)
    ensures After(h, s, acts).upSent == s.upSent + Given(acts, true)
    ensures After(h, s, acts).downSent == s.downSent + Given(acts, false)
    decreases |acts|
  {
    if acts != [] {
      var s' := Step(h, s, acts[0]);
      GivenExact(h, s', acts[1..]);
      ConcatAssociative(s.upSent, if acts[0].ClientSend? then acts[0].b else [], Given(acts[1..], true));
      ConcatAssociative(s.downSent, if acts[0].ServerSend? then acts[0].b else [], Given(acts[1..], false));
    }
  }

  // No tunnel byte is lost in either direction, in any run: what the hijack throws away
  // is empty, what the server's tunnel has read continues on the wire, and on the client
  // read-ahead and socket together are exactly the bytes after the 101 head.
  lemma UpgradeLosesNothing(h: Heads, acts: seq<Action>)
    requires WellFormed(h) && Runs(h, START, acts)
    ensures var s := After(h, START, acts);
      && s.discarded == []
      && (s.server.ServerTunnel? ==> s.upGot + s.up == s.upSent)
      && (s.client.ClientTunnel? ==> s.downGot + (s.clientBuf + s.down) == s.downSent)
      && s.upSent == Given(acts, true) && s.downSent == Given(acts, false)
      && s.upGot <= Given(acts, true) && s.downGot <= Given(acts, false)
  {
    assert Inv(h, START);
    RunKeeps(h, START, acts);
    GivenExact(h, START, acts);
  }

  lemma RunCons(h: Heads, s: State, a: Action, rest: seq<Action>)
    requires Enabled(s, a) && Runs(h, Step(h, s, a), rest)
    ensures Runs(h, s, [a] + rest)
    ensures After(h, s, [a] + rest) == After(h, Step(h, s, a), rest)
  {
    assert ([a] + rest)[1..] == rest;
  }

  // The upgrade in one go, the server's first bytes arriving together with its 101.
  function Handshake(h: Heads, first: bytes): seq<Action> {
    [SendRequest] + ([ServerFill(|Text(h.request)|)] + ([Hijack] + ([Send101] + Reply(h, first))))
  }

  function Reply(h: Heads, first: bytes): seq<Action> {
    [ServerSend(first)] + ([ClientFill(|Text(h.response) + first|)] + ([FinishHead] + ([ClientRead(|first|)] + [])))
  }

  function Upgraded(h: Heads): State {
    START.(client := AwaitsHead, server := ServerTunnel, down := Text(h.response))
  }

  lemma ReplyRun(h: Heads, first: bytes)
    requires WellFormed(h)
    ensures var s, acts := Upgraded(h), Reply(h, first);
      && Runs(h, s, acts)
      && After(h, s, acts).client.ClientTunnel? && After(h, s, acts).server.ServerTunnel?
      && After(h, s, acts).downGot == first
  {
    var s, all := Upgraded(h), Text(h.response) + first;
    var s1 := Step(h, s, ServerSend(first));
    var s2 := Step(h, s1, ClientFill(|all|));
    assert all[..|all|] == all && [] + all == all;
    assert s2.clientBuf == all;
    HeadExact(h.response, first);
    var s3 := Step(h, s2, FinishHead);
    assert s3.clientBuf == all[|Text(h.response)|..] == first;
    RunCons(h, s3, ClientRead(|first|), []);
    RunCons(h, s2, FinishHead, [ClientRead(|first|)] + []);
    RunCons(h, s1, ClientFill(|all|), [FinishHead] + ([ClientRead(|first|)] + []));
    RunCons(h, s, ServerSend(first), [ClientFill(|all|)] + ([FinishHead] + ([ClientRead(|first|)] + [])));
  }

  // And the protocol does get there: some run brings both ends into the tunnel, with bytes
  // read ahead behind the 101 delivered.
  lemma UpgradeReached(h: Heads, first: bytes)
    requires WellFormed(h)
    ensures Runs(h, START, Handshake(h, first))
    ensures var s := After(h, START, Handshake(h, first));
      s.client.ClientTunnel? && s.server.ServerTunnel? && s.downGot == first
  {
    var text := Text(h.request);
    ReplyRun(h, first);
    var s1 := Step(h, START, SendRequest);
    assert s1.up == [] + text == text;
    var s2 := Step(h, s1, ServerFill(|text|));
    assert s2.serverBuf == [] + text[..|text|] == text && s2.up == text[|text|..] == [];
    HeadExact(h.request, []);
    assert text + [] == text;
    var s3 := Step(h, s2, Hijack);
    assert s3.discarded == text[|text|..] == [];
    assert Step(h, s3, Send101).down == [] + Text(h.response) == Text(h.response);
    assert Step(h, s3, Send101) == Upgraded(h);
    RunCons(h, s3, Send101, Reply(h, first));
    RunCons(h, s2, Hijack, [Send101] + Reply(h, first));
    RunCons(h, s1, ServerFill(|text|), [Hijack] + ([Send101] + Reply(h, first)));
    RunCons(h, START, SendRequest, [ServerFill(|text|)] + ([Hijack] + ([Send101] + Reply(h, first))));
  }

  // The ordering is what saves the upward direction: had the client pipelined bytes x
  // behind its request, the hijack would have thrown away exactly x.
  lemma HijackDiscards(h: Heads, s: State, x: bytes)
    requires WellFormed(h) && s.server.AwaitsRequest? && s.serverBuf == Text(h.request) + x
    ensures Enabled(s, Hijack) && Step(h, s, Hijack).discarded == x
  {
    HeadExact(h.request, x);
    assert (Text(h.request) + x)[|Text(h.request)|..] == x;
  }
}
