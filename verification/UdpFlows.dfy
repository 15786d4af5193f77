// The flow table of one reverse UDP listener: a map from peer address to flow, shared
// by the listener, an idle sweeper and one reader goroutine per flow.
module UdpFlows {
  import opened Bytes

  type Addr = string
  type FlowId = nat

  // The reader goroutine: waiting for the stream; holding a datagram it got at some time,
  // before and after sending it to the peer; about to delete its key; finished.
  datatype ReaderAt = Reading | Sending(data: bytes, at: int) | Sent(at: int) | Deleting | Exited {
    predicate Running() {
      !Deleting? && !Exited?
    }
  }

  datatype Flow = Flow(
    addr: Addr,               // the peer this flow was opened for
    open: bool,               // the stream has not been closed by the sweeper
    reader: ReaderAt,
    lastSeen: int,
    up: seq<(Addr, bytes)>,   // datagrams written to the stream, with their sender
    down: seq<(Addr, bytes)>, // datagrams sent back, with their destination
    heard: int)               // history: when a datagram was last taken for it, either way

  // The listener: waiting; holding a datagram looked up at some time; past the touch.
  datatype ListenerAt =
    | Waiting
    | Found(f: FlowId, from: Addr, data: bytes, at: int)
    | Touched(f: FlowId, from: Addr, data: bytes)

  datatype State = State(
    peers: map<Addr, FlowId>,
    flows: map<FlowId, Flow>,
    listener: ListenerAt,
    now: int)

  const START := State(map[], map[], Waiting, 0)

  datatype Action =
    | Tick(d: nat)
    | DatagramKnown(from: Addr, data: bytes)             // under the lock: entry found
    | DatagramNew(from: Addr, data: bytes, f: FlowId)    // under the lock: flow opened, reader started
    | Touch                                              // after the lock: store lastSeen
    | WriteUp(ok: bool)                                  // then write to the stream
    | ReplyRead(f: FlowId, data: bytes)                  // the reader got a datagram from the stream
    | ReplySend(f: FlowId)                               // ... sends it to the peer
    | ReplyTouch(f: FlowId)                              // ... and stores lastSeen
    | ReadError(f: FlowId)                               // the reader leaves its loop
    | DeleteKey(f: FlowId)                               // under the lock: delete by address
    | Evict(a: Addr)                                     // the sweeper, under the lock

  predicate Live(s: State, f: FlowId) {
    f in s.flows && s.flows[f].open && s.flows[f].reader.Running()
  }

  predicate Idle(s: State, a: Addr, timeout: int) {
    a in s.peers && s.peers[a] in s.flows && s.now - s.flows[s.peers[a]].lastSeen > timeout
  }

  predicate Enabled(timeout: int, s: State, a: Action) {
    match a
    case Tick(_) => true
    case DatagramKnown(from, _) => s.listener.Waiting? && from in s.peers
    case DatagramNew(from, _, f) => s.listener.Waiting? && from !in s.peers && f !in s.flows
    case Touch => s.listener.Found? && s.listener.f in s.flows
    case WriteUp(_) => s.listener.Touched? && s.listener.f in s.flows
    case ReplyRead(f, _) => f in s.flows && s.flows[f].reader.Reading?
    case ReplySend(f) => f in s.flows && s.flows[f].reader.Sending?
    case ReplyTouch(f) => f in s.flows && s.flows[f].reader.Sent?
    case ReadError(f) => f in s.flows && s.flows[f].reader.Reading?
    case DeleteKey(f) => f in s.flows && s.flows[f].reader.Deleting?
    case Evict(a) => Idle(s, a, timeout)
  }

  function Set(s: State, f: FlowId, flow: Flow): State {
    s.(flows := s.flows[f := flow])
  }

  // The history field counts a datagram of a flow that is in the table.
  function Hear(s: State, f: FlowId): State {
    if f in s.flows then Set(s, f, s.flows[f].(heard := s.now)) else s
  }

  function Step(s: State, a: Action, timeout: int): State
    requires Enabled(timeout, s, a)
  {
    match a
    case Tick(d) => s.(now := s.now + d)
    case DatagramKnown(from, data) => Hear(s, s.peers[from]).(listener := Found(s.peers[from], from, data, s.now))
    case DatagramNew(from, data, f) =>
      Set(s, f, Flow(from, true, Reading, s.now, [], [], s.now))
        .(peers := s.peers[from := f], listener := Found(f, from, data, s.now))
    case Touch =>
      var l := s.listener;
      Set(s, l.f, s.flows[l.f].(lastSeen := s.now)).(listener := Touched(l.f, l.from, l.data))
    case WriteUp(ok) =>
      var f, flow := s.listener.f, s.flows[s.listener.f];
      var entry := (s.listener.from, s.listener.data);
      Set(s, f, flow.(up := if ok && flow.open then flow.up + [entry] else flow.up)).(listener := Waiting)
    case ReplyRead(f, data) => Set(s, f, s.flows[f].(reader := Sending(data, s.now), heard := s.now))
    case ReplySend(f) =>
      var flow := s.flows[f];
      Set(s, f, flow.(reader := Sent(flow.reader.at), down := flow.down + [(flow.addr, flow.reader.data)]))
    case ReplyTouch(f) => Set(s, f, s.flows[f].(reader := Reading, lastSeen := s.now))
    case ReadError(f) => Set(s, f, s.flows[f].(reader := Deleting))
    case DeleteKey(f) =>
      Set(s, f, s.flows[f].(reader := Exited)).(peers := s.peers - {s.flows[f].addr})
    case Evict(a) =>
      var f := s.peers[a];
      Set(s, f, s.flows[f].(open := false)).(peers := s.peers - {a})
  }

  // The stream carries datagrams from and to one address only.
  ghost predicate OneAddress(flow: Flow) {
    && (forall i | 0 <= i < |flow.up| :: flow.up[i].0 == flow.addr)
    && (forall i | 0 <= i < |flow.down| :: flow.down[i].0 == flow.addr)
  }

  // Each entry leads to a flow of that very address whose stream is open and whose
  // reader has not run its delete.
  ghost predicate EntryOk(s: State, a: Addr) {
    a in s.peers ==>
      && s.peers[a] in s.flows
      && s.flows[s.peers[a]].addr == a
      && s.flows[s.peers[a]].open
      && s.flows[s.peers[a]].reader != Exited
  }

  // The listener or the reader of f holds a datagram taken at that time or later, for
  // which lastSeen has not been stored yet.
  predicate InHand(s: State, f: FlowId, since: int) {
    || (s.listener.Found? && s.listener.f == f && s.listener.at >= since)
    || (f in s.flows && s.flows[f].reader.Sending? && s.flows[f].reader.at >= since)
    || (f in s.flows && s.flows[f].reader.Sent? && s.flows[f].reader.at >= since)
  }

  // The clock a flow is judged by, against its history: it is behind only while the
  // newest datagram is still in hand.
  predicate ClockOk(s: State, f: FlowId) {
    f in s.flows ==>
      var flow := s.flows[f];
      && flow.lastSeen <= s.now && flow.heard <= s.now
      && (flow.heard <= flow.lastSeen || InHand(s, f, flow.heard))
      && !InHand(s, f, flow.heard + 1)
  }

  ghost predicate Inv(s: State) {
    && (forall a :: EntryOk(s, a))
    && (forall f | f in s.flows :: OneAddress(s.flows[f]))
    && (forall f :: ClockOk(s, f))
    && (!s.listener.Waiting? ==>
          s.listener.f in s.flows && s.flows[s.listener.f].addr == s.listener.from)
  }

  lemma StepKeepsEntries(s: State, a: Action, timeout: int)
    requires Inv(s) && Enabled(timeout, s, a)
    ensures forall x :: EntryOk(Step(s, a, timeout), x)
  {
    var s' := Step(s, a, timeout);
    forall x
      ensures EntryOk(s', x)
    {
      assert EntryOk(s, x);
      if a.Evict? {
        assert EntryOk(s, a.a);
      }
    }
  }

  lemma StepKeepsFlows(s: State, a: Action, timeout: int)
    requires Inv(s) && Enabled(timeout, s, a)
    ensures var s' := Step(s, a, timeout);
      && (forall f | f in s'.flows :: OneAddress(s'.flows[f]))
      && (!s'.listener.Waiting? ==>
            s'.listener.f in s'.flows && s'.flows[s'.listener.f].addr == s'.listener.from)
  {
    if a.DatagramKnown? {
      assert EntryOk(s, a.from);
    }
  }

  lemma StepKeepsClocks(s: State, a: Action, timeout: int)
    requires Inv(s) && Enabled(timeout, s, a)
    ensures forall f :: ClockOk(Step(s, a, timeout), f)
  {
    var s' := Step(s, a, timeout);
    if a.DatagramKnown? {
      assert EntryOk(s, a.from);
    }
    forall f
      ensures ClockOk(s', f)
    {
      assert ClockOk(s, f);
    }
  }

  lemma StepKeeps(s: State, a: Action, timeout: int)
    requires Inv(s) && Enabled(timeout, s, a)
    ensures Inv(Step(s, a, timeout))
  {
    StepKeepsEntries(s, a, timeout);
    StepKeepsFlows(s, a, timeout);
    StepKeepsClocks(s, a, timeout);
  }

  ghost predicate Runs(s: State, acts: seq<Action>, timeout: int)
    decreases |acts|
  {
    acts == [] || (Enabled(timeout, s, acts[0]) && Runs(Step(s, acts[0], timeout), acts[1..], timeout))
  }

  ghost function After(s: State, acts: seq<Action>, timeout: int): State
    requires Runs(s, acts, timeout)
    decreases |acts|
  {
    if acts == [] then s else After(Step(s, acts[0], timeout), acts[1..], timeout)
  }

  lemma {:induction false} RunKeeps(s: State, acts: seq<Action>, timeout: int)
    requires Inv(s) && Runs(s, acts, timeout)
    ensures Inv(After(s, acts, timeout))
    decreases |acts|
  {
    if acts != [] {
      StepKeeps(s, acts[0], timeout);
      RunKeeps(Step(s, acts[0], timeout), acts[1..], timeout);
    }
  }

  lemma ReachableInv(acts: seq<Action>, timeout: int)
    requires Runs(START, acts, timeout)
    ensures Inv(After(START, acts, timeout))
  {
    assert Inv(START);
    RunKeeps(START, acts, timeout);
  }

  // In every reachable state entries are sound, and each stream carries the datagrams of
  // one address in both directions.
  lemma FlowTableSafe(acts: seq<Action>, timeout: int, a: Addr, f: FlowId)
    requires Runs(START, acts, timeout)
    ensures var s := After(START, acts, timeout);
      EntryOk(s, a) && (f in s.flows ==> OneAddress(s.flows[f]))
  {
    ReachableInv(acts, timeout);
  }

  // ---------- Which datagrams a flow carries ----------

  // What the reader of f got from its stream in a run, in order.
  function Replies(acts: seq<Action>, f: FlowId): seq<bytes> {
    if acts == [] then []
    else (if acts[0].ReplyRead? && acts[0].f == f then [acts[0].data] else []) + Replies(acts[1..], f)
  }

  // What f has sent back to its peer, and the datagram its reader still holds.
  function Returned(s: State, f: FlowId): seq<bytes> {
    if f !in s.flows then []
    else
      Payloads(s.flows[f].down)
      + (if s.flows[f].reader.Sending? then [s.flows[f].reader.data] else [])
  }

  function Payloads(log: seq<(Addr, bytes)>): seq<bytes> {
    seq(|log|, i requires 0 <= i < |log| => log[i].1)
  }

  lemma PayloadsSnoc(log: seq<(Addr, bytes)>, entry: (Addr, bytes))
    ensures Payloads(log + [entry]) == Payloads(log) + [entry.1]
  {
  }

  lemma ReturnedStep(s: State, a: Action, f: FlowId, timeout: int)
    requires Enabled(timeout, s, a)
    ensures Returned(Step(s, a, timeout), f)
         == Returned(s, f) + (if a.ReplyRead? && a.f == f then [a.data] else [])
  {
    if a.ReplySend? && a.f == f {
      var flow := s.flows[f];
      PayloadsSnoc(flow.down, (flow.addr, flow.reader.data));
    }
  }

  lemma {:induction false} ReturnedExact(s: State, acts: seq<Action>, f: FlowId, timeout: int)
    requires Runs(s, acts, timeout)
    ensures Returned(After(s, acts, timeout), f) == Returned(s, f) + Replies(acts, f)
    decreases |acts|
  {
    if acts != [] {
      var a := acts[0];
      ReturnedStep(s, a, f, timeout);
      ReturnedExact(Step(s, a, timeout), acts[1..], f, timeout);
      ConcatAssociative(Returned(s, f), if a.ReplyRead? && a.f == f then [a.data] else [], Replies(acts[1..], f));
    }
  }

  // The datagram looked up last and the flow it was looked up for, from the actions and
  // the table they met.
  datatype Held = NoDatagram | Datagram(f: FlowId, data: bytes)

  function LookUp(s: State, a: Action, held: Held, timeout: int): Held
    requires Enabled(timeout, s, a)
  {
    match a
    case DatagramKnown(from, data) => Datagram(s.peers[from], data)
    case DatagramNew(from, data, f) => Datagram(f, data)
    case WriteUp(_) => NoDatagram
    case _ => held
  }

  // What should have gone up the stream of f: the looked-up datagrams of f whose write
  // succeeded on a stream that was still open.
  ghost function Uploads(s: State, acts: seq<Action>, held: Held, f: FlowId, timeout: int): seq<bytes>
    requires Runs(s, acts, timeout)
    decreases |acts|
  {
    if acts == [] then []
    else
      var a := acts[0];
      Upload(s, a, held, f) + Uploads(Step(s, a, timeout), acts[1..], LookUp(s, a, held, timeout), f, timeout)
  }

  function Upload(s: State, a: Action, held: Held, f: FlowId): seq<bytes> {
    if a == WriteUp(true) && held.Datagram? && held.f == f && f in s.flows && s.flows[f].open
    then [held.data] else []
  }

  function Uploaded(s: State, f: FlowId): seq<bytes> {
    if f in s.flows then Payloads(s.flows[f].up) else []
  }

  // The listener holds exactly the datagram looked up last.
  predicate HeldOk(s: State, held: Held) {
    match s.listener
    case Waiting => held == NoDatagram
    case Found(f, _, data, _) => held == Datagram(f, data)
    case Touched(f, _, data) => held == Datagram(f, data)
  }

  lemma UploadStep(s: State, a: Action, held: Held, f: FlowId, timeout: int)
    requires Enabled(timeout, s, a) && HeldOk(s, held)
    ensures HeldOk(Step(s, a, timeout), LookUp(s, a, held, timeout))
    ensures Uploaded(Step(s, a, timeout), f) == Uploaded(s, f) + Upload(s, a, held, f)
  {
    if a.WriteUp? && s.listener.f == f {
      PayloadsSnoc(s.flows[f].up, (s.listener.from, s.listener.data));
    }
  }

  lemma {:induction false} UploadedExact(s: State, acts: seq<Action>, held: Held, f: FlowId, timeout: int)
    requires Runs(s, acts, timeout) && HeldOk(s, held)
    ensures Uploaded(After(s, acts, timeout), f) == Uploaded(s, f) + Uploads(s, acts, held, f, timeout)
    decreases |acts|
  {
    if acts != [] {
      var a := acts[0];
      var s', held' := Step(s, a, timeout), LookUp(s, a, held, timeout);
      UploadStep(s, a, held, f, timeout);
      UploadedExact(s', acts[1..], held', f, timeout);
      ConcatAssociative(Uploaded(s, f), Upload(s, a, held, f), Uploads(s', acts[1..], held', f, timeout));
    }
  }

  // In every run a flow has returned exactly the datagrams its reader got, in order, but
  // for the one it is about to send; and its stream has got exactly the datagrams that were
  // looked up for it and written while it was open, in order.
  lemma DatagramsExact(acts: seq<Action>, f: FlowId, timeout: int)
    requires Runs(START, acts, timeout)
    ensures var s := After(START, acts, timeout);
      f in s.flows ==>
        && Payloads(s.flows[f].down)
             + (if s.flows[f].reader.Sending? then [s.flows[f].reader.data] else []) == Replies(acts, f)
        && Payloads(s.flows[f].up) == Uploads(START, acts, NoDatagram, f, timeout)
  {
    ReturnedExact(START, acts, f, timeout);
    UploadedExact(START, acts, NoDatagram, f, timeout);
    assert [] + Replies(acts, f) == Replies(acts, f);
    assert [] + Uploads(START, acts, NoDatagram, f, timeout) == Uploads(START, acts, NoDatagram, f, timeout);
  }

  // When lastSeen of f was stored last: at its creation, at a touch by the listener that
  // holds a datagram of f, or by its reader.
  ghost function TouchedAt(s: State, acts: seq<Action>, held: Held, f: FlowId, last: int, timeout: int): int
    requires Runs(s, acts, timeout)
    decreases |acts|
  {
    if acts == [] then last
    else
      var a := acts[0];
      TouchedAt(Step(s, a, timeout), acts[1..], LookUp(s, a, held, timeout), f,
                if Touches(a, held, f) then s.now else last, timeout)
  }

  predicate Touches(a: Action, held: Held, f: FlowId) {
    || (a.DatagramNew? && a.f == f)
    || (a.Touch? && held.Datagram? && held.f == f)
    || (a.ReplyTouch? && a.f == f)
  }

  function Elapsed(acts: seq<Action>): int {
    if acts == [] then 0 else (if acts[0].Tick? then acts[0].d else 0) + Elapsed(acts[1..])
  }

  lemma TouchStep(s: State, a: Action, held: Held, f: FlowId, last: int, timeout: int)
    requires Enabled(timeout, s, a) && HeldOk(s, held) && (f in s.flows ==> s.flows[f].lastSeen == last)
    ensures var s' := Step(s, a, timeout);
      && (f in s'.flows ==> s'.flows[f].lastSeen == if Touches(a, held, f) then s.now else last)
      && s'.now == s.now + (if a.Tick? then a.d else 0)
  {
  }

  lemma {:induction false} TouchedExact(s: State, acts: seq<Action>, held: Held, f: FlowId, last: int, timeout: int)
    requires Runs(s, acts, timeout) && HeldOk(s, held) && (f in s.flows ==> s.flows[f].lastSeen == last)
    ensures var t := After(s, acts, timeout);
      && (f in t.flows ==> t.flows[f].lastSeen == TouchedAt(s, acts, held, f, last, timeout))
      && t.now == s.now + Elapsed(acts)
    decreases |acts|
  {
    if acts != [] {
      var a := acts[0];
      TouchStep(s, a, held, f, last, timeout);
      UploadStep(s, a, held, f, timeout);
      TouchedExact(Step(s, a, timeout), acts[1..], LookUp(s, a, held, timeout), f,
                   if Touches(a, held, f) then s.now else last, timeout);
    }
  }

  // The clock the sweep reads is the time of the last touch.
  lemma ClockExact(acts: seq<Action>, f: FlowId, timeout: int)
    requires Runs(START, acts, timeout)
    ensures var s := After(START, acts, timeout);
      && s.now == Elapsed(acts)
      && (f in s.flows ==> s.flows[f].lastSeen == TouchedAt(START, acts, NoDatagram, f, 0, timeout))
  {
    TouchedExact(START, acts, NoDatagram, f, 0, timeout);
  }

  // ---------- Does the sweep evict idle flows only? ----------

  // In every run, when the sweep may evict a flow, datagrams of that flow have been taken
  // within the timeout if and only if one of them is still in hand, its lastSeen not
  // stored yet.
  lemma EvictionExact(acts: seq<Action>, timeout: int, a: Addr)
    requires Runs(START, acts, timeout) && Enabled(timeout, After(START, acts, timeout), Evict(a))
    ensures var s := After(START, acts, timeout);
      var f := s.peers[a];
      s.now - s.flows[f].heard <= timeout <==> InHand(s, f, s.now - timeout)
  {
    ReachableInv(acts, timeout);
    var s := After(START, acts, timeout);
    assert ClockOk(s, s.peers[a]);
  }

  lemma RunCons(s: State, a: Action, rest: seq<Action>, timeout: int)
    requires Enabled(timeout, s, a) && Runs(Step(s, a, timeout), rest, timeout)
    ensures Runs(s, [a] + rest, timeout)
    ensures After(s, [a] + rest, timeout) == After(Step(s, a, timeout), rest, timeout)
  {
    assert ([a] + rest)[1..] == rest;
  }

  lemma {:induction false} RunAppend(s: State, a: seq<Action>, b: seq<Action>, timeout: int)
    requires Runs(s, a, timeout) && Runs(After(s, a, timeout), b, timeout)
    ensures Runs(s, a + b, timeout)
    ensures After(s, a + b, timeout) == After(After(s, a, timeout), b, timeout)
    decreases |a|
  {
    if a == [] {
      assert a + b == b;
    } else {
      assert (a + b)[0] == a[0] && (a + b)[1..] == a[1..] + b;
      RunAppend(Step(s, a[0], timeout), a[1..], b, timeout);
    }
  }

  lemma Three(s: State, a: Action, b: Action, c: Action, timeout: int)
    requires Enabled(timeout, s, a)
    requires Enabled(timeout, Step(s, a, timeout), b)
    requires Enabled(timeout, Step(Step(s, a, timeout), b, timeout), c)
    ensures Runs(s, [a, b, c], timeout)
    ensures After(s, [a, b, c], timeout) == Step(Step(Step(s, a, timeout), b, timeout), c, timeout)
  {
    var s1 := Step(s, a, timeout);
    var s2 := Step(s1, b, timeout);
    RunCons(s2, c, [], timeout);
    RunCons(s1, b, [c] + [], timeout);
    RunCons(s, a, [b] + ([c] + []), timeout);
    assert [a, b, c] == [a] + ([b] + ([c] + []));
  }

  // The first peer has been served: its flow is in the table, one datagram went up.
  function Served(from: Addr, data: bytes): State {
    State(map[from := 0], map[0 := Flow(from, true, Reading, 0, [(from, data)], [], 0)], Waiting, 0)
  }

  lemma ToServed(from: Addr, data: bytes, timeout: int)
    ensures Runs(START, [DatagramNew(from, data, 0), Touch, WriteUp(true)], timeout)
    ensures After(START, [DatagramNew(from, data, 0), Touch, WriteUp(true)], timeout) == Served(from, data)
  {
    Three(START, DatagramNew(from, data, 0), Touch, WriteUp(true), timeout);
    assert [] + [(from, data)] == [(from, data)];
  }

  // The datagram comes in after a long pause, and the sweep gets in between the look-up
  // and the touch.
  function PauseThenEvict(from: Addr, next: bytes, idle: nat): seq<Action> {
    [Tick(idle), DatagramKnown(from, next), Evict(from)]
  }

  function Overtaken(from: Addr, first: bytes, next: bytes, now: int): State {
    State(map[], map[0 := Flow(from, false, Reading, 0, [(from, first)], [], now)], Found(0, from, next, now), now)
  }

  lemma ToOvertaken(from: Addr, first: bytes, next: bytes, timeout: nat)
    ensures var s, acts := Served(from, first), PauseThenEvict(from, next, timeout + 1);
      && Runs(s, acts, timeout)
      && After(s, acts, timeout) == Overtaken(from, first, next, timeout + 1)
  {
    var s, acts := Served(from, first), PauseThenEvict(from, next, timeout + 1);
    Three(s, acts[0], acts[1], acts[2], timeout);
    assert acts == [acts[0], acts[1], acts[2]];
    assert After(s, acts, timeout).peers == map[];
  }

  function LossRun(from: Addr, first: bytes, next: bytes, idle: nat): seq<Action> {
    [DatagramNew(from, first, 0), Touch, WriteUp(true)] + PauseThenEvict(from, next, idle) + [Touch, WriteUp(true)]
  }

  // So a flow can be evicted at the very moment its peer speaks again, and that datagram
  // is lost although the listener had found its flow.
  lemma DatagramLost(from: Addr, first: bytes, next: bytes, timeout: nat)
    ensures var acts := LossRun(from, first, next, timeout + 1);
      && Runs(START, acts, timeout)
      && After(START, acts, timeout).listener == Waiting
      && After(START, acts, timeout).peers == map[]
      && After(START, acts, timeout).flows.Keys == {0}
      && After(START, acts, timeout).flows[0].up == [(from, first)]
      && After(START, acts, timeout).flows[0].heard == After(START, acts, timeout).now
  {
    var begin: seq<Action>, middle :=
      [DatagramNew(from, first, 0), Touch, WriteUp(true)], PauseThenEvict(from, next, timeout + 1);
    var s := Overtaken(from, first, next, timeout + 1);
    ToServed(from, first, timeout);
    ToOvertaken(from, first, next, timeout);
    RunAppend(START, begin, middle, timeout);
    var s1 := Step(s, Touch, timeout);
    RunCons(s1, WriteUp(true), [], timeout);
    RunCons(s, Touch, [WriteUp(true)] + [], timeout);
    assert [Touch] + ([WriteUp(true)] + []) == [Touch, WriteUp(true)];
    RunAppend(START, begin + middle, [Touch, WriteUp(true)], timeout);
  }

  // ---------- The converse: is every live flow in the table? ----------

  ghost predicate AllListed(s: State) {
    forall f | Live(s, f) :: s.flows[f].addr in s.peers && s.peers[s.flows[f].addr] == f
  }

  // A delete that removes the entry of another, live flow of the same address.
  predicate Steals(s: State, a: Action) {
    a.DeleteKey? && a.f in s.flows
    && var addr := s.flows[a.f].addr;
       addr in s.peers && s.peers[addr] != a.f && Live(s, s.peers[addr])
  }

  // Exactly this breaks it: a step keeps every live flow listed if and only if it is not
  // a delete by key of somebody else's live entry.
  lemma ListedExact(s: State, a: Action, timeout: int)
    requires Inv(s) && AllListed(s) && Enabled(timeout, s, a)
    ensures AllListed(Step(s, a, timeout)) <==> !Steals(s, a)
  {
    var s' := Step(s, a, timeout);
    if Steals(s, a) {
      var addr := s.flows[a.f].addr;
      var g := s.peers[addr];
      assert Live(s', g) && s'.flows[g].addr == addr && addr !in s'.peers by {
        assert EntryOk(s, addr);
      }
    } else {
      forall f | Live(s', f)
        ensures s'.flows[f].addr in s'.peers && s'.peers[s'.flows[f].addr] == f
      {
        assert f in s.flows ==> EntryOk(s, s.flows[f].addr);
        if f in s.flows {
          assert Live(s, f);
          if a.Evict? {
            assert EntryOk(s, a.a);
          }
        }
      }
    }
  }

  // Over whole runs: as long as every delete meets its own entry or none, every live
  // flow is in the table.
  ghost predicate OwnDeletes(s: State, acts: seq<Action>, timeout: int)
    requires Runs(s, acts, timeout)
    decreases |acts|
  {
    acts == [] || (!Steals(s, acts[0]) && OwnDeletes(Step(s, acts[0], timeout), acts[1..], timeout))
  }

  lemma {:induction false} ListedOverRuns(s: State, acts: seq<Action>, timeout: int)
    requires Inv(s) && AllListed(s) && Runs(s, acts, timeout) && OwnDeletes(s, acts, timeout)
    ensures AllListed(After(s, acts, timeout))
    decreases |acts|
  {
    if acts != [] {
      ListedExact(s, acts[0], timeout);
      StepKeeps(s, acts[0], timeout);
      ListedOverRuns(Step(s, acts[0], timeout), acts[1..], timeout);
    }
  }

  // And the stealing delete does happen: flow 0 is evicted, the peer comes back and gets
  // flow 1, and only then the reader of flow 0 deletes the key.
  function Gone(from: Addr, data: bytes, now: int): State {
    State(map[], map[0 := Flow(from, false, Deleting, 0, [(from, data)], [], 0)], Waiting, now)
  }

  function SweepAndExit(from: Addr, idle: nat): seq<Action> {
    [Tick(idle), Evict(from), ReadError(0)]
  }

  function Return(from: Addr, data: bytes): seq<Action> {
    [DatagramNew(from, data, 1), Touch, WriteUp(true)]
  }

  function OrphanRun(from: Addr, data: bytes, idle: nat): seq<Action> {
    [DatagramNew(from, data, 0), Touch, WriteUp(true)] + SweepAndExit(from, idle) + Return(from, data) + [DeleteKey(0)]
  }

  lemma ToGone(from: Addr, data: bytes, timeout: nat)
    ensures var s, acts := Served(from, data), SweepAndExit(from, timeout + 1);
      && Runs(s, acts, timeout)
      && After(s, acts, timeout) == Gone(from, data, timeout + 1)
  {
    var s, acts := Served(from, data), SweepAndExit(from, timeout + 1);
    Three(s, acts[0], acts[1], acts[2], timeout);
    assert acts == [acts[0], acts[1], acts[2]];
    assert After(s, acts, timeout).peers == map[];
  }

  lemma ToReturned(from: Addr, data: bytes, now: int, timeout: nat)
    ensures var s, acts := Gone(from, data, now), Return(from, data);
      && Runs(s, acts, timeout)
      && var t := After(s, acts, timeout);
         && t.peers == map[from := 1] && t.listener == Waiting && t.flows.Keys == {0, 1}
         && t.flows[0] == s.flows[0]
         && t.flows[1] == Flow(from, true, Reading, now, [(from, data)], [], now)
  {
    var s, acts := Gone(from, data, now), Return(from, data);
    Three(s, acts[0], acts[1], acts[2], timeout);
    assert acts == [acts[0], acts[1], acts[2]];
    assert [] + [(from, data)] == [(from, data)];
  }

  // A flow with an open stream that no entry leads to and no datagram in hand belongs to.
  ghost predicate Orphan(s: State, f: FlowId) {
    && f in s.flows && s.flows[f].open
    && (forall a | a in s.peers :: s.peers[a] != f)
    && (!s.listener.Waiting? ==> s.listener.f != f)
  }

  lemma OrphanReachable(from: Addr, data: bytes, timeout: nat)
    ensures var acts := OrphanRun(from, data, timeout + 1);
      && Runs(START, acts, timeout)
      && Live(After(START, acts, timeout), 1)
      && Orphan(After(START, acts, timeout), 1)
      && !AllListed(After(START, acts, timeout))
  {
    var begin: seq<Action>, sweep, back :=
      [DatagramNew(from, data, 0), Touch, WriteUp(true)], SweepAndExit(from, timeout + 1), Return(from, data);
    ToServed(from, data, timeout);
    ToGone(from, data, timeout);
    ToReturned(from, data, timeout + 1, timeout);
    RunAppend(START, begin, sweep, timeout);
    RunAppend(START, begin + sweep, back, timeout);
    var t := After(START, begin + sweep + back, timeout);
    RunCons(t, DeleteKey(0), [], timeout);
    assert [DeleteKey(0)] + [] == [DeleteKey(0)];
    RunAppend(START, begin + sweep + back, [DeleteKey(0)], timeout);
  }

  lemma OrphanStep(s: State, a: Action, f: FlowId, timeout: int)
    requires Orphan(s, f) && Enabled(timeout, s, a)
    ensures Orphan(Step(s, a, timeout), f)
    ensures Step(s, a, timeout).flows[f].up == s.flows[f].up
  {
  }

  // For good: whatever happens afterwards, no sweep closes such a flow, and no datagram
  // of its peer reaches it again.
  lemma {:induction false} OrphanForever(s: State, acts: seq<Action>, f: FlowId, timeout: int)
    requires Orphan(s, f) && Runs(s, acts, timeout)
    ensures Orphan(After(s, acts, timeout), f)
    ensures After(s, acts, timeout).flows[f].up == s.flows[f].up
    decreases |acts|
  {
    if acts != [] {
      OrphanStep(s, acts[0], f, timeout);
      OrphanForever(Step(s, acts[0], timeout), acts[1..], f, timeout);
    }
  }

  // ---------- The sweep itself ----------

  function Evicts(order: seq<Addr>): seq<Action> {
    if order == [] then [] else Evicts(order[..|order| - 1]) + [Evict(order[|order| - 1])]
  }

  // The table object: the entries and the flows they lead to.
  class FlowTable {
    var peers: map<Addr, FlowId>
    var flows: map<FlowId, Flow>

    constructor ()
      ensures peers == map[] && flows == map[]
    {
      peers, flows := map[], map[];
    }

    // One tick of the sweeper, which visits the entries in some order and deletes while
    // it iterates. It is a run of evictions, one for each idle entry and no other, and
    // together they leave the entries that are not idle.
    method Sweep(now: int, timeout: int, ghost s: State) returns (ghost order: seq<Addr>)
      requires s.peers == peers && s.flows == flows && s.now == now && Inv(s)
      modifies this`peers, this`flows
      ensures Runs(s, Evicts(order), timeout)
      ensures After(s, Evicts(order), timeout) == s.(peers := peers, flows := flows)
      ensures forall k :: k in order <==> Idle(s, k, timeout)
      ensures peers == map k | k in s.peers && !Idle(s, k, timeout) :: s.peers[k]
    {
      var left := peers.Keys;
      order := [];
      SweepStart(s, timeout);
      while left != {}
        invariant SweptTo(s, left, order, peers, flows, timeout)
        decreases left
      {
        var k :| k in left;
        SweepStep(s, left, order, peers, flows, k, timeout);
        var p := peers[k];
        left := left - {k};
        if now - flows[p].lastSeen > timeout {
          flows := flows[p := flows[p].(open := false)];
          peers := peers - {k};
          order := order + [k];
        }
      }
      SweepDone(s, order, peers, flows, timeout);
    }
  }

  predicate SameClocks(a: map<FlowId, Flow>, b: map<FlowId, Flow>) {
    a.Keys == b.Keys && forall f | f in a :: b[f].lastSeen == a[f].lastSeen
  }

  // The sweep on its way: order has been evicted, left has not been looked at.
  ghost predicate SweptTo(s: State, left: set<Addr>, order: seq<Addr>, peers: map<Addr, FlowId>,
                          flows: map<FlowId, Flow>, timeout: int) {
    && left <= s.peers.Keys
    && Runs(s, Evicts(order), timeout)
    && After(s, Evicts(order), timeout) == s.(peers := peers, flows := flows)
    && SameClocks(s.flows, flows)
    && (forall k :: k in order <==> Idle(s, k, timeout) && k !in left)
    && peers == map k | k in s.peers && (k in left || !Idle(s, k, timeout)) :: s.peers[k]
  }

  lemma SweepStart(s: State, timeout: int)
    ensures SweptTo(s, s.peers.Keys, [], s.peers, s.flows, timeout)
  {
    assert s.peers == map k | k in s.peers :: s.peers[k];
  }

  lemma SweepDone(s: State, order: seq<Addr>, peers: map<Addr, FlowId>, flows: map<FlowId, Flow>, timeout: int)
    requires SweptTo(s, {}, order, peers, flows, timeout)
    ensures Runs(s, Evicts(order), timeout)
    ensures After(s, Evicts(order), timeout) == s.(peers := peers, flows := flows)
    ensures forall k :: k in order <==> Idle(s, k, timeout)
    ensures peers == map k | k in s.peers && !Idle(s, k, timeout) :: s.peers[k]
  {
  }

  lemma SweepStep(s: State, left: set<Addr>, order: seq<Addr>, peers: map<Addr, FlowId>,
                  flows: map<FlowId, Flow>, k: Addr, timeout: int)
    requires Inv(s) && SweptTo(s, left, order, peers, flows, timeout) && k in left
    ensures k in peers && peers[k] in flows
    ensures if s.now - flows[peers[k]].lastSeen > timeout
            then SweptTo(s, left - {k}, order + [k], peers - {k},
                         flows[peers[k] := flows[peers[k]].(open := false)], timeout)
            else SweptTo(s, left - {k}, order, peers, flows, timeout)
  {
    assert EntryOk(s, k);
    if s.now - flows[peers[k]].lastSeen > timeout {
      OneEviction(s, order, k, timeout);
      assert peers - {k} == map x | x in s.peers && (x in left - {k} || !Idle(s, x, timeout)) :: s.peers[x];
    }
  }

  lemma OneEviction(s: State, order: seq<Addr>, k: Addr, timeout: int)
    requires Runs(s, Evicts(order), timeout) && Idle(After(s, Evicts(order), timeout), k, timeout)
    ensures Runs(s, Evicts(order + [k]), timeout)
    ensures After(s, Evicts(order + [k]), timeout) == Step(After(s, Evicts(order), timeout), Evict(k), timeout)
  {
    var t := After(s, Evicts(order), timeout);
    assert (order + [k])[..|order|] == order;
    RunCons(t, Evict(k), [], timeout);
    assert [Evict(k)] + [] == [Evict(k)];
    RunAppend(s, Evicts(order), [Evict(k)], timeout);
  }
}
