// Whole runs of one direction of an encrypted connection: writers that take turns
// under the write lock, one reader, and the wire between them.
module StreamRun {
  import opened Bytes
  import opened EncryptedStream
  import opened Framing
  import opened Packet
  import opened Padding

  // The Write call that holds the lock: its data, and how much is on the wire.
  datatype Current = Current(data: bytes, sent: nat, packets: nat)

  datatype State = State(
    log: seq<bytes>,        // the data of finished Writes, in lock order
    cur: Option<Current>,
    wire: bytes,            // written, not yet taken by the reader
    readBuf: bytes,
    delivered: bytes,       // everything Read has returned
    broken: bool,           // a write failed; nothing is written any more
    dead: bool)             // a read failed; nothing is read any more

  const START := State([], None, [], [], [], false, false)

  datatype Action =
    | Begin(data: bytes)                     // take the lock
    | Chunk(size: nat, ch: Choice)           // one packet, fully written
    | Cut(size: nat, ch: Choice, k: nat)     // one packet, of which k bytes got out
    | End                                    // release the lock
    | Read(space: nat)

  // Which chunk the code may send next: the whole data, or a burst chunk.
  predicate NextChunk(m: Mode, c: Current, size: nat) {
    var remaining := |c.data| - c.sent;
    if Bursts(m, |c.data|) then ChunkFits(m.stealth.value.maxBurst, remaining, size)
    else c.packets == 0 && c.sent == 0 && size == |c.data|
  }

  predicate Finished(m: Mode, c: Current) {
    c.sent == |c.data| && (Bursts(m, |c.data|) || c.packets == 1)
  }

  predicate Enabled(m: Mode, s: State, a: Action) {
    match a
    case Begin(_) => s.cur.None? && !s.broken
    case Chunk(size, ch) => s.cur.Some? && !s.broken && NextChunk(m, s.cur.value, size)
    case Cut(size, ch, k) => s.cur.Some? && !s.broken && NextChunk(m, s.cur.value, size)
    case End => s.cur.Some? && !s.broken && Finished(m, s.cur.value)
    case Read(_) => !s.dead
  }

  function ChunkData(s: State, size: nat): bytes
    requires s.cur.Some?
  {
    var c := s.cur.value;
    if c.sent + size <= |c.data| then c.data[c.sent..c.sent + size] else []
  }

  function Step(m: Mode, s: State, a: Action): State
    requires Enabled(m, s, a)
  {
    match a
    case Begin(data) => s.(cur := Some(Current(data, 0, 0)))
    case Chunk(size, ch) =>
      var c := s.cur.value;
      s.(cur := Some(Current(c.data, c.sent + size, c.packets + 1)),
         wire := s.wire + Encode(m, ChunkData(s, size), ch))
    case Cut(size, ch, k) =>
      var packet := Encode(m, ChunkData(s, size), ch);
      s.(broken := true, wire := s.wire + packet[..Min(k, |packet|)])
    case End => s.(log := s.log + [s.cur.value.data], cur := None)
    case Read(space) =>
      match Take(m, s.readBuf, s.wire, space)
      case Delivered(out, readBuf, inbox) =>
        s.(delivered := s.delivered + out, readBuf := readBuf, wire := inbox)
      case _ => s.(dead := true)
  }

  // A packet whose payload is in the round-trip domain of the mode.
  predicate Faithful(m: Mode, s: State, a: Action) {
    match a
    case Chunk(size, ch) => s.cur.Some? ==>
      ValidChoice(ch) && InDomain(m, ChunkData(s, size), |ch.pad|)
    case Cut(size, ch, k) => s.cur.Some? ==>
      ValidChoice(ch) && InDomain(m, ChunkData(s, size), |ch.pad|)
    case _ => true
  }

  // acts can be run from s, every packet in its domain
  ghost predicate Runs(m: Mode, s: State, acts: seq<Action>)
    decreases |acts|
  {
    acts == [] ||
    (Enabled(m, s, acts[0]) && Faithful(m, s, acts[0]) && Runs(m, Step(m, s, acts[0]), acts[1..]))
  }

  ghost function After(m: Mode, s: State, acts: seq<Action>): State
    requires Runs(m, s, acts)
    decreases |acts|
  {
    if acts == [] then s else After(m, Step(m, s, acts[0]), acts[1..])
  }

  // What the writers have been promised, and what they have asked for.
  function Accepted(s: State): bytes {
    Flatten(s.log) +
    (if s.cur.Some? && s.cur.value.sent <= |s.cur.value.data|
     then s.cur.value.data[..s.cur.value.sent] else [])
  }

  function Attempted(s: State): bytes {
    Flatten(s.log) + (if s.cur.Some? then s.cur.value.data else [])
  }

  // delivered ++ readBuf ++ the packets in flight
  function Held(m: Mode, s: State): bytes {
    s.delivered + s.readBuf + Flatten(ScanWire(Reader(m), s.wire).messages)
  }

  ghost predicate Inv(m: Mode, s: State) {
    && (s.cur.Some? ==> s.cur.value.sent <= |s.cur.value.data|)
    && (s.broken ==> s.cur.Some?)
    && (if s.dead then s.delivered <= Attempted(s)
        else
          var stop := ScanWire(Reader(m), s.wire).stop;
          && stop != Broken
          && Accepted(s) <= Held(m, s) <= Attempted(s)
          && (!s.broken ==> stop == Clean && Held(m, s) == Accepted(s)))
    && (!s.broken ==> s.delivered <= Accepted(s))
  }

  lemma ChunkAccepted(m: Mode, s: State, size: nat)
    requires s.cur.Some? && s.cur.value.sent <= |s.cur.value.data| && NextChunk(m, s.cur.value, size)
    ensures var c := s.cur.value;
      && c.sent + size <= |c.data|
      && Accepted(s.(cur := Some(Current(c.data, c.sent + size, c.packets + 1))))
         == Accepted(s) + ChunkData(s, size)
      && Accepted(s) + ChunkData(s, size) <= Attempted(s)
  {
    var c := s.cur.value;
    assert c.data[..c.sent + size] == c.data[..c.sent] + ChunkData(s, size);
    ConcatAssociative(Flatten(s.log), c.data[..c.sent], ChunkData(s, size));
    assert c.data == c.data[..c.sent + size] + c.data[c.sent + size..];
  }

  // One more packet on a clean wire is one more message at the end.
  lemma HeldGrows(m: Mode, s: State, data: bytes, ch: Choice)
    requires m.Lawful() && ScanWire(Reader(m), s.wire).stop == Clean
    requires ValidChoice(ch) && InDomain(m, data, |ch.pad|)
    ensures ScanWire(Reader(m), s.wire + Encode(m, data, ch)).stop == Clean
    ensures Held(m, s.(wire := s.wire + Encode(m, data, ch))) == Held(m, s) + data
  {
    var next, packet := Reader(m), Encode(m, data, ch);
    ReaderSound(m);
    ScanOneExact(m, data, ch);
    ScanAppend(next, s.wire, packet);
    FlattenSnoc(ScanWire(next, s.wire).messages, data);
    ConcatAssociative(s.delivered + s.readBuf, Flatten(ScanWire(next, s.wire).messages), data);
  }

  // The domain is exact in every state of a run: a packet adds its own data and nothing
  // else to what the reader will get, if and only if it is in the domain.
  lemma ChunkExact(m: Mode, s: State, size: nat, ch: Choice)
    requires m.Lawful() && Inv(m, s) && !s.dead && ValidChoice(ch) && Enabled(m, s, Chunk(size, ch))
    ensures var next, s' := Reader(m), Step(m, s, Chunk(size, ch));
      InDomain(m, ChunkData(s, size), |ch.pad|) <==>
        && ScanWire(next, s'.wire).stop == Clean
        && ScanWire(next, s'.wire).messages == ScanWire(next, s.wire).messages + [ChunkData(s, size)]
        && ScanWire(next, s'.wire).used == |s'.wire|
  {
    var next, data := Reader(m), ChunkData(s, size);
    var packet := Encode(m, data, ch);
    ReaderSound(m);
    ScanOneExact(m, data, ch);
    ScanAppend(next, s.wire, packet);
    SameTail(ScanWire(next, s.wire).messages, ScanWire(next, packet).messages, [data]);
  }

  lemma SameTail(a: seq<bytes>, b: seq<bytes>, c: seq<bytes>)
    ensures a + b == a + c <==> b == c
  {
    assert (a + b)[|a|..] == b && (a + c)[|a|..] == c;
  }

  lemma ChunkKeeps(m: Mode, s: State, size: nat, ch: Choice)
    requires m.Lawful() && Inv(m, s) && Enabled(m, s, Chunk(size, ch)) && Faithful(m, s, Chunk(size, ch))
    ensures Inv(m, Step(m, s, Chunk(size, ch)))
  {
    ChunkAccepted(m, s, size);
    if !s.dead {
      HeldGrows(m, s, ChunkData(s, size), ch);
    }
  }

  lemma CutKeeps(m: Mode, s: State, size: nat, ch: Choice, k: nat)
    requires m.Lawful() && Inv(m, s) && Enabled(m, s, Cut(size, ch, k)) && Faithful(m, s, Cut(size, ch, k))
    ensures Inv(m, Step(m, s, Cut(size, ch, k)))
  {
    var data, s' := ChunkData(s, size), Step(m, s, Cut(size, ch, k));
    var next, packet := Reader(m), Encode(m, data, ch);
    ChunkAccepted(m, s, size);
    assert s.delivered <= Attempted(s);
    if !s.dead {
      if k >= |packet| {
        assert packet[..Min(k, |packet|)] == packet;
        HeldGrows(m, s, data, ch);
      } else {
        PacketFrames(m, data, ch);
        ReaderSound(m);
        ScanAppend(next, s.wire, packet[..k]);
        assert next(packet[..k]) == Need;
        assert ScanWire(next, packet[..k]).messages == [];
        assert ScanWire(next, s'.wire).messages == ScanWire(next, s.wire).messages;
      }
    }
  }

  // Handing out the first n bytes of b keeps the order.
  lemma HandOut(a: bytes, b: bytes, n: nat, rest: bytes)
    requires n <= |b|
    ensures (a + b[..n]) + b[n..] + rest == a + b + rest
    ensures (a + b[..n]) + b[n..] + rest == (a + []) + (b + rest)
  {
    assert b == b[..n] + b[n..];
  }

  // A Read moves bytes along; it neither loses, adds nor reorders any.
  lemma ReadMoves(m: Mode, s: State, space: nat)
    requires Take(m, s.readBuf, s.wire, space).Delivered?
    requires !s.dead && ScanWire(Reader(m), s.wire).stop != Broken
    ensures var s' := Step(m, s, Read(space));
      && Held(m, s') == Held(m, s)
      && ScanWire(Reader(m), s'.wire).stop == ScanWire(Reader(m), s.wire).stop
  {
    var next := Reader(m);
    ReaderSound(m);
    if s.readBuf != [] {
      HandOut(s.delivered, s.readBuf, Min(space, |s.readBuf|), Flatten(ScanWire(next, s.wire).messages));
    } else {
      var d, rest := next(s.wire).data, next(s.wire).rest;
      var tail := ScanWire(next, rest).messages;
      assert Stable(next, s.wire, []);
      assert ([d] + tail)[1..] == tail;
      HandOut(s.delivered, d, Min(space, |d|), Flatten(tail));
    }
  }

  lemma ReadKeeps(m: Mode, s: State, space: nat)
    requires Inv(m, s) && Enabled(m, s, Read(space))
    ensures Inv(m, Step(m, s, Read(space)))
  {
    var s' := Step(m, s, Read(space));
    assert s.delivered <= Held(m, s);
    if !s'.dead {
      ReadMoves(m, s, space);
      assert s'.delivered <= Held(m, s');
    }
  }

  lemma StepKeeps(m: Mode, s: State, a: Action)
    requires m.Lawful() && Inv(m, s) && Enabled(m, s, a) && Faithful(m, s, a)
    ensures Inv(m, Step(m, s, a))
  {
    match a
    case Begin(data) =>
      assert Accepted(Step(m, s, a)) == Accepted(s);
      assert Attempted(s) <= Attempted(Step(m, s, a));
    case Chunk(size, ch) => ChunkKeeps(m, s, size, ch);
    case Cut(size, ch, k) => CutKeeps(m, s, size, ch, k);
    case End =>
      var c := s.cur.value;
      FlattenSnoc(s.log, c.data);
      assert c.data[..c.sent] == c.data;
      assert Flatten(s.log + [c.data]) + [] == Flatten(s.log) + c.data;
    case Read(space) => ReadKeeps(m, s, space);
  }

  lemma {:induction false} RunKeeps(m: Mode, s: State, acts: seq<Action>)
    requires m.Lawful() && Inv(m, s) && Runs(m, s, acts)
    ensures Inv(m, After(m, s, acts))
    decreases |acts|
  {
    if acts != [] {
      StepKeeps(m, s, acts[0]);
      RunKeeps(m, Step(m, s, acts[0]), acts[1..]);
    }
  }

  // The data of all Writes of a run, in the order in which they took the lock.
  function Asked(acts: seq<Action>): seq<bytes> {
    if acts == [] then []
    else (if acts[0].Begin? then [acts[0].data] else []) + Asked(acts[1..])
  }

  lemma AskedStep(m: Mode, s: State, a: Action)
    requires Enabled(m, s, a)
    ensures Attempted(Step(m, s, a)) == Attempted(s) + (if a.Begin? then a.data else [])
  {
    if a.End? {
      FlattenSnoc(s.log, s.cur.value.data);
    }
  }

  lemma {:induction false} AskedExact(m: Mode, s: State, acts: seq<Action>)
    requires Runs(m, s, acts)
    ensures Attempted(After(m, s, acts)) == Attempted(s) + Flatten(Asked(acts))
    decreases |acts|
  {
    if acts != [] {
      var a, rest := acts[0], acts[1..];
      AskedStep(m, s, a);
      AskedExact(m, Step(m, s, a), rest);
      if a.Begin? {
        FlattenAppend([a.data], Asked(rest));
        assert Flatten([a.data]) == a.data;
        ConcatAssociative(Attempted(s), a.data, Flatten(Asked(rest)));
      } else {
        assert [] + Asked(rest) == Asked(rest);
      }
    }
  }

  // Stream fidelity over every run. Everything is measured against the data that the
  // Writes of the run were called with. While no write has failed, delivered, buffered
  // and in-flight bytes are exactly the accepted ones, Writes following each other in
  // lock order; after a write error what is delivered is still a prefix of what was
  // asked for; and a Read fails only when the packet in front is incomplete.
  lemma Fidelity(m: Mode, acts: seq<Action>)
    requires m.Lawful() && Runs(m, START, acts)
    ensures var s := After(m, START, acts);
      && Attempted(s) == Flatten(Asked(acts))
      && (s.cur.None? ==> Accepted(s) == Flatten(Asked(acts)))
      && s.delivered <= Flatten(Asked(acts))
      && (!s.broken ==> s.delivered <= Accepted(s))
      && (!s.broken && !s.dead ==> Held(m, s) == Accepted(s))
      && (!s.dead ==> forall space :: Take(m, s.readBuf, s.wire, space).Delivered?
                        || NextPacket(m, s.wire) == Need)
  {
    assert ScanWire(Reader(m), []) == Scan([], 0, Clean);
    assert Inv(m, START);
    RunKeeps(m, START, acts);
    AskedExact(m, START, acts);
    var s := After(m, START, acts);
    assert Attempted(START) + Flatten(Asked(acts)) == Flatten(Asked(acts));
    if !s.dead {
      assert s.delivered <= Held(m, s);
    }
  }

  // Nothing is stuck: from any sound state, reading with any positive space until the
  // buffer and the wire are empty delivers every accepted byte.
  lemma {:induction false} Drain(m: Mode, s: State, space: nat) returns (acts: seq<Action>)
    requires m.Lawful() && Inv(m, s) && !s.dead && !s.broken && space > 0
    ensures Runs(m, s, acts) && !After(m, s, acts).dead
    ensures Accepted(After(m, s, acts)) == Accepted(s)
    ensures After(m, s, acts).delivered == Accepted(s)
    ensures forall i | 0 <= i < |acts| :: acts[i] == Read(space)
    decreases |s.wire|, |s.readBuf|
  {
    if s.wire == [] && s.readBuf == [] {
      assert s.delivered + [] + Flatten([]) == s.delivered;
      return [];
    }
    ReaderSound(m);
    assert Stable(Reader(m), s.wire, []);
    var s' := Step(m, s, Read(space));
    StepKeeps(m, s, Read(space));
    var rest := Drain(m, s', space);
    acts := [Read(space)] + rest;
    assert acts[1..] == rest;
  }

  // What a Write of the connection object puts on the wire is what a run of the lock
  // holder puts there: a chunk for each packet written whole, and a cut one at the end
  // when the Write failed.
  function Chunks(ps: seq<Sealed>): seq<Action> {
    if ps == [] then [] else Chunks(ps[..|ps| - 1]) + [Chunk(|ps[|ps| - 1].data|, ps[|ps| - 1].ch)]
  }

  lemma {:induction false} RunsAppend(m: Mode, s: State, a: seq<Action>, b: Action)
    requires Runs(m, s, a) && Enabled(m, After(m, s, a), b) && Faithful(m, After(m, s, a), b)
    ensures Runs(m, s, a + [b])
    ensures After(m, s, a + [b]) == Step(m, After(m, s, a), b)
    decreases |a|
  {
    if a == [] {
      assert a + [b] == [b] && [b][1..] == [];
    } else {
      assert (a + [b])[0] == a[0] && (a + [b])[1..] == a[1..] + [b];
      RunsAppend(m, Step(m, s, a[0]), a[1..], b);
    }
  }

  ghost predicate AllInDomain(m: Mode, ps: seq<Sealed>) {
    forall i | 0 <= i < |ps| :: ValidChoice(ps[i].ch) && InDomain(m, ps[i].data, |ps[i].ch.pad|)
  }

  lemma {:induction false} ChunksRun(m: Mode, s: State, data: bytes, ps: seq<Sealed>, n: nat)
    requires n <= |data| && DataOf(ps) == data[..n] && AllInDomain(m, ps)
    requires s.cur == Some(Current(data, 0, 0)) && !s.broken
    requires if Bursts(m, |data|) then BurstSizes(m.stealth.value.maxBurst, ps, n < |data|)
             else ps != [] ==> |ps| == 1 && n == |data|
    ensures Reaches(m, s, data, ps, n)
    decreases |ps|
  {
    if ps == [] {
      assert n == 0 && s.wire + [] == s.wire;
    } else {
      var init, p := ps[..|ps| - 1], ps[|ps| - 1];
      SplitPrefix(data, n, DataOf(init), p.data);
      assert AllInDomain(m, init);
      ChunksRun(m, s, data, init, n - |p.data|);
      ChunkIsStep(m, s, data, ps, n);
    }
  }

  // The state of the lock holder after it has sent ps, which carry n bytes.
  ghost predicate Reaches(m: Mode, s: State, data: bytes, ps: seq<Sealed>, n: nat) {
    && Runs(m, s, Chunks(ps))
    && After(m, s, Chunks(ps)) ==
         s.(cur := Some(Current(data, n, |ps|)), wire := s.wire + WireBytes(m, ps))
  }

  lemma ChunkIsStep(m: Mode, s: State, data: bytes, ps: seq<Sealed>, n: nat)
    requires ps != [] && !s.broken && |ps[|ps| - 1].data| <= n <= |data|
    requires var p, k := ps[|ps| - 1], n - |ps[|ps| - 1].data|;
      && Reaches(m, s, data, ps[..|ps| - 1], k)
      && p.data == data[k..n]
      && NextChunk(m, Current(data, k, |ps| - 1), |p.data|)
      && ValidChoice(p.ch) && InDomain(m, p.data, |p.ch.pad|)
    ensures Reaches(m, s, data, ps, n)
  {
    var init, p := ps[..|ps| - 1], ps[|ps| - 1];
    var mid := After(m, s, Chunks(init));
    ChunkFrom(m, mid, Current(data, n - |p.data|, |init|), p);
    ConcatAssociative(s.wire, WireBytes(m, init), Encode(m, p.data, p.ch));
    RunsAppend(m, s, Chunks(init), Chunk(|p.data|, p.ch));
  }

  lemma ChunkFrom(m: Mode, s: State, c: Current, p: Sealed)
    requires s.cur == Some(c) && !s.broken && NextChunk(m, c, |p.data|)
    requires c.sent + |p.data| <= |c.data| && p.data == c.data[c.sent..c.sent + |p.data|]
    requires ValidChoice(p.ch) && InDomain(m, p.data, |p.ch.pad|)
    ensures Enabled(m, s, Chunk(|p.data|, p.ch)) && Faithful(m, s, Chunk(|p.data|, p.ch))
    ensures Step(m, s, Chunk(|p.data|, p.ch)) ==
      s.(cur := Some(Current(c.data, c.sent + |p.data|, c.packets + 1)),
         wire := s.wire + Encode(m, p.data, p.ch))
  {
    assert ChunkData(s, |p.data|) == p.data;
  }

  function ActionsOf(ok: bool, done: seq<Sealed>, broken: Sealed, cut: bytes): seq<Action> {
    if ok then Chunks(done) else Chunks(done) + [Cut(|broken.data|, broken.ch, |cut|)]
  }

  lemma WriteIsRun(m: Mode, s: State, data: bytes, n: nat, ok: bool, done: seq<Sealed>, broken: Sealed, cut: bytes)
    requires Outcome(m, data, n, ok, done, broken, cut)
    requires AllInDomain(m, done) && (!ok ==> InDomain(m, broken.data, |broken.ch.pad|))
    requires s.cur == Some(Current(data, 0, 0)) && !s.broken
    ensures Runs(m, s, ActionsOf(ok, done, broken, cut))
    ensures After(m, s, ActionsOf(ok, done, broken, cut)) ==
      s.(cur := Some(Current(data, n, |done|)), wire := s.wire + WireBytes(m, done) + cut, broken := !ok)
    ensures ok ==> Finished(m, Current(data, n, |done|))
  {
    assert data[..|data|] == data;
    ChunksRun(m, s, data, done, n);
    if ok {
      assert s.wire + WireBytes(m, done) + [] == s.wire + WireBytes(m, done);
    } else {
      CutIsStep(m, After(m, s, Chunks(done)), Current(data, n, |done|), broken, cut);
      RunsAppend(m, s, Chunks(done), Cut(|broken.data|, broken.ch, |cut|));
    }
  }

  lemma CutIsStep(m: Mode, s: State, c: Current, p: Sealed, cut: bytes)
    requires s.cur == Some(c) && !s.broken && NextChunk(m, c, |p.data|)
    requires c.sent <= |c.data| && p.data <= c.data[c.sent..] && cut <= Encode(m, p.data, p.ch)
    requires ValidChoice(p.ch) && InDomain(m, p.data, |p.ch.pad|)
    ensures var a := Cut(|p.data|, p.ch, |cut|);
      && Enabled(m, s, a) && Faithful(m, s, a)
      && Step(m, s, a) == s.(wire := s.wire + cut, broken := true)
  {
    assert ChunkData(s, |p.data|) == p.data;
    var packet := Encode(m, p.data, p.ch);
    assert packet[..Min(|cut|, |packet|)] == cut;
  }

  lemma SplitPrefix(data: bytes, n: nat, a: bytes, b: bytes)
    requires n <= |data| && data[..n] == a + b
    ensures n == |a| + |b| && a == data[..|a|] && b == data[|a|..n]
  {
    assert (a + b)[..|a|] == a && (a + b)[|a|..] == b;
  }

  // Without its domain the result is false. Burst splitting with stealth padding and
  // no obfuscation sends a last chunk of 3 bytes unpadded; when it looks padded, the
  // reader strips two of its bytes, and the stream is no longer what was written.
  const TAIL_MODE: Mode :=
    Mode(None, None, Some(StealthConfig(true, PadRange(16, 128), true, MIN_BURST)))

  lemma ShortTailCorrupts(z: bytes, x: byte, ch: Choice)
    requires |z| == MIN_BURST && ValidChoice(ch) && |ch.pad| <= 128
    ensures var m, tail := TAIL_MODE, [0, 1, x];
      && NextChunk(m, Current(z + tail, 0, 0), |z|)
      && NextChunk(m, Current(z + tail, |z|, 1), |tail|)
      && ScanWire(Reader(m), Encode(m, z, ch) + Encode(m, tail, ch)).messages == [z, [x]]
      && Flatten([z, [x]]) != z + tail
  {
    var m, next := TAIL_MODE, Reader(TAIL_MODE);
    var tail: bytes := [0, 1, x];
    var p1, p2 := Encode(m, z, ch), Encode(m, tail, ch);
    ReaderSound(m);
    ScanOneExact(m, z, ch);
    ScanAppend(next, p1, p2);
    TailMisread(x, ch);
    ScanSingle(next, p2, [x]);
    assert [z] + [[x]] == [z, [x]];
    assert [z, [x]][1..] == [[x]];
    assert |Flatten([z, [x]])| == |z| + |Flatten([[x]])| == |z| + 1;
  }

  lemma TailBody(x: byte, ch: Choice)
    ensures Body(TAIL_MODE, [0, 1, x], ch) == [0, 1, x]
    ensures DecodeBody(TAIL_MODE, [0, 1, x]) == Plain([x])
  {
    var tail: bytes := [0, 1, x];
    assert tail[..2] == [0, 1] && tail[2..3] == [x];
  }

  lemma TailMisread(x: byte, ch: Choice)
    ensures NextPacket(TAIL_MODE, Encode(TAIL_MODE, [0, 1, x], ch)) == Got([x], [])
  {
    var tail: bytes := [0, 1, x];
    TailBody(x, ch);
    NextOfBody(TAIL_MODE, tail, []);
    assert Be32(|tail| % TWO_32) + tail + [] == Encode(TAIL_MODE, tail, ch);
  }
}
