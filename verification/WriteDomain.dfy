// For which data a Write is safe: whatever chunk sizes, paddings and nonces it draws, the
// reader gets every packet as it was sent. The answer needs only the data and the mode.
module WriteDomain {
  import opened Bytes
  import opened EncryptedStream
  import opened Framing
  import opened Packet
  import opened Padding
  import opened StreamRun

  // The longest pad the padding functions can draw.
  function LongestPad(m: Mode): nat
    requires ConfigOk(m)
  {
    if m.ObfsOn() then Max(m.obfs.value.pad.min, m.obfs.value.pad.max - 1)
    else if m.StealthOn() then Max(m.stealth.value.pad.min, m.stealth.value.pad.max)
    else 0
  }

  // n bytes can be cut into k chunks that are all long enough.
  predicate Into(k: nat, n: int, cap: int) {
    MIN_BURST * k <= n <= cap * k
  }

  ghost predicate Splits(n: int, cap: int) {
    exists k :: Into(k, n, cap)
  }

  // A burst of this data can end in a chunk of t bytes.
  ghost predicate CanEndIn(data: bytes, t: int, cap: int) {
    0 < t <= |data| && Splits(|data| - t, cap)
  }

  // The first chunk may be this long.
  function FirstChunk(data: bytes, cap: int): bytes
    requires cap >= 0
  {
    data[..Min(cap, |data|)]
  }

  ghost predicate TailOk(data: bytes, t: int, cap: int) {
    CanEndIn(data, t, cap) ==> !LooksPadded(data[|data| - t..])
  }

  // The condition: the longest possible packet is in the domain, and no last chunk that
  // a burst can end in looks padded.
  ghost predicate Safe(m: Mode, data: bytes)
    requires ConfigOk(m)
  {
    if Bursts(m, |data|) then
      var cap := BurstCap(m.stealth.value.maxBurst);
      data == [] ||
      (InDomain(m, FirstChunk(data, cap), LongestPad(m))
       && (m.StealthOn() ==> TailOk(data, 3, cap) && TailOk(data, 4, cap)))
    else InDomain(m, data, LongestPad(m))
  }

  // The reader has got each packet of ps as one message equal to its data.
  ghost predicate Received(m: Mode, ps: seq<Sealed>) {
    ps == [] ||
    (Received(m, ps[..|ps| - 1])
     && ScanWire(Reader(m), WireBytes(m, ps)) == Scan(DataList(ps), |WireBytes(m, ps)|, Clean))
  }

  function DataList(ps: seq<Sealed>): seq<bytes> {
    if ps == [] then [] else DataList(ps[..|ps| - 1]) + [ps[|ps| - 1].data]
  }

  // ---------- A list of packets is received exactly when all are in the domain ----------

  lemma {:induction false} DataListFlat(ps: seq<Sealed>)
    ensures Flatten(DataList(ps)) == DataOf(ps)
  {
    if ps != [] {
      DataListFlat(ps[..|ps| - 1]);
      FlattenSnoc(DataList(ps[..|ps| - 1]), ps[|ps| - 1].data);
    }
  }

  // What is received is the data, whole and in order.
  lemma ReceivedScan(m: Mode, ps: seq<Sealed>)
    requires Received(m, ps)
    ensures ScanWire(Reader(m), WireBytes(m, ps)) == Scan(DataList(ps), |WireBytes(m, ps)|, Clean)
    ensures Flatten(ScanWire(Reader(m), WireBytes(m, ps)).messages) == DataOf(ps)
  {
    DataListFlat(ps);
  }

  lemma {:induction false} WellMadeAll(m: Mode, ps: seq<Sealed>, i: nat)
    requires WellMade(m, ps) && i < |ps|
    ensures ValidChoice(ps[i].ch) && PadInRange(m, ps[i].data, |ps[i].ch.pad|)
  {
    if i + 1 < |ps| {
      WellMadeAll(m, ps[..|ps| - 1], i);
    }
  }

  lemma OneMore(m: Mode, before: bytes, msgs: seq<bytes>, p: Sealed)
    requires m.Lawful() && ValidChoice(p.ch)
    requires ScanWire(Reader(m), before) == Scan(msgs, |before|, Clean)
    ensures var wire := before + Encode(m, p.data, p.ch);
      ScanWire(Reader(m), wire) == Scan(msgs + [p.data], |wire|, Clean) <==> InDomain(m, p.data, |p.ch.pad|)
  {
    var next, packet := Reader(m), Encode(m, p.data, p.ch);
    ReaderSound(m);
    ScanOneExact(m, p.data, p.ch);
    ScanAppend(next, before, packet);
    SameTail(msgs, ScanWire(next, packet).messages, [p.data]);
  }

  lemma AllSnoc(m: Mode, ps: seq<Sealed>)
    requires ps != []
    ensures var p := ps[|ps| - 1];
      AllInDomain(m, ps) <==>
        AllInDomain(m, ps[..|ps| - 1]) && ValidChoice(p.ch) && InDomain(m, p.data, |p.ch.pad|)
  {
    assert forall i | 0 <= i < |ps| - 1 :: ps[..|ps| - 1][i] == ps[i];
  }

  lemma {:induction false} ReceivedExact(m: Mode, ps: seq<Sealed>)
    requires m.Lawful() && WellMade(m, ps)
    ensures Received(m, ps) <==> AllInDomain(m, ps)
  {
    if ps != [] {
      var init, p := ps[..|ps| - 1], ps[|ps| - 1];
      ReceivedExact(m, init);
      AllSnoc(m, ps);
      if Received(m, init) {
        ReceivedScan(m, init);
        OneMore(m, WireBytes(m, init), DataList(init), p);
      }
    }
  }

  // ---------- Safe data: no draw of the code leaves the domain ----------

  lemma {:induction false} ChunkCount(maxBurst: int, ps: seq<Sealed>)
    requires BurstSizes(maxBurst, ps, true)
    ensures Into(|ps|, |DataOf(ps)|, BurstCap(maxBurst))
  {
    if ps != [] {
      ChunkCount(maxBurst, ps[..|ps| - 1]);
    }
  }

  lemma {:induction false} ChunkLength(ps: seq<Sealed>, i: nat)
    requires i < |ps|
    ensures |ps[i].data| <= |DataOf(ps)|
  {
    if i + 1 < |ps| {
      ChunkLength(ps[..|ps| - 1], i);
    }
  }

  lemma DomainShrinks(m: Mode, long: bytes, data: bytes, padLen: nat)
    requires ConfigOk(m) && PadInRange(m, data, padLen) && 0 < |data| <= |long|
    requires InDomain(m, long, LongestPad(m))
    requires m.StealthOn() ==> !LooksPadded(data)
    ensures InDomain(m, data, padLen)
  {
  }

  lemma LastChunk(m: Mode, data: bytes, ps: seq<Sealed>)
    requires Bursts(m, |data|) && Allowed(m, data, ps) && ps != []
    ensures var last := ps[|ps| - 1].data;
      last == data[|data| - |last|..] && CanEndIn(data, |last|, BurstCap(m.stealth.value.maxBurst))
  {
    var init, last := ps[..|ps| - 1], ps[|ps| - 1].data;
    ChunkCount(m.stealth.value.maxBurst, init);
    assert data == DataOf(init) + last;
  }

  lemma BurstStaysInside(m: Mode, data: bytes, ps: seq<Sealed>, i: nat)
    requires ConfigOk(m) && Bursts(m, |data|) && Safe(m, data) && Allowed(m, data, ps) && i < |ps|
    ensures InDomain(m, ps[i].data, |ps[i].ch.pad|)
  {
    WellMadeAll(m, ps, i);
    ChunkLength(ps, i);
    BurstIndexed(m.stealth.value.maxBurst, ps, false, i);
    if i + 1 == |ps| {
      LastChunk(m, data, ps);
    }
    DomainShrinks(m, FirstChunk(data, BurstCap(m.stealth.value.maxBurst)), ps[i].data, |ps[i].ch.pad|);
  }

  lemma SafeStaysInside(m: Mode, data: bytes, ps: seq<Sealed>)
    requires ConfigOk(m) && Safe(m, data) && Allowed(m, data, ps)
    ensures AllInDomain(m, ps)
  {
    forall i | 0 <= i < |ps|
      ensures ValidChoice(ps[i].ch) && InDomain(m, ps[i].data, |ps[i].ch.pad|)
    {
      WellMadeAll(m, ps, i);
      if Bursts(m, |data|) {
        BurstStaysInside(m, data, ps, i);
      } else {
        assert data == DataOf(ps[..0]) + ps[0].data == ps[0].data;
        if data != [] {
          DomainShrinks(m, data, data, |ps[0].ch.pad|);
        }
      }
    }
  }

  // ---------- Unsafe data: some draw of the code leaves it ----------

  // A packet with the longest pad.
  function Padded(m: Mode, data: bytes): Sealed
    requires ConfigOk(m)
  {
    Sealed(data, Choice(seq(LongestPad(m), (i: nat) => 0), seq(NONCE_SIZE, (i: nat) => 0)))
  }

  lemma PaddedOk(m: Mode, data: bytes)
    requires ConfigOk(m)
    ensures WellMade(m, [Padded(m, data)])
  {
  }

  // ps is the beginning of a burst, and carries data.
  ghost predicate Prefix(m: Mode, data: bytes, ps: seq<Sealed>) {
    m.stealth.Some? && WellMade(m, ps) && DataOf(ps) == data && BurstSizes(m.stealth.value.maxBurst, ps, true)
  }

  lemma Extend(m: Mode, done: bytes, ps: seq<Sealed>, chunk: bytes, more: bool)
    requires ConfigOk(m) && Prefix(m, done, ps)
    requires 0 < |chunk| <= BurstCap(m.stealth.value.maxBurst) && (more ==> |chunk| >= MIN_BURST)
    ensures var ps' := ps + [Padded(m, chunk)];
      WellMade(m, ps') && DataOf(ps') == done + chunk && BurstSizes(m.stealth.value.maxBurst, ps', more)
  {
    PaddedOk(m, chunk);
    Snoc(m, ps, Padded(m, chunk));
  }

  // Any k long chunks that fit n can be drawn.
  lemma {:induction false} CutInto(m: Mode, data: bytes, k: nat) returns (ps: seq<Sealed>)
    requires ConfigOk(m) && m.stealth.Some?
    requires Into(k, |data|, BurstCap(m.stealth.value.maxBurst))
    ensures Prefix(m, data, ps)
    decreases k
  {
    if k == 0 {
      return [];
    }
    var cap := BurstCap(m.stealth.value.maxBurst);
    var size := LastSize(k, |data|, cap);
    var init, last := data[..|data| - size], data[|data| - size..];
    var before := CutInto(m, init, k - 1);
    Extend(m, init, before, last, true);
    assert init + last == data;
    ps := before + [Padded(m, last)];
  }

  lemma LastSize(k: nat, n: nat, cap: int) returns (size: nat)
    requires k > 0 && cap >= MIN_BURST && Into(k, n, cap)
    ensures MIN_BURST <= size <= cap && size <= n && Into(k - 1, n - size, cap)
  {
    var most := cap * (k - 1);
    assert cap * k == most + cap && MIN_BURST * k == MIN_BURST * (k - 1) + MIN_BURST;
    assert most >= MIN_BURST * (k - 1);
    size := Max(MIN_BURST, n - most);
  }

  // Any beginning of a burst can be completed.
  lemma {:induction false} Complete(m: Mode, done: bytes, ps: seq<Sealed>, rest: bytes) returns (all: seq<Sealed>)
    requires ConfigOk(m) && Prefix(m, done, ps)
    ensures ps <= all
    ensures WellMade(m, all) && DataOf(all) == done + rest && BurstSizes(m.stealth.value.maxBurst, all, false)
    decreases |rest|
  {
    if rest == [] {
      assert done + rest == done;
      return ps;
    }
    var size := Min(MIN_BURST, |rest|);
    Extend(m, done, ps, rest[..size], size == MIN_BURST);
    assert rest == rest[..size] + rest[size..];
    ConcatAssociative(done, rest[..size], rest[size..]);
    if size == |rest| {
      all := ps + [Padded(m, rest[..size])];
    } else {
      all := Complete(m, done + rest[..size], ps + [Padded(m, rest[..size])], rest[size..]);
    }
  }

  lemma NotAll(m: Mode, ps: seq<Sealed>, i: nat, data: bytes)
    requires ConfigOk(m) && i < |ps| && ps[i] == Padded(m, data) && !InDomain(m, data, LongestPad(m))
    ensures !AllInDomain(m, ps)
  {
    assert |ps[i].ch.pad| == LongestPad(m);
  }

  lemma Start(m: Mode, first: bytes, more: bool)
    requires ConfigOk(m) && m.stealth.Some?
    requires 0 < |first| <= BurstCap(m.stealth.value.maxBurst) && (more ==> |first| >= MIN_BURST)
    ensures var ps := [Padded(m, first)];
      WellMade(m, ps) && DataOf(ps) == first && BurstSizes(m.stealth.value.maxBurst, ps, more)
  {
    PaddedOk(m, first);
    var ps := [Padded(m, first)];
    assert ps[..0] == [] && DataOf([]) + first == first;
  }

  lemma LongFirst(m: Mode, data: bytes) returns (ps: seq<Sealed>)
    requires ConfigOk(m) && Bursts(m, |data|) && data != []
    requires !InDomain(m, FirstChunk(data, BurstCap(m.stealth.value.maxBurst)), LongestPad(m))
    ensures Allowed(m, data, ps) && !AllInDomain(m, ps)
  {
    var cap := BurstCap(m.stealth.value.maxBurst);
    var first, rest := FirstChunk(data, cap), data[Min(cap, |data|)..];
    assert data == first + rest;
    Start(m, first, rest != []);
    ps := [Padded(m, first)];
    if rest != [] {
      ps := Complete(m, first, ps, rest);
    }
    NotAll(m, ps, 0, first);
  }

  lemma BadTail(m: Mode, data: bytes, t: int) returns (ps: seq<Sealed>)
    requires ConfigOk(m) && Bursts(m, |data|) && m.StealthOn() && 3 <= t <= 4
    requires CanEndIn(data, t, BurstCap(m.stealth.value.maxBurst)) && LooksPadded(data[|data| - t..])
    ensures Allowed(m, data, ps) && !AllInDomain(m, ps)
  {
    var init, tail := data[..|data| - t], data[|data| - t..];
    var k :| Into(k, |data| - t, BurstCap(m.stealth.value.maxBurst));
    var before := CutInto(m, init, k);
    Extend(m, init, before, tail, false);
    assert init + tail == data;
    ps := before + [Padded(m, tail)];
    NotAll(m, ps, |before|, tail);
  }

  lemma UnsafeCanLeave(m: Mode, data: bytes) returns (ps: seq<Sealed>)
    requires ConfigOk(m) && !Safe(m, data)
    ensures Allowed(m, data, ps) && !AllInDomain(m, ps)
  {
    PaddedOk(m, data);
    if !Bursts(m, |data|) {
      ps := [Padded(m, data)];
      assert [] + data == data;
      assert |ps[0].ch.pad| == LongestPad(m);
    } else if !InDomain(m, FirstChunk(data, BurstCap(m.stealth.value.maxBurst)), LongestPad(m)) {
      ps := LongFirst(m, data);
    } else {
      ps := BadTail(m, data, if TailOk(data, 3, BurstCap(m.stealth.value.maxBurst)) then 4 else 3);
    }
  }

  // The exact condition of stream fidelity for one Write: every list of packets the call
  // may send is received as sent, if and only if the data is safe.
  lemma WriteExact(m: Mode, data: bytes)
    requires m.Lawful() && ConfigOk(m)
    ensures (forall ps :: Allowed(m, data, ps) ==> Received(m, ps)) <==> Safe(m, data)
  {
    if Safe(m, data) {
      forall ps | Allowed(m, data, ps)
        ensures Received(m, ps)
      {
        SafeStaysInside(m, data, ps);
        ReceivedExact(m, ps);
      }
    } else {
      var ps := UnsafeCanLeave(m, data);
      ReceivedExact(m, ps);
    }
  }

  // ---------- Whole runs of safe Writes ----------

  // The draw behind a packet is one that the code can make.
  predicate Drawn(m: Mode, s: State, a: Action) {
    match a
    case Chunk(size, ch) => s.cur.Some? ==> ValidChoice(ch) && PadInRange(m, ChunkData(s, size), |ch.pad|)
    case Cut(size, ch, k) => s.cur.Some? ==> ValidChoice(ch) && PadInRange(m, ChunkData(s, size), |ch.pad|)
    case _ => true
  }

  ghost predicate SafeBegin(m: Mode, a: Action)
    requires ConfigOk(m)
  {
    a.Begin? ==> Safe(m, a.data)
  }

  // A run of the code in which callers write safe data only. Nothing is asked of the
  // packets but that the code can draw them.
  ghost predicate SafeRuns(m: Mode, s: State, acts: seq<Action>)
    requires ConfigOk(m)
    decreases |acts|
  {
    acts == [] ||
    (Enabled(m, s, acts[0]) && Drawn(m, s, acts[0]) && SafeBegin(m, acts[0])
     && SafeRuns(m, Step(m, s, acts[0]), acts[1..]))
  }

  // The Write that holds the lock is safe, and what it has sent is cut into long chunks.
  ghost predicate CurrentOk(m: Mode, s: State)
    requires ConfigOk(m)
  {
    s.cur.Some? ==>
      var c := s.cur.value;
      && Safe(m, c.data) && c.sent <= |c.data|
      && (Bursts(m, |c.data|) && c.sent < |c.data| ==>
            Into(c.packets, c.sent, BurstCap(m.stealth.value.maxBurst)))
  }

  // The next chunk of a safe burst: only a last one can be short, and then it is a tail
  // that the condition speaks of.
  lemma BurstChunkInside(m: Mode, c: Current, size: nat, padLen: nat)
    requires ConfigOk(m) && Bursts(m, |c.data|) && Safe(m, c.data) && NextChunk(m, c, size)
    requires c.sent < |c.data| && Into(c.packets, c.sent, BurstCap(m.stealth.value.maxBurst))
    requires PadInRange(m, c.data[c.sent..c.sent + size], padLen)
    ensures InDomain(m, c.data[c.sent..c.sent + size], padLen)
  {
    var cap, chunk := BurstCap(m.stealth.value.maxBurst), c.data[c.sent..c.sent + size];
    if size == 3 || size == 4 {
      TailOfBurst(c, size, cap);
    }
    assert m.StealthOn() ==> !LooksPadded(chunk);
    DomainShrinks(m, FirstChunk(c.data, cap), chunk, padLen);
  }

  lemma TailOfBurst(c: Current, size: nat, cap: int)
    requires 0 < size <= |c.data| && c.sent == |c.data| - size && Into(c.packets, c.sent, cap)
    ensures CanEndIn(c.data, size, cap)
    ensures c.data[c.sent..c.sent + size] == c.data[|c.data| - size..]
  {
    assert Splits(|c.data| - size, cap);
  }

  lemma SingleInside(m: Mode, data: bytes, padLen: nat)
    requires ConfigOk(m) && !Bursts(m, |data|) && Safe(m, data) && PadInRange(m, data, padLen)
    ensures InDomain(m, data, padLen)
  {
    if data != [] {
      DomainShrinks(m, data, data, padLen);
    }
  }

  lemma ChunkInside(m: Mode, s: State, size: nat, ch: Choice)
    requires ConfigOk(m) && CurrentOk(m, s) && s.cur.Some? && NextChunk(m, s.cur.value, size)
    requires PadInRange(m, ChunkData(s, size), |ch.pad|)
    ensures InDomain(m, ChunkData(s, size), |ch.pad|)
  {
    var c := s.cur.value;
    if Bursts(m, |c.data|) {
      BurstChunkInside(m, c, size, |ch.pad|);
    } else {
      assert c.data[0..|c.data|] == c.data;
      SingleInside(m, c.data, |ch.pad|);
    }
  }

  lemma IntoNext(k: nat, n: nat, size: nat, cap: int)
    requires Into(k, n, cap) && MIN_BURST <= size <= cap
    ensures Into(k + 1, n + size, cap)
  {
    assert cap * (k + 1) == cap * k + cap;
  }

  lemma ChunkStep(m: Mode, s: State, size: nat, ch: Choice)
    requires ConfigOk(m) && CurrentOk(m, s) && Enabled(m, s, Chunk(size, ch))
    ensures CurrentOk(m, Step(m, s, Chunk(size, ch)))
  {
    var c := s.cur.value;
    if Bursts(m, |c.data|) && c.sent + size < |c.data| {
      IntoNext(c.packets, c.sent, size, BurstCap(m.stealth.value.maxBurst));
    }
  }

  // In a safe run every packet is in its domain, whether it gets out whole or not.
  lemma SafeStep(m: Mode, s: State, a: Action)
    requires ConfigOk(m) && CurrentOk(m, s) && Enabled(m, s, a) && Drawn(m, s, a) && SafeBegin(m, a)
    ensures Faithful(m, s, a) && CurrentOk(m, Step(m, s, a))
  {
    match a
    case Begin(data) =>
      if Bursts(m, |data|) {
        assert Into(0, 0, BurstCap(m.stealth.value.maxBurst));
      }
    case Chunk(size, ch) =>
      ChunkInside(m, s, size, ch);
      ChunkStep(m, s, size, ch);
    case Cut(size, ch, k) => ChunkInside(m, s, size, ch);
    case _ =>
  }

  lemma {:induction false} SafeRunsRun(m: Mode, s: State, acts: seq<Action>)
    requires ConfigOk(m) && CurrentOk(m, s) && SafeRuns(m, s, acts)
    ensures Runs(m, s, acts)
    decreases |acts|
  {
    if acts != [] {
      SafeStep(m, s, acts[0]);
      SafeRunsRun(m, Step(m, s, acts[0]), acts[1..]);
    }
  }

  // Stream fidelity from what callers know alone: if all data written is safe, then in
  // every run, whatever is drawn, whoever takes turns and wherever a write fails, what is
  // delivered is a prefix of what was written; without errors delivered, buffered and
  // in-flight bytes are the accepted ones.
  lemma SafeFidelity(m: Mode, acts: seq<Action>)
    requires m.Lawful() && ConfigOk(m) && SafeRuns(m, START, acts)
    ensures Runs(m, START, acts)
    ensures var s := After(m, START, acts);
      && Attempted(s) == Flatten(Asked(acts))
      && (s.cur.None? ==> Accepted(s) == Flatten(Asked(acts)))
      && s.delivered <= Flatten(Asked(acts))
      && (!s.broken ==> s.delivered <= Accepted(s))
      && (!s.broken && !s.dead ==> Held(m, s) == Accepted(s))
      && (!s.dead ==> forall space :: Take(m, s.readBuf, s.wire, space).Delivered?
                        || NextPacket(m, s.wire) == Need)
  {
    SafeRunsRun(m, START, acts);
    Fidelity(m, acts);
  }

  // The Write of the connection object, successful or not, is such a run when its data
  // is safe: every packet it sent or broke off is in its domain.
  lemma SafeOutcome(m: Mode, data: bytes, n: nat, ok: bool, done: seq<Sealed>, broken: Sealed, cut: bytes)
    requires ConfigOk(m) && Safe(m, data) && Outcome(m, data, n, ok, done, broken, cut)
    ensures AllInDomain(m, done)
    ensures !ok ==> InDomain(m, broken.data, |broken.ch.pad|)
  {
    if ok {
      SafeStaysInside(m, data, done);
    } else if !Bursts(m, |data|) {
      SingleInside(m, data, |broken.ch.pad|);
    } else {
      BrokenBurst(m, data, n, done, broken);
      forall i | 0 <= i < |done|
        ensures ValidChoice(done[i].ch) && InDomain(m, done[i].data, |done[i].ch.pad|)
      {
        LongChunkInside(m, data, n, done, i);
      }
    }
  }

  lemma BrokenBurst(m: Mode, data: bytes, n: nat, done: seq<Sealed>, broken: Sealed)
    requires ConfigOk(m) && Bursts(m, |data|) && Safe(m, data) && n < |data|
    requires DataOf(done) == data[..n] && BurstSizes(m.stealth.value.maxBurst, done, true)
    requires WellMade(m, [broken]) && broken.data <= data[n..]
    requires ChunkFits(m.stealth.value.maxBurst, |data| - n, |broken.data|)
    ensures InDomain(m, broken.data, |broken.ch.pad|)
  {
    ChunkCount(m.stealth.value.maxBurst, done);
    assert data[n..n + |broken.data|] == broken.data;
    BurstChunkInside(m, Current(data, n, |done|), |broken.data|, |broken.ch.pad|);
  }

  lemma LongChunkInside(m: Mode, data: bytes, n: nat, done: seq<Sealed>, i: nat)
    requires ConfigOk(m) && Bursts(m, |data|) && Safe(m, data) && n < |data| && i < |done|
    requires DataOf(done) == data[..n] && WellMade(m, done)
    requires BurstSizes(m.stealth.value.maxBurst, done, true)
    ensures ValidChoice(done[i].ch) && InDomain(m, done[i].data, |done[i].ch.pad|)
  {
    WellMadeAll(m, done, i);
    ChunkLength(done, i);
    BurstIndexed(m.stealth.value.maxBurst, done, true, i);
    DomainShrinks(m, FirstChunk(data, BurstCap(m.stealth.value.maxBurst)), done[i].data, |done[i].ch.pad|);
  }

  // ---------- The condition in the cases that matter ----------

  // A burst with stealth padding and no obfuscation, packets well inside 16 MiB: only the
  // tails matter.
  lemma StealthBurst(m: Mode, data: bytes)
    requires ConfigOk(m) && m.StealthOn() && Bursts(m, |data|) && data != []
    requires var cap := BurstCap(m.stealth.value.maxBurst);
      cap <= 65533 && 2 + cap + LongestPad(m) + NONCE_SIZE + TAG_SIZE <= MAX_PACKET
    ensures var cap := BurstCap(m.stealth.value.maxBurst);
      Safe(m, data) <==> TailOk(data, 3, cap) && TailOk(data, 4, cap)
  {
    var cap := BurstCap(m.stealth.value.maxBurst);
    var first := FirstChunk(data, cap);
    if |first| <= 4 {
      assert first == data == data[|data| - |data|..];
      assert Into(0, |data| - |data|, cap);
    }
  }

  // With a maximum of at least twice the minimum, as the default is: safe exactly when
  // neither the last three nor the last four bytes look padded.
  lemma TailsDecide(m: Mode, data: bytes)
    requires ConfigOk(m) && m.StealthOn() && Bursts(m, |data|)
    requires 2 * MIN_BURST <= m.stealth.value.maxBurst <= 65533
    requires 2 + m.stealth.value.maxBurst + LongestPad(m) + NONCE_SIZE + TAG_SIZE <= MAX_PACKET
    ensures Safe(m, data) <==> !LooksPadded(data[|data| - 3..]) && !LooksPadded(data[|data| - 4..])
  {
    StealthBurst(m, data);
    ManyChunks(|data| - 3, m.stealth.value.maxBurst);
    ManyChunks(|data| - 4, m.stealth.value.maxBurst);
  }

  lemma ManyChunks(n: nat, cap: int)
    requires n >= MIN_BURST && cap >= 2 * MIN_BURST
    ensures Splits(n, cap)
  {
    var k := n / MIN_BURST;
    assert MIN_BURST * k <= n < MIN_BURST * (k + 1) <= 2 * MIN_BURST * k;
    assert 2 * MIN_BURST * k <= cap * k;
    assert Into(k, n, cap);
  }

  // A maximum above 65533 makes every padded burst unsafe.
  lemma LongChunksDecide(m: Mode, data: bytes)
    requires ConfigOk(m) && m.stealth.Some? && m.stealth.value.maxBurst > 65533 && Bursts(m, |data|)
    requires m.ObfsOn() || m.StealthOn()
    ensures !Safe(m, data)
  {
    assert |FirstChunk(data, BurstCap(m.stealth.value.maxBurst))| > 65533;
  }

  // The least number of chunks.
  lemma LeastChunks(n: nat, cap: int) returns (k: nat)
    requires cap > 0
    ensures k == (n + cap - 1) / cap && cap * k - cap < n <= cap * k
  {
    k := (n + cap - 1) / cap;
    var r := (n + cap - 1) % cap;
    assert n + cap - 1 == cap * k + r;
  }

  lemma {:induction false} TooFew(k: nat, least: nat, cap: int)
    requires k < least && cap > 0
    ensures cap * k <= cap * least - cap
    decreases least
  {
    if k + 1 < least {
      TooFew(k, least - 1, cap);
    }
  }

  // Whether n bytes can be cut, in closed form.
  lemma SplitsExact(n: nat, cap: int)
    requires cap >= MIN_BURST
    ensures Splits(n, cap) <==> MIN_BURST * ((n + cap - 1) / cap) <= n
  {
    var least := LeastChunks(n, cap);
    if MIN_BURST * least <= n {
      assert Into(least, n, cap);
    }
    if Splits(n, cap) {
      var k :| Into(k, n, cap);
      if k < least {
        TooFew(k, least, cap);
      }
    }
  }
}
