// The server's goroutines as one machine: tunnel accept loops, stream handlers,
// stream openers for TCP and UDP, UDP readers, fake traffic and the health monitor
// share the session pool and the per-session stream counters.
module ServerRun {
  import opened Bytes
  import opened HealthScan
  import opened SessionPool

  type Gid = nat

  datatype Caller = Tcp | Udp

  // Where a goroutine is, one constructor per point between two shared accesses.
  datatype Pc =
    | Acceptor(ss: Session)                         // accept loop of a tunnel session
    | AcceptorClosing(ss: Session)                  // removed from the pool, not yet closed
    | HandlerSpawned(ss: Session)                   // accepted stream, before its increment
    | HandlerCounted(ss: Session)                   // ... until its deferred decrement
    | OpenerStart(caller: Caller)
    | OpenerPicked(ss: Session, caller: Caller)     // a session is chosen
    | OpenerOpened(ss: Session, caller: Caller)     // OpenStream succeeded, before the increment
    | OpenerCounted(ss: Session, caller: Caller)    // writing the tag and the header
    | OpenerFailing(ss: Session, caller: Caller)    // a write failed, before the decrement
    | OpenerEvicting(ss: Session, caller: Caller)   // OpenStream failed; removed, not yet closed
    | TcpRelay(ss: Session)                         // until the deferred decrement
    | UdpIdle                                       // UDP listener between datagrams
    | UdpHolding(ss: Session)                       // listener has a stream, reader not started
    | UdpReader(ss: Session)                        // until its deferred decrement
    | FakeSender(ss: Session)                       // fake traffic, never counted
    | Finished

  // The goroutine stands between an increment of ss.streams and the matching decrement.
  predicate Counts(pc: Pc, ss: Session) {
    match pc
    case HandlerCounted(x) => x == ss
    case OpenerCounted(x, _) => x == ss
    case OpenerFailing(x, _) => x == ss
    case TcpRelay(x) => x == ss
    case UdpHolding(x) => x == ss
    case UdpReader(x) => x == ss
    case _ => false
  }

  // The goroutine took ss out of the pool and closes it next.
  predicate WillClose(pc: Pc, ss: Session) {
    match pc
    case AcceptorClosing(x) => x == ss
    case OpenerEvicting(x, _) => x == ss
    case _ => false
  }

  datatype State = State(
    sessions: seq<Session>,
    streams: map<Session, int>,
    closed: set<Session>,
    gs: map<Gid, Pc>,
    monitor: Monitor,         // holds the pool lock while it scans
    added: seq<Session>,      // history: every session ever added, in order
    gone: set<Session>)       // history: every session taken out of the pool

  const START := State([], map[], {}, map[], Resting, [], {})

  datatype Action =
    | NewSession(g: Gid, ss: Session)
    | AcceptStream(g: Gid, h: Gid)
    | AcceptError(g: Gid)
    | AcceptorClose(g: Gid)
    | HandlerEnter(g: Gid)
    | HandlerLeave(g: Gid)
    | TcpConn(h: Gid)
    | UdpListen(h: Gid)
    | UdpFirstDatagram(g: Gid)
    | PickSession(g: Gid, ss: Session)
    | PickNothing(g: Gid)
    | OpenOk(g: Gid)
    | OpenError(g: Gid)
    | EvictClose(g: Gid)
    | Increment(g: Gid)
    | HeaderOk(g: Gid)
    | HeaderError(g: Gid)
    | Undo(g: Gid)
    | RelayDone(g: Gid)
    | SpawnReader(g: Gid, h: Gid)
    | ReaderDone(g: Gid)
    | FakeStart(h: Gid, ss: Session)
    | FakeDone(g: Gid)
    | SessionDies(ss: Session)
    | HealthBegin
    | HealthLook
    | HealthEnd

  predicate At(s: State, g: Gid, pc: Pc) {
    g in s.gs && s.gs[g] == pc
  }

  predicate Enabled(s: State, a: Action) {
    match a
    case NewSession(g, ss) => s.monitor.Resting? && g !in s.gs && ss !in s.added
    case AcceptStream(g, h) => g in s.gs && s.gs[g].Acceptor? && h !in s.gs
    case AcceptError(g) => s.monitor.Resting? && g in s.gs && s.gs[g].Acceptor?
    case AcceptorClose(g) => g in s.gs && s.gs[g].AcceptorClosing?
    case HandlerEnter(g) => g in s.gs && s.gs[g].HandlerSpawned?
    case HandlerLeave(g) => g in s.gs && s.gs[g].HandlerCounted?
    case TcpConn(h) => h !in s.gs
    case UdpListen(h) => h !in s.gs
    case UdpFirstDatagram(g) => At(s, g, UdpIdle)
    case PickSession(g, ss) => s.monitor.Resting? && g in s.gs && s.gs[g].OpenerStart? && ss in s.sessions
    case PickNothing(g) => s.monitor.Resting? && g in s.gs && s.gs[g].OpenerStart?
    case OpenOk(g) => g in s.gs && s.gs[g].OpenerPicked?
    case OpenError(g) => s.monitor.Resting? && g in s.gs && s.gs[g].OpenerPicked?
    case EvictClose(g) => g in s.gs && s.gs[g].OpenerEvicting?
    case Increment(g) => g in s.gs && s.gs[g].OpenerOpened?
    case HeaderOk(g) => g in s.gs && s.gs[g].OpenerCounted?
    case HeaderError(g) => g in s.gs && s.gs[g].OpenerCounted?
    case Undo(g) => g in s.gs && s.gs[g].OpenerFailing?
    case RelayDone(g) => g in s.gs && s.gs[g].TcpRelay?
    case SpawnReader(g, h) => g in s.gs && s.gs[g].UdpHolding? && h !in s.gs
    case ReaderDone(g) => g in s.gs && s.gs[g].UdpReader?
    case FakeStart(h, ss) => h !in s.gs && ss in s.added
    case FakeDone(g) => g in s.gs && s.gs[g].FakeSender?
    case SessionDies(ss) => ss in s.added
    case HealthBegin => s.monitor.Resting?
    case HealthLook => s.monitor.Scanning? && s.monitor.next < |s.sessions|
    case HealthEnd => s.monitor.Scanning? && s.monitor.next == |s.sessions|
  }

  function Go(s: State, g: Gid, pc: Pc): State {
    s.(gs := s.gs[g := pc])
  }

  function Bump(s: State, ss: Session, d: int): State {
    s.(streams := s.streams[ss := (if ss in s.streams then s.streams[ss] else 0) + d])
  }

  function Drop(s: State, dead: set<Session>): State {
    s.(sessions := Without(s.sessions, dead), gone := s.gone + dead)
  }

  function Close(s: State, ss: Session): State {
    s.(closed := s.closed + {ss})
  }

  // The caller of openReverseStream after a failure.
  function GiveUp(c: Caller): Pc {
    if c.Tcp? then Finished else UdpIdle
  }

  // Sessions dying and the health monitor move no goroutine.
  predicate NoMover(a: Action) {
    a.SessionDies? || a.HealthBegin? || a.HealthLook? || a.HealthEnd?
  }

  // The goroutine whose point changes in an action that moves one of them.
  function Mover(a: Action): Gid
    requires !NoMover(a)
  {
    if a.AcceptStream? || a.TcpConn? || a.UdpListen? || a.FakeStart? then a.h else a.g
  }

  // What an action does to what the goroutines share.
  function Shared(s: State, a: Action): State
    requires Enabled(s, a)
  {
    match a
    case NewSession(g, ss) =>
      s.(sessions := s.sessions + [ss], streams := s.streams[ss := 0], added := s.added + [ss])
    case AcceptError(g) => Drop(s, {s.gs[g].ss})
    case AcceptorClose(g) => Close(s, s.gs[g].ss)
    case HandlerEnter(g) => Bump(s, s.gs[g].ss, 1)
    case HandlerLeave(g) => Bump(s, s.gs[g].ss, -1)
    case OpenError(g) => Drop(s, {s.gs[g].ss})
    case EvictClose(g) => Close(s, s.gs[g].ss)
    case Increment(g) => Bump(s, s.gs[g].ss, 1)
    case Undo(g) => Bump(s, s.gs[g].ss, -1)
    case RelayDone(g) => Bump(s, s.gs[g].ss, -1)
    case SpawnReader(g, h) => Go(s, h, UdpReader(s.gs[g].ss))
    case ReaderDone(g) => Bump(s, s.gs[g].ss, -1)
    case SessionDies(ss) => Close(s, ss)
    case HealthBegin => s.(monitor := Begin(s.closed))
    case HealthLook => s.(monitor := Look(s.monitor, s.sessions, s.closed))
    case HealthEnd => s.(sessions := s.monitor.alive, gone := s.gone + s.monitor.found, monitor := Resting)
    case _ => s
  }

  // Where the goroutine that moves goes.
  function NextPc(s: State, a: Action): Pc
    requires Enabled(s, a) && !NoMover(a)
  {
    match a
    case NewSession(g, ss) => Acceptor(ss)
    case AcceptStream(g, h) => HandlerSpawned(s.gs[g].ss)
    case AcceptError(g) => AcceptorClosing(s.gs[g].ss)
    case HandlerEnter(g) => HandlerCounted(s.gs[g].ss)
    case TcpConn(h) => OpenerStart(Tcp)
    case UdpListen(h) => UdpIdle
    case UdpFirstDatagram(g) => OpenerStart(Udp)
    case PickSession(g, ss) => OpenerPicked(ss, s.gs[g].caller)
    case PickNothing(g) => GiveUp(s.gs[g].caller)
    case OpenOk(g) => OpenerOpened(s.gs[g].ss, s.gs[g].caller)
    case OpenError(g) => OpenerEvicting(s.gs[g].ss, s.gs[g].caller)
    case EvictClose(g) => GiveUp(s.gs[g].caller)
    case Increment(g) => OpenerCounted(s.gs[g].ss, s.gs[g].caller)
    case HeaderOk(g) => if s.gs[g].caller.Tcp? then TcpRelay(s.gs[g].ss) else UdpHolding(s.gs[g].ss)
    case HeaderError(g) => OpenerFailing(s.gs[g].ss, s.gs[g].caller)
    case Undo(g) => GiveUp(s.gs[g].caller)
    case SpawnReader(g, h) => UdpIdle
    case FakeStart(h, ss) => FakeSender(ss)
    case _ => Finished
  }

  function Step(s: State, a: Action): State
    requires Enabled(s, a)
  {
    if NoMover(a) then Shared(s, a) else Go(Shared(s, a), Mover(a), NextPc(s, a))
  }

  function CountedOn(gs: map<Gid, Pc>, ss: Session): set<Gid> {
    set g | g in gs && Counts(gs[g], ss)
  }

  function Before(gs: map<Gid, Pc>, g: Gid, ss: Session): int {
    One(g in gs && Counts(gs[g], ss))
  }

  ghost predicate Balanced(s: State) {
    forall ss | ss in s.streams :: s.streams[ss] == |CountedOn(s.gs, ss)|
  }

  // Every goroutine speaks of sessions that were added, and every counted one has a counter.
  ghost predicate Known(s: State) {
    && s.streams.Keys == (set ss | ss in s.added)
    && forall g, ss | g in s.gs && Mentions(s.gs[g], ss) :: ss in s.added
  }

  predicate Mentions(pc: Pc, ss: Session) {
    match pc
    case OpenerStart(_) => false
    case UdpIdle => false
    case Finished => false
    case _ => pc.ss == ss
  }

  ghost predicate PoolOk(s: State) {
    Refines(s.sessions, s.added, s.gone) && s.gone <= (set ss | ss in s.added) && s.closed <= (set ss | ss in s.added)
  }

  // A session that left the pool is closed, or is about to be by the one who removed it.
  ghost predicate GoneCloses(s: State) {
    forall ss | ss in s.gone :: ss in s.closed || exists g :: g in s.gs && WillClose(s.gs[g], ss)
  }

  ghost predicate Inv(s: State) {
    Balanced(s) && Known(s) && PoolOk(s) && GoneCloses(s) && MonitorOk(s.monitor, s.sessions, s.closed)
  }

  lemma TakeOne(s: set<Gid>, g: Gid)
    ensures |s| == |s - {g}| + One(g in s)
  {
    if g in s {
      assert s == (s - {g}) + {g};
    } else {
      assert s == s - {g};
    }
  }

  lemma MoveMember(gs: map<Gid, Pc>, g: Gid, pc: Pc, ss: Session)
    ensures g in CountedOn(gs[g := pc], ss) <==> Counts(pc, ss)
    ensures CountedOn(gs[g := pc], ss) - {g} == CountedOn(gs, ss) - {g}
  {
    var gs' := gs[g := pc];
    assert forall h | h != g :: (h in gs' <==> h in gs) && (h in gs ==> gs'[h] == gs[h]);
  }

  lemma MoveCount(gs: map<Gid, Pc>, g: Gid, pc: Pc, ss: Session)
    ensures |CountedOn(gs[g := pc], ss)| == |CountedOn(gs, ss)| - Before(gs, g, ss) + One(Counts(pc, ss))
  {
    MoveMember(gs, g, pc, ss);
    TakeOne(CountedOn(gs, ss), g);
    TakeOne(CountedOn(gs[g := pc], ss), g);
  }

  // Moving one goroutine and adjusting one counter by the difference keeps the books.
  lemma MoveBalanced(s: State, s': State, g: Gid, pc: Pc)
    requires Balanced(s) && s'.gs == s.gs[g := pc] && s'.streams.Keys == s.streams.Keys
    requires forall ss | ss in s.streams ::
      s'.streams[ss] == s.streams[ss] - Before(s.gs, g, ss) + One(Counts(pc, ss))
    ensures Balanced(s')
  {
    forall ss | ss in s'.streams
      ensures s'.streams[ss] == |CountedOn(s'.gs, ss)|
    {
      MoveCount(s.gs, g, pc, ss);
    }
  }

  lemma NewSessionBalanced(s: State, g: Gid, ss: Session)
    requires Inv(s) && Enabled(s, NewSession(g, ss))
    ensures Balanced(Step(s, NewSession(g, ss)))
  {
    var s' := Step(s, NewSession(g, ss));
    forall x | x in s'.streams
      ensures s'.streams[x] == |CountedOn(s'.gs, x)|
    {
      MoveCount(s.gs, g, Acceptor(ss), x);
      if x == ss {
        assert forall h | h in s.gs && Counts(s.gs[h], ss) :: Mentions(s.gs[h], ss);
        assert CountedOn(s.gs, ss) == {};
      }
    }
  }

  lemma SpawnReaderBalanced(s: State, g: Gid, h: Gid)
    requires Inv(s) && Enabled(s, SpawnReader(g, h))
    ensures Balanced(Step(s, SpawnReader(g, h)))
  {
    var s' := Step(s, SpawnReader(g, h));
    forall x | x in s'.streams
      ensures s'.streams[x] == |CountedOn(s'.gs, x)|
    {
      MoveCount(s.gs, h, UdpReader(s.gs[g].ss), x);
      MoveCount(s.gs[h := UdpReader(s.gs[g].ss)], g, UdpIdle, x);
    }
  }

  predicate Counter(a: Action) {
    CountsUp(a) || CountsDown(a)
  }

  predicate CountsUp(a: Action) {
    a.HandlerEnter? || a.Increment?
  }

  predicate CountsDown(a: Action) {
    a.HandlerLeave? || a.Undo? || a.RelayDone? || a.ReaderDone?
  }

  // An increment moves its goroutine into the counted stretch, a decrement out of it.
  lemma CounterUp(s: State, a: Action)
    requires Enabled(s, a) && CountsUp(a)
    ensures var pc, pc' := s.gs[a.g], NextPc(s, a);
      && Mentions(pc, pc.ss) && Step(s, a) == Go(Bump(s, pc.ss, 1), a.g, pc')
      && (forall x :: !Counts(pc, x)) && forall x :: Counts(pc', x) <==> x == pc.ss
  {
  }

  lemma CountedPc(s: State, a: Action)
    requires Enabled(s, a) && CountsDown(a)
    ensures var pc := s.gs[a.g];
      Mentions(pc, pc.ss) && forall x :: Counts(pc, x) <==> x == pc.ss
  {
  }

  lemma CounterDown(s: State, a: Action)
    requires Enabled(s, a) && CountsDown(a)
    ensures Step(s, a) == Go(Bump(s, s.gs[a.g].ss, -1), a.g, NextPc(s, a))
    ensures forall x :: !Counts(NextPc(s, a), x)
  {
  }

  lemma CounterBalanced(s: State, a: Action)
    requires Inv(s) && Enabled(s, a) && Counter(a)
    ensures Balanced(Step(s, a))
  {
    if CountsUp(a) {
      CounterUp(s, a);
      BumpBalanced(s, s.gs[a.g].ss, 1, a.g, NextPc(s, a));
    } else {
      CountedPc(s, a);
      CounterDown(s, a);
      BumpBalanced(s, s.gs[a.g].ss, -1, a.g, NextPc(s, a));
    }
  }

  lemma BumpBalanced(s: State, ss: Session, d: int, g: Gid, pc: Pc)
    requires Balanced(s) && ss in s.streams && g in s.gs
    requires d == One(Counts(pc, ss)) - One(Counts(s.gs[g], ss))
    requires forall x | x != ss :: !Counts(s.gs[g], x) && !Counts(pc, x)
    ensures Balanced(Go(Bump(s, ss, d), g, pc))
  {
    MoveBalanced(s, Go(Bump(s, ss, d), g, pc), g, pc);
  }

  lemma PlainBalanced(s: State, a: Action)
    requires Inv(s) && Enabled(s, a) && !a.NewSession? && !a.SpawnReader? && !Counter(a) && !NoMover(a)
    ensures Balanced(Step(s, a))
  {
    PlainStep(s, a);
    MoveBalanced(s, Step(s, a), Mover(a), Step(s, a).gs[Mover(a)]);
  }

  lemma StillBalanced(s: State, a: Action)
    requires Balanced(s) && Enabled(s, a) && NoMover(a)
    ensures Balanced(Step(s, a))
  {
    assert Step(s, a).gs == s.gs && Step(s, a).streams == s.streams;
  }

  lemma StepBalanced(s: State, a: Action)
    requires Inv(s) && Enabled(s, a)
    ensures Balanced(Step(s, a))
  {
    if a.NewSession? {
      NewSessionBalanced(s, a.g, a.ss);
    } else if a.SpawnReader? {
      SpawnReaderBalanced(s, a.g, a.h);
    } else if Counter(a) {
      CounterBalanced(s, a);
    } else if NoMover(a) {
      StillBalanced(s, a);
    } else {
      PlainBalanced(s, a);
    }
  }

  // No other action crosses a boundary of the counted stretch.
  lemma PlainStep(s: State, a: Action)
    requires Enabled(s, a) && !a.NewSession? && !a.SpawnReader? && !Counter(a)
    requires !NoMover(a)
    ensures var g := Mover(a);
      && g in Step(s, a).gs
      && Step(s, a).gs == s.gs[g := Step(s, a).gs[g]]
      && Step(s, a).streams == s.streams
      && forall ss :: Before(s.gs, g, ss) == One(Counts(Step(s, a).gs[g], ss))
  {
  }

  // A goroutine that starts to speak of a session has it from its past, from the goroutine
  // that started it, or from the pool.
  lemma NewMention(s: State, a: Action, ss: Session)
    requires Enabled(s, a) && !NoMover(a) && Mentions(NextPc(s, a), ss)
    ensures
      || (a.NewSession? && a.ss == ss) || (a.FakeStart? && ss in s.added)
      || (a.PickSession? && ss in s.sessions)
      || (!a.TcpConn? && !a.UdpListen? && !a.FakeStart? && a.g in s.gs && Mentions(s.gs[a.g], ss))
  {
  }

  lemma MentionKnown(s: State, a: Action, ss: Session)
    requires Inv(s) && Enabled(s, a) && !NoMover(a) && Mentions(NextPc(s, a), ss)
    ensures ss in Shared(s, a).added
  {
    NewMention(s, a, ss);
    AddedGrows(s, a);
    if a.PickSession? {
      WithoutMembers(s.added, s.gone);
    }
  }

  lemma ReaderKnown(s: State, g: Gid, h: Gid)
    requires Inv(s) && Enabled(s, SpawnReader(g, h))
    ensures Mentions(s.gs[g], s.gs[g].ss) && s.gs[g].ss in s.added
  {
  }

  // Goroutines other than the mover stand still.
  lemma Others(s: State, a: Action, g: Gid)
    requires Enabled(s, a) && g in Step(s, a).gs
    requires NoMover(a) || (g != Mover(a) && (a.SpawnReader? ==> g != a.h))
    ensures g in s.gs && Step(s, a).gs[g] == s.gs[g]
  {
  }

  lemma AddedGrows(s: State, a: Action)
    requires Enabled(s, a)
    ensures s.added <= Shared(s, a).added && Step(s, a).added == Shared(s, a).added
  {
  }

  lemma StepKnown(s: State, a: Action)
    requires Inv(s) && Enabled(s, a)
    ensures Known(Step(s, a))
  {
    AddedGrows(s, a);
    forall g, ss | g in Step(s, a).gs && Mentions(Step(s, a).gs[g], ss)
      ensures ss in Step(s, a).added
    {
      if a.SpawnReader? && g == a.h {
        ReaderKnown(s, a.g, a.h);
      } else if !NoMover(a) && g == Mover(a) {
        MentionKnown(s, a, ss);
      } else {
        Others(s, a, g);
        assert Mentions(s.gs[g], ss);
      }
    }
    KnownKeys(s, a);
  }

  lemma KnownKeys(s: State, a: Action)
    requires Inv(s) && Enabled(s, a)
    ensures Step(s, a).streams.Keys == (set ss | ss in Step(s, a).added)
  {
    if CountsUp(a) {
      CounterUp(s, a);
    } else if CountsDown(a) {
      CountedPc(s, a);
      CounterDown(s, a);
    } else if a.NewSession? {
      assert s.streams[a.ss := 0].Keys == s.streams.Keys + {a.ss};
    } else {
      SameCounters(s, a);
    }
  }

  lemma SameCounters(s: State, a: Action)
    requires Enabled(s, a) && !Counter(a) && !a.NewSession?
    ensures Step(s, a).streams == s.streams && Step(s, a).added == s.added
  {
  }

  lemma DropPool(s: State, dead: set<Session>)
    requires PoolOk(s) && dead <= (set ss | ss in s.added)
    ensures PoolOk(Drop(s, dead))
  {
    WithoutTwice(s.added, s.gone, dead);
  }

  predicate Closes(a: Action) {
    a.AcceptorClose? || a.EvictClose? || a.SessionDies?
  }

  lemma RemovePool(s: State, a: Action)
    requires Inv(s) && Enabled(s, a) && Removes(a)
    ensures PoolOk(Shared(s, a))
  {
    if a.HealthEnd? {
      TickExact(s.monitor, s.sessions, s.closed);
      DropPool(s, s.monitor.found);
    } else {
      assert Mentions(s.gs[a.g], s.gs[a.g].ss);
      DropPool(s, {s.gs[a.g].ss});
    }
  }

  lemma ClosePool(s: State, a: Action)
    requires Inv(s) && Enabled(s, a) && Closes(a)
    ensures PoolOk(Shared(s, a))
  {
    if !a.SessionDies? {
      assert Mentions(s.gs[a.g], s.gs[a.g].ss);
    }
  }

  lemma SamePool(s: State, a: Action)
    requires Enabled(s, a) && !a.NewSession? && !Removes(a) && !Closes(a)
    ensures var t := Shared(s, a);
      t.sessions == s.sessions && t.added == s.added && t.gone == s.gone && t.closed == s.closed
  {
  }

  lemma StepPool(s: State, a: Action)
    requires Inv(s) && Enabled(s, a)
    ensures PoolOk(Step(s, a))
  {
    if a.NewSession? {
      OrderedSet(s.sessions, s.added, s.gone, a.ss, []);
    } else if Removes(a) {
      RemovePool(s, a);
    } else if Closes(a) {
      ClosePool(s, a);
    } else {
      SamePool(s, a);
    }
  }

  // Whoever has to close a session stays in charge of it until it has.
  lemma StillCloses(s: State, a: Action, g: Gid, ss: Session)
    requires Enabled(s, a) && g in s.gs && WillClose(s.gs[g], ss)
    ensures ss in Step(s, a).closed || (g in Step(s, a).gs && WillClose(Step(s, a).gs[g], ss))
  {
    if !NoMover(a) && g == Mover(a) {
      assert a.AcceptorClose? || a.EvictClose?;
    } else {
      SameGs(s, a, g);
    }
  }

  lemma SameGs(s: State, a: Action, g: Gid)
    requires Enabled(s, a) && g in s.gs && (NoMover(a) || g != Mover(a))
    ensures g in Step(s, a).gs && Step(s, a).gs[g] == s.gs[g]
  {
  }

  predicate Removes(a: Action) {
    a.AcceptError? || a.OpenError? || a.HealthEnd?
  }

  lemma NoneGone(s: State, a: Action)
    requires Enabled(s, a) && !Removes(a)
    ensures Step(s, a).gone == s.gone
  {
  }

  lemma NewlyGone(s: State, a: Action, ss: Session)
    requires Inv(s) && Enabled(s, a) && Removes(a) && ss in Step(s, a).gone && ss !in s.gone
    ensures ss in Step(s, a).closed || (!a.HealthEnd? && a.g in Step(s, a).gs && WillClose(Step(s, a).gs[a.g], ss))
  {
  }

  lemma ClosedGrows(s: State, a: Action)
    requires Enabled(s, a)
    ensures s.closed <= Step(s, a).closed
  {
  }

  lemma StepGone(s: State, a: Action)
    requires Inv(s) && Enabled(s, a)
    ensures GoneCloses(Step(s, a))
  {
    ClosedGrows(s, a);
    forall ss | ss in Step(s, a).gone
      ensures ss in Step(s, a).closed || exists g :: g in Step(s, a).gs && WillClose(Step(s, a).gs[g], ss)
    {
      if ss !in s.gone {
        if Removes(a) {
          NewlyGone(s, a, ss);
        } else {
          NoneGone(s, a);
        }
      } else if ss !in s.closed {
        var g :| g in s.gs && WillClose(s.gs[g], ss);
        StillCloses(s, a, g, ss);
      }
    }
  }

  // The pool lock keeps the pool still under the monitor.
  lemma StepMonitor(s: State, a: Action)
    requires Inv(s) && Enabled(s, a)
    ensures var s' := Step(s, a); MonitorOk(s'.monitor, s'.sessions, s'.closed)
  {
    if a.HealthLook? {
      WithoutMembers(s.added, s.gone);
      LookKeeps(s.monitor, s.sessions, s.closed);
    } else if !a.HealthBegin? && s.monitor.Scanning? {
      ClosedGrows(s, a);
      UnderLock(s, a);
    }
  }

  lemma UnderLock(s: State, a: Action)
    requires Enabled(s, a) && s.monitor.Scanning? && !a.HealthLook?
    ensures a.HealthEnd? || Shared(s, a).sessions == s.sessions
    ensures Shared(s, a).monitor == if a.HealthEnd? then Resting else s.monitor
  {
  }

  ghost predicate Runs(s: State, acts: seq<Action>)
    decreases |acts|
  {
    acts == [] || (Enabled(s, acts[0]) && Runs(Step(s, acts[0]), acts[1..]))
  }

  ghost function After(s: State, acts: seq<Action>): State
    requires Runs(s, acts)
    decreases |acts|
  {
    if acts == [] then s else After(Step(s, acts[0]), acts[1..])
  }

  lemma {:induction false} RunKeeps(s: State, acts: seq<Action>)
    requires Inv(s) && Runs(s, acts)
    ensures Inv(After(s, acts))
    decreases |acts|
  {
    if acts != [] {
      StepBalanced(s, acts[0]);
      StepKnown(s, acts[0]);
      StepPool(s, acts[0]);
      StepGone(s, acts[0]);
      StepMonitor(s, acts[0]);
      RunKeeps(Step(s, acts[0]), acts[1..]);
    }
  }

  lemma ReachableInv(acts: seq<Action>)
    requires Runs(START, acts)
    ensures Inv(After(START, acts))
  {
    assert Inv(START);
    RunKeeps(START, acts);
  }

  // Stream-count conservation over every run: each counter is the number of goroutines
  // between its increment and the matching decrement. So it is never negative, and it
  // is zero as soon as none of them is left, whatever else still runs.
  lemma StreamConservation(acts: seq<Action>, ss: Session)
    requires Runs(START, acts) && ss in After(START, acts).added
    ensures var s := After(START, acts);
      && ss in s.streams
      && s.streams[ss] == |CountedOn(s.gs, ss)| >= 0
      && ((forall g | g in s.gs :: !Counts(s.gs[g], ss)) ==> s.streams[ss] == 0)
  {
    ReachableInv(acts);
    var s := After(START, acts);
    assert (forall g | g in s.gs :: !Counts(s.gs[g], ss)) ==> CountedOn(s.gs, ss) == {};
  }

  // Pool safety over every run: no duplicates, insertion order, exactly the sessions
  // added and not yet removed; and nothing leaves the pool without being closed.
  lemma PoolSafety(acts: seq<Action>)
    requires Runs(START, acts)
    ensures var s := After(START, acts);
      && NoDup(s.sessions)
      && s.sessions == Without(s.added, s.gone)
      && (forall ss | ss in s.added && ss !in s.sessions ::
            ss in s.closed || exists g :: g in s.gs && WillClose(s.gs[g], ss))
  {
    ReachableInv(acts);
    var s := After(START, acts);
    WithoutMembers(s.added, s.gone);
  }

  // In every run a tick of the monitor evicts every session that was closed when the tick
  // began, evicts only sessions that are closed, and keeps the others in order.
  lemma TickOverRuns(acts: seq<Action>, x: Session)
    requires Runs(START, acts) && Enabled(After(START, acts), HealthEnd)
    ensures var s := After(START, acts);
      var s' := Step(s, HealthEnd);
      && s'.sessions == Without(s.sessions, s.monitor.found)
      && (x in s.monitor.since ==> x !in s'.sessions)
      && (x in s.sessions && x !in s'.sessions ==> x in s.closed)
  {
    ReachableInv(acts);
    var s := After(START, acts);
    TickExact(s.monitor, s.sessions, s.closed);
  }
}
