// The client's goroutines around its session pool: workers that own a session each,
// forward streams being opened over a copy of the pool, and the health check.
module ClientRun {
  import opened HealthScan
  import opened SessionPool

  type Gid = nat

  datatype Pc =
    | Worker(ss: Session)                                       // accept loop of its session
    | WorkerClosing(ss: Session)                                // removed from the pool, not yet closed
    | Copied(items: seq<Session>)                               // OpenStream has copied the pool
    // ... and tried i sessions; history: bad are those it found closed or failing
    | Scan(items: seq<Session>, counter: nat, i: nat, bad: set<Session>)
    // returned a stream on the session of step i
    | Opened(items: seq<Session>, counter: nat, i: nat, bad: set<Session>)
    // returned an error
    | GaveUp(items: seq<Session>, counter: nat, bad: set<Session>)
    | Finished

  datatype State = State(
    sessions: seq<Session>,
    rrIndex: nat,
    closed: set<Session>,
    gs: map<Gid, Pc>,
    monitor: Monitor,
    added: seq<Session>,      // history: every session ever added, in order
    gone: set<Session>,       // history: every session taken out of the pool
    failed: set<Session>)     // history: those taken out because a stream did not open

  const START := State([], 0, {}, map[], Resting, [], {}, {})

  datatype Action =
    | NewSession(g: Gid, ss: Session)
    | AcceptError(g: Gid)         // remove under the lock
    | WorkerClose(g: Gid)
    | OpenStart(g: Gid)           // copy under the lock
    | Count(g: Gid)               // the round-robin counter
    | TryClosed(g: Gid)           // IsClosed
    | TryOk(g: Gid)
    | TryFail(g: Gid)             // remove under the lock, not closed
    | GiveUp(g: Gid)
    | SessionDies(ss: Session)
    | HealthBegin
    | HealthLook
    | HealthEnd

  predicate At(s: State, g: Gid, pc: Pc) {
    g in s.gs && s.gs[g] == pc
  }

  // The scan stands before a session: its index is not negative.
  predicate Trying(s: State, g: Gid) {
    g in s.gs && s.gs[g].Scan? && s.gs[g].i < |s.gs[g].items|
    && ClientIndex(s.gs[g].counter, s.gs[g].i, |s.gs[g].items|) >= 0
  }

  function Tried(s: State, g: Gid): Session
    requires Trying(s, g)
  {
    s.gs[g].items[ClientIndex(s.gs[g].counter, s.gs[g].i, |s.gs[g].items|)]
  }

  predicate Enabled(s: State, a: Action) {
    match a
    case NewSession(g, ss) => s.monitor.Resting? && g !in s.gs && ss !in s.added
    case AcceptError(g) => s.monitor.Resting? && g in s.gs && s.gs[g].Worker?
    case WorkerClose(g) => g in s.gs && s.gs[g].WorkerClosing?
    case OpenStart(g) => s.monitor.Resting? && g !in s.gs
    case Count(g) => g in s.gs && s.gs[g].Copied?
    case TryClosed(g) => Trying(s, g) && Tried(s, g) in s.closed
    case TryOk(g) => Trying(s, g) && Tried(s, g) !in s.closed
    case TryFail(g) => s.monitor.Resting? && Trying(s, g)
    case GiveUp(g) => g in s.gs && s.gs[g].Scan? && s.gs[g].i == |s.gs[g].items|
    case SessionDies(ss) => ss in s.added
    case HealthBegin => s.monitor.Resting?
    case HealthLook => s.monitor.Scanning? && s.monitor.next < |s.sessions|
    case HealthEnd => s.monitor.Scanning? && s.monitor.next == |s.sessions|
  }

  function Go(s: State, g: Gid, pc: Pc): State {
    s.(gs := s.gs[g := pc])
  }

  function Drop(s: State, ss: Session): State {
    s.(sessions := Without(s.sessions, {ss}), gone := s.gone + {ss})
  }

  function Missed(pc: Pc, x: Session): Pc
    requires pc.Scan?
  {
    Scan(pc.items, pc.counter, pc.i + 1, pc.bad + {x})
  }

  function Step(s: State, a: Action): State
    requires Enabled(s, a)
  {
    match a
    case NewSession(g, ss) => Go(s.(sessions := s.sessions + [ss], added := s.added + [ss]), g, Worker(ss))
    case AcceptError(g) => Go(Drop(s, s.gs[g].ss), g, WorkerClosing(s.gs[g].ss))
    case WorkerClose(g) => Go(s.(closed := s.closed + {s.gs[g].ss}), g, Finished)
    case OpenStart(g) => Go(s, g, if s.sessions == [] then GaveUp([], 0, {}) else Copied(s.sessions))
    case Count(g) =>
      var counter := (s.rrIndex + 1) % TWO_64;
      Go(s.(rrIndex := counter), g, Scan(s.gs[g].items, counter, 0, {}))
    case TryClosed(g) => Go(s, g, Missed(s.gs[g], Tried(s, g)))
    case TryOk(g) => Go(s, g, Opened(s.gs[g].items, s.gs[g].counter, s.gs[g].i, s.gs[g].bad))
    case TryFail(g) =>
      var x := Tried(s, g);
      Go(Drop(s, x).(failed := s.failed + {x}), g, Missed(s.gs[g], x))
    case GiveUp(g) => Go(s, g, GaveUp(s.gs[g].items, s.gs[g].counter, s.gs[g].bad))
    case SessionDies(ss) => s.(closed := s.closed + {ss})
    case HealthBegin => s.(monitor := Begin(s.closed))
    case HealthLook => s.(monitor := Look(s.monitor, s.sessions, s.closed))
    case HealthEnd => s.(sessions := s.monitor.alive, gone := s.gone + s.monitor.found, monitor := Resting)
  }

  function Ever(s: State): set<Session> {
    set ss | ss in s.added
  }

  ghost predicate PoolOk(s: State) {
    && Refines(s.sessions, s.added, s.gone)
    && s.gone <= Ever(s) && s.closed <= Ever(s) && s.failed <= s.gone
    && MonitorOk(s.monitor, s.sessions, s.closed)
  }

  // Step j of a scan looked at a session that turned out bad.
  predicate BadAt(items: seq<Session>, counter: nat, bad: set<Session>, j: nat)
    requires j < |items|
  {
    var k := ClientIndex(counter, j, |items|);
    k >= 0 && items[k] in bad
  }

  ghost predicate BadUpTo(items: seq<Session>, counter: nat, bad: set<Session>, i: nat) {
    i <= |items| && forall j | 0 <= j < i :: BadAt(items, counter, bad, j)
  }

  // The copy holds sessions that were added, and the bad ones are closed or have failed.
  predicate ScanOk(s: State, items: seq<Session>, bad: set<Session>) {
    (forall x | x in items :: x in s.added) && bad <= s.closed + s.failed
  }

  // What each goroutine knows of the sessions it holds.
  ghost predicate PcOk(s: State, pc: Pc) {
    match pc
    case Worker(ss) => ss in s.added
    case WorkerClosing(ss) => ss in s.added && ss in s.gone
    case Copied(items) => items != [] && ScanOk(s, items, {})
    case Scan(items, counter, i, bad) => items != [] && ScanOk(s, items, bad) && BadUpTo(items, counter, bad, i)
    case Opened(items, counter, i, bad) =>
      && i < |items| && ClientIndex(counter, i, |items|) >= 0
      && ScanOk(s, items, bad) && BadUpTo(items, counter, bad, i)
    case GaveUp(items, counter, bad) => ScanOk(s, items, bad) && BadUpTo(items, counter, bad, |items|)
    case Finished => true
  }

  // Every session has its worker until it is closed.
  ghost predicate Owned(s: State, ss: Session) {
    ss in s.added ==>
      ss in s.closed || exists g :: At(s, g, Worker(ss)) || At(s, g, WorkerClosing(ss))
  }

  // A session that left the pool is closed, or about to be, or a stream on it failed.
  ghost predicate Left(s: State, ss: Session) {
    ss in s.gone ==>
      ss in s.closed || ss in s.failed || exists g :: At(s, g, WorkerClosing(ss))
  }

  ghost predicate Inv(s: State) {
    && PoolOk(s)
    && (forall g | g in s.gs :: PcOk(s, s.gs[g]))
    && (forall ss :: Owned(s, ss))
    && (forall ss :: Left(s, ss))
  }

  lemma DropPool(s: State, ss: Session)
    requires PoolOk(s) && s.monitor.Resting? && ss in s.added
    ensures PoolOk(Drop(s, ss))
  {
    WithoutTwice(s.added, s.gone, {ss});
  }

  lemma StepPool(s: State, a: Action)
    requires Inv(s) && Enabled(s, a)
    ensures PoolOk(Step(s, a))
  {
    match a
    case NewSession(g, ss) => OrderedSet(s.sessions, s.added, s.gone, ss, []);
    case AcceptError(g) =>
      assert PcOk(s, s.gs[g]);
      DropPool(s, s.gs[g].ss);
    case WorkerClose(g) => assert PcOk(s, s.gs[g]);
    case TryFail(g) =>
      assert PcOk(s, s.gs[g]);
      DropPool(s, Tried(s, g));
    case HealthLook =>
      WithoutMembers(s.added, s.gone);
      LookKeeps(s.monitor, s.sessions, s.closed);
    case HealthEnd =>
      TickExact(s.monitor, s.sessions, s.closed);
      WithoutTwice(s.added, s.gone, s.monitor.found);
    case _ =>
  }

  predicate GrowsTo(s: State, s': State) {
    s.closed <= s'.closed && s.failed <= s'.failed && s.gone <= s'.gone && s.added <= s'.added
  }

  // What a goroutine knows stays true: sessions do not reopen.
  lemma PcStays(s: State, s': State, pc: Pc)
    requires PcOk(s, pc) && GrowsTo(s, s')
    ensures PcOk(s', pc)
  {
  }

  lemma Grows(s: State, a: Action)
    requires Enabled(s, a)
    ensures GrowsTo(s, Step(s, a))
  {
  }

  predicate Moves(a: Action) {
    !a.SessionDies? && !a.HealthBegin? && !a.HealthLook? && !a.HealthEnd?
  }

  lemma BadGrows(items: seq<Session>, counter: nat, bad: set<Session>, bad': set<Session>, j: nat)
    requires j < |items| && BadAt(items, counter, bad, j) && bad <= bad'
    ensures BadAt(items, counter, bad', j)
  {
  }

  lemma OneMoreBad(items: seq<Session>, counter: nat, bad: set<Session>, i: nat, x: Session)
    requires i < |items| && BadUpTo(items, counter, bad, i)
    requires var k := ClientIndex(counter, i, |items|); k >= 0 && items[k] == x
    ensures BadUpTo(items, counter, bad + {x}, i + 1)
  {
    forall j | 0 <= j < i + 1
      ensures BadAt(items, counter, bad + {x}, j)
    {
      if j < i {
        BadGrows(items, counter, bad, bad + {x}, j);
      }
    }
  }

  lemma MissedOk(s: State, g: Gid, closed: set<Session>, failed: set<Session>)
    requires Trying(s, g) && PcOk(s, s.gs[g])
    requires s.closed <= closed && s.failed <= failed && Tried(s, g) in closed + failed
    ensures var pc := Missed(s.gs[g], Tried(s, g));
      && pc.items != [] && (forall x | x in pc.items :: x in s.added)
      && pc.bad <= closed + failed && BadUpTo(pc.items, pc.counter, pc.bad, pc.i)
  {
    var pc := s.gs[g];
    OneMoreBad(pc.items, pc.counter, pc.bad, pc.i, Tried(s, g));
  }

  lemma MovedPc(s: State, a: Action)
    requires Inv(s) && Enabled(s, a) && Moves(a)
    ensures Step(s, a).gs == s.gs[a.g := Step(s, a).gs[a.g]]
    ensures PcOk(Step(s, a), Step(s, a).gs[a.g])
  {
    assert a.g in s.gs ==> PcOk(s, s.gs[a.g]);
    match a
    case OpenStart(g) => WithoutMembers(s.added, s.gone);
    case TryClosed(g) => MissedOk(s, g, s.closed, s.failed);
    case TryFail(g) => MissedOk(s, g, s.closed, s.failed + {Tried(s, g)});
    case _ =>
  }

  lemma StepPcs(s: State, a: Action)
    requires Inv(s) && Enabled(s, a)
    ensures forall g | g in Step(s, a).gs :: PcOk(Step(s, a), Step(s, a).gs[g])
  {
    Grows(s, a);
    if Moves(a) {
      MovedPc(s, a);
    }
    forall g | g in Step(s, a).gs
      ensures PcOk(Step(s, a), Step(s, a).gs[g])
    {
      if !Moves(a) || g != a.g {
        assert PcOk(s, s.gs[g]);
        PcStays(s, Step(s, a), s.gs[g]);
      }
    }
  }

  lemma StepOwned(s: State, a: Action, ss: Session)
    requires Inv(s) && Enabled(s, a)
    ensures Owned(Step(s, a), ss)
  {
    var s' := Step(s, a);
    assert Owned(s, ss);
    if ss in s.added && ss !in s.closed {
      var g :| At(s, g, Worker(ss)) || At(s, g, WorkerClosing(ss));
      assert ss in s'.closed || At(s', g, Worker(ss)) || At(s', g, WorkerClosing(ss));
    } else if a.NewSession? && ss == a.ss {
      assert At(s', a.g, Worker(ss));
    }
  }

  lemma StepLeft(s: State, a: Action, ss: Session)
    requires Inv(s) && Enabled(s, a)
    ensures Left(Step(s, a), ss)
  {
    var s' := Step(s, a);
    assert Left(s, ss);
    if ss in s.gone && ss !in s.closed && ss !in s.failed {
      var g :| At(s, g, WorkerClosing(ss));
      assert ss in s'.closed || At(s', g, WorkerClosing(ss));
    } else if a.AcceptError? && ss == s.gs[a.g].ss {
      assert At(s', a.g, WorkerClosing(ss));
    }
  }

  lemma StepKeeps(s: State, a: Action)
    requires Inv(s) && Enabled(s, a)
    ensures Inv(Step(s, a))
  {
    StepPool(s, a);
    StepPcs(s, a);
    forall ss
      ensures Owned(Step(s, a), ss) && Left(Step(s, a), ss)
    {
      StepOwned(s, a, ss);
      StepLeft(s, a, ss);
    }
  }

  ghost predicate Runs(s: State, acts: seq<Action>)
    decreases |acts|
  {
    acts == [] || (Enabled(s, acts[0]) && Runs(Step(s, acts[0]), acts[1..]))
  }

  ghost function After(s: State, acts: seq<Action>): State
    requires Runs(s, acts)
    decreases |acts|
  {
    if acts == [] then s else After(Step(s, acts[0]), acts[1..])
  }

  lemma {:induction false} RunKeeps(s: State, acts: seq<Action>)
    requires Inv(s) && Runs(s, acts)
    ensures Inv(After(s, acts))
    decreases |acts|
  {
    if acts != [] {
      StepKeeps(s, acts[0]);
      RunKeeps(Step(s, acts[0]), acts[1..]);
    }
  }

  lemma ReachableInv(acts: seq<Action>)
    requires Runs(START, acts)
    ensures Inv(After(START, acts))
  {
    assert Inv(START);
    RunKeeps(START, acts);
  }

  // Pool safety over every run: no duplicates, insertion order, exactly the sessions added
  // and not yet removed. An open session is out of the pool exactly when its worker is about
  // to close it or a stream on it failed to open; in either case its worker still runs.
  lemma PoolSafety(acts: seq<Action>, ss: Session)
    requires Runs(START, acts)
    ensures var s := After(START, acts);
      && NoDup(s.sessions)
      && s.sessions == Without(s.added, s.gone)
      && (ss in s.failed ==> ss !in s.sessions)
      && (ss in s.added && ss !in s.closed ==>
            && (ss !in s.sessions <==> ss in s.failed || exists g :: At(s, g, WorkerClosing(ss)))
            && exists g :: At(s, g, Worker(ss)) || At(s, g, WorkerClosing(ss)))
  {
    ReachableInv(acts);
    var s := After(START, acts);
    WithoutMembers(s.added, s.gone);
    assert Owned(s, ss) && Left(s, ss);
    forall g | At(s, g, WorkerClosing(ss))
      ensures ss in s.gone
    {
      assert PcOk(s, s.gs[g]);
    }
  }

  // ---------- The failed open ----------

  lemma RunCons(s: State, a: Action, rest: seq<Action>)
    requires Enabled(s, a) && Runs(Step(s, a), rest)
    ensures Runs(s, [a] + rest)
    ensures After(s, [a] + rest) == After(Step(s, a), rest)
  {
    assert ([a] + rest)[1..] == rest;
  }

  // Goroutine 0 owns the only session; goroutine 1 opens a stream on it, which fails.
  function FailedOpen(ss: Session): seq<Action> {
    [NewSession(0, ss)] + ([OpenStart(1)] + ([Count(1)] + ([TryFail(1)] + [])))
  }

  // So a session does get lost to the pool although it is open and its worker serves it:
  // the server closes a session it evicts, the client does not.
  lemma LostReachable(ss: Session)
    ensures var acts := FailedOpen(ss);
      && Runs(START, acts)
      && var s := After(START, acts);
         ss in s.added && ss !in s.sessions && ss !in s.closed && At(s, 0, Worker(ss))
  {
    var s1 := Step(START, NewSession(0, ss));
    var s2 := Step(s1, OpenStart(1));
    var s3 := Step(s2, Count(1));
    assert s1.sessions == [ss];
    assert ClientIndex(1, 0, 1) == 0;
    var s4 := Step(s3, TryFail(1));
    assert s4.sessions == Without([ss], {ss}) == [];
    RunCons(s3, TryFail(1), []);
    RunCons(s2, Count(1), [TryFail(1)] + []);
    RunCons(s1, OpenStart(1), [Count(1)] + ([TryFail(1)] + []));
    RunCons(START, NewSession(0, ss), [OpenStart(1)] + ([Count(1)] + ([TryFail(1)] + [])));
  }

  lemma LostStep(s: State, a: Action, ss: Session)
    requires Inv(s) && Enabled(s, a) && ss in s.failed
    ensures ss in Step(s, a).failed
  {
  }

  // And it never comes back, whatever happens afterwards.
  lemma {:induction false} LostForever(s: State, acts: seq<Action>, ss: Session)
    requires Inv(s) && Runs(s, acts) && ss in s.failed
    ensures ss !in After(s, acts).sessions
    decreases |acts|
  {
    if acts == [] {
      WithoutMembers(s.added, s.gone);
    } else {
      StepKeeps(s, acts[0]);
      LostStep(s, acts[0], ss);
      LostForever(Step(s, acts[0]), acts[1..], ss);
    }
  }

  // ---------- The health check and the scan ----------

  // A tick of the health check is exact, as on the server.
  lemma TickOverRuns(acts: seq<Action>, x: Session)
    requires Runs(START, acts) && Enabled(After(START, acts), HealthEnd)
    ensures var s := After(START, acts);
      var s' := Step(s, HealthEnd);
      && s'.sessions == Without(s.sessions, s.monitor.found)
      && (x in s.monitor.since ==> x !in s'.sessions)
      && (x in s.sessions && x !in s'.sessions ==> x in s.closed)
  {
    ReachableInv(acts);
    var s := After(START, acts);
    TickExact(s.monitor, s.sessions, s.closed);
  }

  // Below 2^63 a scan visits every session of its copy.
  lemma Visited(n: nat, counter: nat, k: nat) returns (j: nat)
    requires k < n && counter + n <= TWO_63
    ensures j < n && ClientIndex(counter, j, n) == k && Steps(counter % n, k, n) == j
  {
    OrderExact(counter, n);
    StepsBack(counter % n, k, n);
    j := Steps(counter % n, k, n);
    StepsInjective(counter % n, ClientIndex(counter, j, n), k, n);
  }

  // OpenStream among all other goroutines. The session it opens was reached in cyclic order
  // from the counter, and every session of the copy before it had been found closed or had
  // failed to open a stream; when it gives up, this holds of every session of the copy.
  lemma ScanSound(acts: seq<Action>, g: Gid, k: nat)
    requires Runs(START, acts) && g in After(START, acts).gs
    requires var pc := After(START, acts).gs[g];
      (pc.Opened? || pc.GaveUp?) && k < |pc.items| && pc.counter + |pc.items| <= TWO_63
    ensures var s := After(START, acts);
      var pc := s.gs[g];
      var n, start := |pc.items|, pc.counter % |pc.items|;
      && pc.bad <= s.closed + s.failed
      && (pc.GaveUp? ==> pc.items[k] in pc.bad)
      && (pc.Opened? ==>
            var at := ClientIndex(pc.counter, pc.i, n);
            && 0 <= at < n && Steps(start, at, n) == pc.i
            && (Steps(start, k, n) < pc.i ==> pc.items[k] in pc.bad))
  {
    ReachableInv(acts);
    var s := After(START, acts);
    var pc := s.gs[g];
    assert PcOk(s, pc);
    var j := Visited(|pc.items|, pc.counter, k);
    if pc.GaveUp? || j < pc.i {
      assert BadAt(pc.items, pc.counter, pc.bad, j);
    }
    if pc.Opened? {
      ClientIndexExact(pc.counter, pc.i, |pc.items|);
    }
  }

  // ---------- The scan against the pool and the counter ----------

  // What a run shows of each OpenStream: the pool when it took its copy, the how-manieth
  // use of the counter it was, and how many sessions it has tried in vain.
  datatype Seen = Seen(pools: map<Gid, seq<Session>>, turns: map<Gid, nat>, tries: map<Gid, nat>, total: nat)

  const UNSEEN := Seen(map[], map[], map[], 0)

  function Watch(s: State, a: Action, seen: Seen): Seen {
    match a
    case OpenStart(g) => seen.(pools := seen.pools[g := s.sessions])
    case Count(g) =>
      seen.(turns := seen.turns[g := seen.total + 1], tries := seen.tries[g := 0], total := seen.total + 1)
    case TryClosed(g) => OneMoreTry(seen, g)
    case TryFail(g) => OneMoreTry(seen, g)
    case _ => seen
  }

  function OneMoreTry(seen: Seen, g: Gid): Seen {
    if g in seen.tries then seen.(tries := seen.tries[g := seen.tries[g] + 1]) else seen
  }

  // The session that g tries next.
  function Target(seen: Seen, g: Gid): set<Session> {
    if g in seen.pools && g in seen.turns && g in seen.tries && seen.pools[g] != [] then
      var at := ClientIndex(seen.turns[g] % TWO_64, seen.tries[g], |seen.pools[g]|);
      if at >= 0 then {seen.pools[g][at]} else {}
    else {}
  }

  ghost function Watched(s: State, acts: seq<Action>, seen: Seen): Seen
    requires Runs(s, acts)
    decreases |acts|
  {
    if acts == [] then seen else Watched(Step(s, acts[0]), acts[1..], Watch(s, acts[0], seen))
  }

  // g works on the pool it saw, with the counter of its turn.
  predicate OnCopy(items: seq<Session>, g: Gid, seen: Seen) {
    g in seen.pools && items == seen.pools[g]
  }

  predicate OnTurn(counter: nat, g: Gid, seen: Seen) {
    g in seen.turns && counter == seen.turns[g] % TWO_64
  }

  predicate OnTry(i: nat, g: Gid, seen: Seen) {
    g in seen.tries && i == seen.tries[g]
  }

  predicate PcSeen(pc: Pc, g: Gid, seen: Seen) {
    match pc
    case Copied(items) => OnCopy(items, g, seen)
    case Scan(items, counter, i, _) => OnCopy(items, g, seen) && OnTurn(counter, g, seen) && OnTry(i, g, seen)
    case Opened(items, counter, i, _) => OnCopy(items, g, seen) && OnTurn(counter, g, seen) && OnTry(i, g, seen)
    case GaveUp(items, counter, _) => OnCopy(items, g, seen) && (items != [] ==> OnTurn(counter, g, seen))
    case _ => true
  }

  ghost predicate SeenOk(s: State, seen: Seen) {
    s.rrIndex == seen.total % TWO_64 && forall g | g in s.gs :: PcSeen(s.gs[g], g, seen)
  }

  lemma NextTurn(total: nat)
    ensures (total % TWO_64 + 1) % TWO_64 == (total + 1) % TWO_64
  {
  }

  lemma SeenMover(s: State, a: Action, seen: Seen)
    requires SeenOk(s, seen) && Enabled(s, a) && Moves(a)
    ensures PcSeen(Step(s, a).gs[a.g], a.g, Watch(s, a, seen))
  {
    assert a.g in s.gs ==> PcSeen(s.gs[a.g], a.g, seen);
    if a.Count? {
      NextTurn(seen.total);
    }
  }

  lemma SeenOther(s: State, a: Action, seen: Seen, g: Gid)
    requires SeenOk(s, seen) && Enabled(s, a) && g in Step(s, a).gs && (Moves(a) ==> g != a.g)
    ensures PcSeen(Step(s, a).gs[g], g, Watch(s, a, seen))
  {
    assert PcSeen(s.gs[g], g, seen);
  }

  lemma SeenStep(s: State, a: Action, seen: Seen)
    requires SeenOk(s, seen) && Enabled(s, a)
    ensures SeenOk(Step(s, a), Watch(s, a, seen))
  {
    if a.Count? {
      NextTurn(seen.total);
    }
    forall g | g in Step(s, a).gs
      ensures PcSeen(Step(s, a).gs[g], g, Watch(s, a, seen))
    {
      if Moves(a) && g == a.g {
        SeenMover(s, a, seen);
      } else {
        SeenOther(s, a, seen, g);
      }
    }
  }

  lemma {:induction false} SeenExact(s: State, acts: seq<Action>, seen: Seen)
    requires SeenOk(s, seen) && Runs(s, acts)
    ensures SeenOk(After(s, acts), Watched(s, acts, seen))
    decreases |acts|
  {
    if acts != [] {
      SeenStep(s, acts[0], seen);
      SeenExact(Step(s, acts[0]), acts[1..], Watch(s, acts[0], seen));
    }
  }

  // An OpenStream that has returned, with the pool it met, its turn at the counter and the
  // sessions it had tried.
  lemma Returned(acts: seq<Action>, g: Gid)
    requires Runs(START, acts) && g in After(START, acts).gs
    requires After(START, acts).gs[g].Opened? || After(START, acts).gs[g].GaveUp?
    ensures var seen, pc := Watched(START, acts, UNSEEN), After(START, acts).gs[g];
      && g in seen.pools && pc.items == seen.pools[g]
      && (pc.items != [] ==> g in seen.turns && pc.counter == seen.turns[g] % TWO_64)
      && (pc.Opened? ==>
            g in seen.tries && pc.i == seen.tries[g]
            && pc.items != [] && ClientIndex(pc.counter, pc.i, |pc.items|) >= 0)
  {
    SeenExact(START, acts, UNSEEN);
    ReachableInv(acts);
    var s := After(START, acts);
    assert PcSeen(s.gs[g], g, Watched(START, acts, UNSEEN)) && PcOk(s, s.gs[g]);
  }

  // OpenStream in any run. When it gives up, every session that was in the pool is closed
  // or has failed to open a stream. When it returns one, the session is the first of that
  // pool, in cyclic order from the turn, that was neither found closed nor failed.
  lemma OpenOverRuns(acts: seq<Action>, g: Gid, k: nat)
    requires Runs(START, acts) && g in After(START, acts).gs
    requires After(START, acts).gs[g].Opened? || After(START, acts).gs[g].GaveUp?
    ensures g in Watched(START, acts, UNSEEN).pools
    ensures var s, seen := After(START, acts), Watched(START, acts, UNSEEN);
      var pc, pool := s.gs[g], seen.pools[g];
      && (pool != [] ==> g in seen.turns)
      && (pc.Opened? ==> g in seen.tries && Target(seen, g) != {})
      && (k < |pool| && seen.turns[g] % TWO_64 + |pool| <= TWO_63 ==>
            var bad := pool[k] in s.closed || pool[k] in s.failed;
            var turn := seen.turns[g] % TWO_64;
            && (pc.GaveUp? ==> bad)
            && (pc.Opened? ==>
                  var at := ClientIndex(turn, seen.tries[g], |pool|);
                  && 0 <= at < |pool|
                  && (Steps(turn % |pool|, k, |pool|) < Steps(turn % |pool|, at, |pool|) ==> bad)))
  {
    Returned(acts, g);
    var pc := After(START, acts).gs[g];
    if k < |pc.items| && pc.counter + |pc.items| <= TWO_63 {
      ScanSound(acts, g, k);
    }
  }

  // The sessions a run adds are those its actions announce, in that order.
  function Announced(acts: seq<Action>): seq<Session> {
    if acts == [] then []
    else (if acts[0].NewSession? then [acts[0].ss] else []) + Announced(acts[1..])
  }

  lemma AddedStep(s: State, a: Action)
    requires Enabled(s, a)
    ensures Step(s, a).added == s.added + (if a.NewSession? then [a.ss] else [])
  {
    assert s.added + [] == s.added;
  }

  lemma {:induction false} AnnouncedExact(s: State, acts: seq<Action>)
    requires Runs(s, acts)
    ensures After(s, acts).added == s.added + Announced(acts)
    decreases |acts|
  {
    if acts != [] {
      AddedStep(s, acts[0]);
      AnnouncedExact(Step(s, acts[0]), acts[1..]);
      var first := if acts[0].NewSession? then [acts[0].ss] else [];
      assert s.added + (first + Announced(acts[1..])) == (s.added + first) + Announced(acts[1..]);
    }
  }

  // ---------- What the run does to the pool, told by its actions ----------

  datatype Track = Track(
    seen: Seen,
    owners: map<Gid, Session>,    // the worker of each session
    gone: set<Session>, failed: set<Session>, closed: set<Session>,
    since: set<Session>)          // closed when the last tick began

  const UNTRACKED := Track(UNSEEN, map[], {}, {}, {}, {})

  function OwnedBy(t: Track, g: Gid): set<Session> {
    if g in t.owners then {t.owners[g]} else {}
  }

  function TakesOut(s: State, a: Action, t: Track): set<Session>
    requires Enabled(s, a)
  {
    match a
    case AcceptError(g) => OwnedBy(t, g)
    case TryFail(g) => Target(t.seen, g)
    case HealthEnd => s.monitor.found
    case _ => {}
  }

  function ShutsDown(a: Action, t: Track): set<Session> {
    match a
    case WorkerClose(g) => OwnedBy(t, g)
    case SessionDies(ss) => {ss}
    case _ => {}
  }

  function Follow(s: State, a: Action, t: Track): Track
    requires Enabled(s, a)
  {
    Track(Watch(s, a, t.seen), if a.NewSession? then t.owners[a.g := a.ss] else t.owners,
          t.gone + TakesOut(s, a, t), t.failed + (if a.TryFail? then Target(t.seen, a.g) else {}),
          t.closed + ShutsDown(a, t), if a.HealthBegin? then t.closed else t.since)
  }

  ghost function Followed(s: State, acts: seq<Action>, t: Track): Track
    requires Runs(s, acts)
    decreases |acts|
  {
    if acts == [] then t else Followed(Step(s, acts[0]), acts[1..], Follow(s, acts[0], t))
  }

  predicate OwnerOk(pc: Pc, g: Gid, t: Track) {
    pc.Worker? || pc.WorkerClosing? ==> g in t.owners && t.owners[g] == pc.ss
  }

  ghost predicate TrackOk(s: State, t: Track) {
    && SeenOk(s, t.seen) && (forall g | g in s.gs :: OwnerOk(s.gs[g], g, t))
    && s.gone == t.gone && s.failed == t.failed && s.closed == t.closed
    && (s.monitor.Scanning? ==> s.monitor.since == t.since)
  }

  lemma TargetExact(s: State, g: Gid, seen: Seen)
    requires SeenOk(s, seen) && Trying(s, g)
    ensures Target(seen, g) == {Tried(s, g)}
  {
    assert PcSeen(s.gs[g], g, seen);
  }

  lemma TrackSets(s: State, a: Action, t: Track)
    requires TrackOk(s, t) && Enabled(s, a)
    ensures var s', t' := Step(s, a), Follow(s, a, t);
      s'.gone == t'.gone && s'.failed == t'.failed && s'.closed == t'.closed
  {
    if a.TryFail? {
      TargetExact(s, a.g, t.seen);
    } else if a.AcceptError? || a.WorkerClose? {
      assert OwnerOk(s.gs[a.g], a.g, t);
    }
  }

  lemma TrackOwners(s: State, a: Action, t: Track, g: Gid)
    requires TrackOk(s, t) && Enabled(s, a) && g in Step(s, a).gs
    ensures OwnerOk(Step(s, a).gs[g], g, Follow(s, a, t))
  {
    assert g in s.gs ==> OwnerOk(s.gs[g], g, t);
  }

  lemma TrackStep(s: State, a: Action, t: Track)
    requires TrackOk(s, t) && Enabled(s, a)
    ensures TrackOk(Step(s, a), Follow(s, a, t))
  {
    SeenStep(s, a, t.seen);
    TrackSets(s, a, t);
    forall g | g in Step(s, a).gs
      ensures OwnerOk(Step(s, a).gs[g], g, Follow(s, a, t))
    {
      TrackOwners(s, a, t, g);
    }
  }

  lemma {:induction false} TrackExact(s: State, acts: seq<Action>, t: Track)
    requires TrackOk(s, t) && Runs(s, acts)
    ensures TrackOk(After(s, acts), Followed(s, acts, t))
    decreases |acts|
  {
    if acts != [] {
      TrackStep(s, acts[0], t);
      TrackExact(Step(s, acts[0]), acts[1..], Follow(s, acts[0], t));
    }
  }

  // A session is passed over when it is closed at that moment, and opened only when not.
  lemma TriesLive(acts: seq<Action>, g: Gid)
    requires Runs(START, acts)
    ensures var s, t := After(START, acts), Followed(START, acts, UNTRACKED);
      && (Enabled(s, TryOk(g)) ==> Target(t.seen, g) != {} && Target(t.seen, g) !! t.closed)
      && (Enabled(s, TryClosed(g)) ==> Target(t.seen, g) != {} && Target(t.seen, g) <= t.closed)
  {
    TrackExact(START, acts, UNTRACKED);
    var s := After(START, acts);
    if Trying(s, g) {
      TargetExact(s, g, Followed(START, acts, UNTRACKED).seen);
    }
  }

  // In every run the pool is the sessions announced, in that order, less those whose accept
  // loop failed, those on which a stream failed to open, and those a tick found closed; the
  // closed ones are exactly those that died or that their worker closed; and a tick judges
  // by the moment it began.
  lemma PoolOverRuns(acts: seq<Action>)
    requires Runs(START, acts)
    ensures var s, t := After(START, acts), Followed(START, acts, UNTRACKED);
      && s.sessions == Without(Announced(acts), t.gone) && s.failed == t.failed && s.closed == t.closed
      && (s.monitor.Scanning? ==> s.monitor.since == t.since)
  {
    TrackExact(START, acts, UNTRACKED);
    ReachableInv(acts);
    AnnouncedExact(START, acts);
    assert [] + Announced(acts) == Announced(acts);
  }
}
