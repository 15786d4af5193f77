// What the server's goroutines are for: where each can be, by how it was started; that
// every counted one can leave; and two whole lives.
module ServerRoles {
  import opened Bytes
  import opened HealthScan
  import opened ServerRun
  import opened SessionPool

  // ---------- What each goroutine is for ----------

  // A goroutine as the actions know it: how it was started, the session it was started on
  // or chose, and whether it has come to rest: a listener between datagrams, any other for
  // good.
  datatype Kind = Accepting | Handling | Connecting | Listening | ReadingBack | Faking
  datatype Role = Role(kind: Kind, on: Option<Session>, rests: bool)

  function Rest(roles: map<Gid, Role>, g: Gid): map<Gid, Role> {
    if g !in roles then roles
    else roles[g := Role(roles[g].kind, if roles[g].kind == Listening then None else roles[g].on, true)]
  }

  function Begins(roles: map<Gid, Role>, h: Gid, kind: Kind, g: Gid): map<Gid, Role> {
    if g in roles then roles[h := Role(kind, roles[g].on, false)] else roles
  }

  // What an action tells of roles, without a look at the state.
  function Learn(roles: map<Gid, Role>, a: Action): map<Gid, Role> {
    match a
    case NewSession(g, ss) => roles[g := Role(Accepting, Some(ss), false)]
    case AcceptStream(g, h) => Begins(roles, h, Handling, g)
    case TcpConn(h) => roles[h := Role(Connecting, None, false)]
    case UdpListen(h) => roles[h := Role(Listening, None, true)]
    case FakeStart(h, ss) => roles[h := Role(Faking, Some(ss), false)]
    case UdpFirstDatagram(g) => if g in roles then roles[g := roles[g].(rests := false)] else roles
    case PickSession(g, ss) => if g in roles then roles[g := roles[g].(on := Some(ss))] else roles
    case SpawnReader(g, h) => Rest(Begins(roles, h, ReadingBack, g), g)
    case _ => if Rests(a) then Rest(roles, a.g) else roles
  }

  // The last action of a goroutine, or of a listener's turn.
  predicate Rests(a: Action) {
    || a.PickNothing? || a.EvictClose? || a.Undo? || a.AcceptorClose? || a.HandlerLeave?
    || a.RelayDone? || a.ReaderDone? || a.FakeDone?
  }

  function RolesAfter(roles: map<Gid, Role>, acts: seq<Action>): map<Gid, Role>
    decreases |acts|
  {
    if acts == [] then roles else RolesAfter(Learn(roles, acts[0]), acts[1..])
  }

  // Which role a goroutine at each point must have.
  predicate InRole(role: Role, pc: Pc) {
    match pc
    case Acceptor(ss) => role == Role(Accepting, Some(ss), false)
    case AcceptorClosing(ss) => role == Role(Accepting, Some(ss), false)
    case HandlerSpawned(ss) => role == Role(Handling, Some(ss), false)
    case HandlerCounted(ss) => role == Role(Handling, Some(ss), false)
    case OpenerStart(c) => role == Role(Opener(c), None, false)
    case OpenerPicked(ss, c) => role == Role(Opener(c), Some(ss), false)
    case OpenerOpened(ss, c) => role == Role(Opener(c), Some(ss), false)
    case OpenerCounted(ss, c) => role == Role(Opener(c), Some(ss), false)
    case OpenerFailing(ss, c) => role == Role(Opener(c), Some(ss), false)
    case OpenerEvicting(ss, c) => role == Role(Opener(c), Some(ss), false)
    case TcpRelay(ss) => role == Role(Connecting, Some(ss), false)
    case UdpIdle => role == Role(Listening, None, true)
    case UdpHolding(ss) => role == Role(Listening, Some(ss), false)
    case UdpReader(ss) => role == Role(ReadingBack, Some(ss), false)
    case FakeSender(ss) => role == Role(Faking, Some(ss), false)
    case Finished => role.kind != Listening && role.rests
  }

  function Opener(c: Caller): Kind {
    if c.Tcp? then Connecting else Listening
  }

  ghost predicate RolesOk(s: State, roles: map<Gid, Role>) {
    s.gs.Keys == roles.Keys && forall g | g in s.gs :: InRole(roles[g], s.gs[g])
  }

  predicate Starts(a: Action) {
    a.NewSession? || a.AcceptStream? || a.TcpConn? || a.UdpListen? || a.FakeStart?
  }

  predicate Chooses(a: Action) {
    a.UdpFirstDatagram? || a.PickSession? || a.PickNothing?
  }

  predicate OnStream(a: Action) {
    a.OpenOk? || a.OpenError? || a.EvictClose? || a.Increment? || a.HeaderOk? || a.HeaderError? || a.Undo?
  }

  // The goroutine that moves stays inside its role.
  lemma StarterFits(s: State, a: Action, roles: map<Gid, Role>)
    requires RolesOk(s, roles) && Enabled(s, a) && Starts(a)
    ensures Mover(a) in Learn(roles, a) && InRole(Learn(roles, a)[Mover(a)], NextPc(s, a))
  {
    if a.AcceptStream? {
      assert InRole(roles[a.g], s.gs[a.g]);
    }
  }

  lemma ChooserFits(s: State, a: Action, roles: map<Gid, Role>)
    requires RolesOk(s, roles) && Enabled(s, a) && Chooses(a)
    ensures Mover(a) in Learn(roles, a) && InRole(Learn(roles, a)[Mover(a)], NextPc(s, a))
  {
    assert InRole(roles[a.g], s.gs[a.g]);
  }

  lemma StreamFits(s: State, a: Action, roles: map<Gid, Role>)
    requires RolesOk(s, roles) && Enabled(s, a) && OnStream(a)
    ensures Mover(a) in Learn(roles, a) && InRole(Learn(roles, a)[Mover(a)], NextPc(s, a))
  {
    assert InRole(roles[a.g], s.gs[a.g]);
  }

  predicate Ends(a: Action) {
    || a.AcceptError? || a.AcceptorClose? || a.HandlerEnter? || a.HandlerLeave?
    || a.RelayDone? || a.ReaderDone? || a.FakeDone?
  }

  lemma EnderFits(s: State, a: Action, roles: map<Gid, Role>)
    requires RolesOk(s, roles) && Enabled(s, a) && Ends(a)
    ensures Mover(a) in Learn(roles, a) && InRole(Learn(roles, a)[Mover(a)], NextPc(s, a))
  {
    assert InRole(roles[a.g], s.gs[a.g]);
  }

  lemma MoverFits(s: State, a: Action, roles: map<Gid, Role>)
    requires RolesOk(s, roles) && Enabled(s, a) && !NoMover(a)
    ensures Mover(a) in Learn(roles, a) && InRole(Learn(roles, a)[Mover(a)], NextPc(s, a))
  {
    if Starts(a) {
      StarterFits(s, a, roles);
    } else if Chooses(a) {
      ChooserFits(s, a, roles);
    } else if OnStream(a) {
      StreamFits(s, a, roles);
    } else if Ends(a) {
      EnderFits(s, a, roles);
    } else {
      assert a.SpawnReader?;
      assert InRole(roles[a.g], s.gs[a.g]);
    }
  }

  lemma LearnMover(roles: map<Gid, Role>, a: Action, g: Gid)
    requires g in roles && (NoMover(a) || g != Mover(a)) && (a.SpawnReader? ==> g != a.h)
    ensures g in Learn(roles, a) && Learn(roles, a)[g] == roles[g]
  {
  }

  lemma ReaderFits(s: State, a: Action, roles: map<Gid, Role>)
    requires RolesOk(s, roles) && Enabled(s, a) && a.SpawnReader?
    ensures a.h in Learn(roles, a) && InRole(Learn(roles, a)[a.h], Step(s, a).gs[a.h])
  {
    assert InRole(roles[a.g], s.gs[a.g]);
  }

  lemma OthersFit(s: State, a: Action, roles: map<Gid, Role>, g: Gid)
    requires RolesOk(s, roles) && Enabled(s, a) && g in Step(s, a).gs && (NoMover(a) || g != Mover(a))
    ensures g in Learn(roles, a) && InRole(Learn(roles, a)[g], Step(s, a).gs[g])
  {
    if a.SpawnReader? && g == a.h {
      ReaderFits(s, a, roles);
    } else {
      Others(s, a, g);
      LearnMover(roles, a, g);
      assert InRole(roles[g], s.gs[g]);
    }
  }

  lemma RolesStep(s: State, a: Action, roles: map<Gid, Role>)
    requires RolesOk(s, roles) && Enabled(s, a)
    ensures RolesOk(Step(s, a), Learn(roles, a))
  {
    forall g | g in Step(s, a).gs
      ensures g in Learn(roles, a) && InRole(Learn(roles, a)[g], Step(s, a).gs[g])
    {
      if !NoMover(a) && g == Mover(a) {
        MoverFits(s, a, roles);
      } else {
        OthersFit(s, a, roles, g);
      }
    }
    SameKeys(s, a, roles);
  }

  lemma SameKeys(s: State, a: Action, roles: map<Gid, Role>)
    requires RolesOk(s, roles) && Enabled(s, a)
    ensures Learn(roles, a).Keys <= Step(s, a).gs.Keys
  {
    assert s.gs.Keys <= Step(s, a).gs.Keys by {
      forall g | g in s.gs
        ensures g in Step(s, a).gs
      {
        if NoMover(a) || g != Mover(a) {
          SameGs(s, a, g);
        }
      }
    }
  }

  // In every run each goroutine is where its start allows, on the session that its start or
  // its own choice named: a reverse TCP connection relays, a UDP listener never ends, only a
  // spawned reader reads a flow back; and it is at rest exactly when its last action says so.
  lemma {:induction false} RolesExact(s: State, roles: map<Gid, Role>, acts: seq<Action>)
    requires RolesOk(s, roles) && Runs(s, acts)
    ensures RolesOk(After(s, acts), RolesAfter(roles, acts))
    decreases |acts|
  {
    if acts != [] {
      RolesStep(s, acts[0], roles);
      RolesExact(Step(s, acts[0]), Learn(roles, acts[0]), acts[1..]);
    }
  }

  lemma RolesOverRuns(acts: seq<Action>, g: Gid)
    requires Runs(START, acts)
    ensures var s, roles := After(START, acts), RolesAfter(map[], acts);
      && (g in s.gs <==> g in roles)
      && (g in s.gs ==>
            && InRole(roles[g], s.gs[g])
            && (s.gs[g] == Finished <==> roles[g].rests && roles[g].kind != Listening)
            && (s.gs[g] == UdpIdle <==> roles[g].rests && roles[g].kind == Listening)
            && (s.gs[g].UdpReader? ==> roles[g].kind == ReadingBack)
            && (s.gs[g].TcpRelay? ==> roles[g].kind == Connecting))
  {
    assert RolesOk(START, map[]);
    RolesExact(START, map[], acts);
    var roles := RolesAfter(map[], acts);
    if g in roles {
      RoleNames(roles[g], After(START, acts).gs[g]);
    }
  }

  lemma RoleNames(role: Role, pc: Pc)
    requires InRole(role, pc)
    ensures pc == Finished <==> role.rests && role.kind != Listening
    ensures pc == UdpIdle <==> role.rests && role.kind == Listening
    ensures pc.UdpReader? ==> role.kind == ReadingBack
    ensures pc.TcpRelay? ==> role.kind == Connecting
  {
  }

  // The sessions a run adds are those its actions announce, in that order.
  function Announced(acts: seq<Action>): seq<Session> {
    if acts == [] then []
    else (if acts[0].NewSession? then [acts[0].ss] else []) + Announced(acts[1..])
  }

  lemma {:induction false} AnnouncedExact(s: State, acts: seq<Action>)
    requires Runs(s, acts)
    ensures After(s, acts).added == s.added + Announced(acts)
    decreases |acts|
  {
    if acts != [] {
      AddedGrows(s, acts[0]);
      AddedStep(s, acts[0]);
      AnnouncedExact(Step(s, acts[0]), acts[1..]);
      assert s.added + ((if acts[0].NewSession? then [acts[0].ss] else []) + Announced(acts[1..]))
          == (s.added + (if acts[0].NewSession? then [acts[0].ss] else [])) + Announced(acts[1..]);
    }
  }

  lemma AddedStep(s: State, a: Action)
    requires Enabled(s, a)
    ensures Step(s, a).added == s.added + (if a.NewSession? then [a.ss] else [])
  {
    assert s.added + [] == s.added;
  }

  // ---------- What the run does to the pool, told by its actions ----------

  // The sessions taken out and closed so far, and those closed when the last tick began.
  datatype Track = Track(roles: map<Gid, Role>, gone: set<Session>, closed: set<Session>, since: set<Session>)

  const UNTRACKED := Track(map[], {}, {}, {})

  // The session that a goroutine was started on or chose.
  function SessionOf(roles: map<Gid, Role>, g: Gid): set<Session> {
    if g in roles && roles[g].on.Some? then {roles[g].on.value} else {}
  }

  // A failed accept and a failed open take their session out, a tick those it found.
  function TakesOut(s: State, a: Action, roles: map<Gid, Role>): set<Session>
    requires Enabled(s, a)
  {
    match a
    case AcceptError(g) => SessionOf(roles, g)
    case OpenError(g) => SessionOf(roles, g)
    case HealthEnd => s.monitor.found
    case _ => {}
  }

  function ShutsDown(a: Action, roles: map<Gid, Role>): set<Session> {
    match a
    case AcceptorClose(g) => SessionOf(roles, g)
    case EvictClose(g) => SessionOf(roles, g)
    case SessionDies(ss) => {ss}
    case _ => {}
  }

  function Follow(s: State, a: Action, t: Track): Track
    requires Enabled(s, a)
  {
    Track(Learn(t.roles, a), t.gone + TakesOut(s, a, t.roles), t.closed + ShutsDown(a, t.roles),
          if a.HealthBegin? then t.closed else t.since)
  }

  ghost function Followed(s: State, acts: seq<Action>, t: Track): Track
    requires Runs(s, acts)
    decreases |acts|
  {
    if acts == [] then t else Followed(Step(s, acts[0]), acts[1..], Follow(s, acts[0], t))
  }

  ghost predicate TrackOk(s: State, t: Track) {
    && RolesOk(s, t.roles) && s.gone == t.gone && s.closed == t.closed
    && (s.monitor.Scanning? ==> s.monitor.since == t.since)
  }

  lemma ActorsSession(s: State, a: Action, roles: map<Gid, Role>)
    requires RolesOk(s, roles) && Enabled(s, a)
    requires a.AcceptError? || a.OpenError? || a.AcceptorClose? || a.EvictClose?
    ensures SessionOf(roles, a.g) == {s.gs[a.g].ss}
  {
    assert InRole(roles[a.g], s.gs[a.g]);
  }

  lemma RemovalTracked(s: State, a: Action, t: Track)
    requires TrackOk(s, t) && Enabled(s, a) && Removes(a)
    ensures Shared(s, a).gone == s.gone + TakesOut(s, a, t.roles) && Shared(s, a).closed == s.closed
    ensures ShutsDown(a, t.roles) == {}
  {
    if !a.HealthEnd? {
      ActorsSession(s, a, t.roles);
    }
  }

  lemma ClosingTracked(s: State, a: Action, t: Track)
    requires TrackOk(s, t) && Enabled(s, a) && Closes(a)
    ensures Shared(s, a).closed == s.closed + ShutsDown(a, t.roles) && Shared(s, a).gone == s.gone
    ensures TakesOut(s, a, t.roles) == {}
  {
    if !a.SessionDies? {
      ActorsSession(s, a, t.roles);
    }
  }

  lemma NothingTracked(s: State, a: Action, t: Track)
    requires Enabled(s, a) && !Removes(a) && !Closes(a)
    ensures Shared(s, a).gone == s.gone && Shared(s, a).closed == s.closed
    ensures TakesOut(s, a, t.roles) == {} && ShutsDown(a, t.roles) == {}
  {
  }

  lemma TrackSets(s: State, a: Action, t: Track)
    requires TrackOk(s, t) && Enabled(s, a)
    ensures Shared(s, a).gone == t.gone + TakesOut(s, a, t.roles)
    ensures Shared(s, a).closed == t.closed + ShutsDown(a, t.roles)
  {
    if Removes(a) {
      RemovalTracked(s, a, t);
    } else if Closes(a) {
      ClosingTracked(s, a, t);
    } else {
      NothingTracked(s, a, t);
    }
  }

  lemma TrackMonitor(s: State, a: Action, t: Track)
    requires TrackOk(s, t) && Enabled(s, a)
    ensures Shared(s, a).monitor.Scanning? ==>
      Shared(s, a).monitor.since == if a.HealthBegin? then t.closed else t.since
  {
    if s.monitor.Scanning? && !a.HealthLook? {
      UnderLock(s, a);
    } else if s.monitor.Resting? && !a.HealthBegin? {
      StillResting(s, a);
    }
  }

  lemma StillResting(s: State, a: Action)
    requires Enabled(s, a) && s.monitor.Resting? && !a.HealthBegin?
    ensures Shared(s, a).monitor.Resting?
  {
  }

  lemma TrackStep(s: State, a: Action, t: Track)
    requires TrackOk(s, t) && Enabled(s, a)
    ensures TrackOk(Step(s, a), Follow(s, a, t))
  {
    RolesStep(s, a, t.roles);
    TrackSets(s, a, t);
    TrackMonitor(s, a, t);
  }

  lemma {:induction false} TrackExact(s: State, acts: seq<Action>, t: Track)
    requires TrackOk(s, t) && Runs(s, acts)
    ensures TrackOk(After(s, acts), Followed(s, acts, t))
    decreases |acts|
  {
    if acts != [] {
      TrackStep(s, acts[0], t);
      TrackExact(Step(s, acts[0]), acts[1..], Follow(s, acts[0], t));
    }
  }

  // In every run the pool is the sessions announced, in that order, less those whose accept
  // loop failed, those on which a stream failed to open, and those a tick found closed; the
  // closed ones are exactly those that died or that their remover closed; and a tick judges
  // by the moment it began.
  lemma PoolOverRuns(acts: seq<Action>)
    requires Runs(START, acts)
    ensures var s, t := After(START, acts), Followed(START, acts, UNTRACKED);
      && s.sessions == Without(Announced(acts), t.gone) && s.closed == t.closed
      && (s.monitor.Scanning? ==> s.monitor.since == t.since)
  {
    TrackExact(START, acts, UNTRACKED);
    ReachableInv(acts);
    AnnouncedExact(START, acts);
    assert [] + Announced(acts) == Announced(acts);
  }

  // Increments less decrements on ss, by the roles of those who make them.
  function Change(a: Action, roles: map<Gid, Role>, ss: Session): int {
    if CountsUp(a) && ss in SessionOf(roles, a.g) then 1
    else if CountsDown(a) && ss in SessionOf(roles, a.g) then -1
    else 0
  }

  function Net(acts: seq<Action>, roles: map<Gid, Role>, ss: Session): int
    decreases |acts|
  {
    if acts == [] then 0 else Change(acts[0], roles, ss) + Net(acts[1..], Learn(roles, acts[0]), ss)
  }

  function CounterOf(s: State, ss: Session): int {
    if ss in s.streams then s.streams[ss] else 0
  }

  lemma CountersSession(s: State, a: Action, roles: map<Gid, Role>)
    requires RolesOk(s, roles) && Enabled(s, a) && Counter(a)
    ensures SessionOf(roles, a.g) == {s.gs[a.g].ss}
  {
    assert InRole(roles[a.g], s.gs[a.g]);
  }

  lemma BumpCounter(s: State, x: Session, d: int, g: Gid, pc: Pc, ss: Session)
    ensures CounterOf(Go(Bump(s, x, d), g, pc), ss) == CounterOf(s, ss) + (if x == ss then d else 0)
  {
  }

  lemma NetCounter(s: State, a: Action, roles: map<Gid, Role>, ss: Session)
    requires RolesOk(s, roles) && Enabled(s, a) && Counter(a)
    ensures CounterOf(Step(s, a), ss) == CounterOf(s, ss) + Change(a, roles, ss)
  {
    CountersSession(s, a, roles);
    if CountsUp(a) {
      CounterUp(s, a);
      BumpCounter(s, s.gs[a.g].ss, 1, a.g, NextPc(s, a), ss);
    } else {
      CounterDown(s, a);
      BumpCounter(s, s.gs[a.g].ss, -1, a.g, NextPc(s, a), ss);
    }
  }

  lemma NetStep(s: State, a: Action, roles: map<Gid, Role>, ss: Session)
    requires Inv(s) && RolesOk(s, roles) && Enabled(s, a)
    ensures CounterOf(Step(s, a), ss) == CounterOf(s, ss) + Change(a, roles, ss)
  {
    if Counter(a) {
      NetCounter(s, a, roles, ss);
    } else if !a.NewSession? {
      SameCounters(s, a);
    }
  }

  lemma {:induction false} NetExact(s: State, acts: seq<Action>, roles: map<Gid, Role>, ss: Session)
    requires Inv(s) && RolesOk(s, roles) && Runs(s, acts)
    ensures CounterOf(After(s, acts), ss) == CounterOf(s, ss) + Net(acts, roles, ss)
    decreases |acts|
  {
    if acts != [] {
      NetStep(s, acts[0], roles, ss);
      StepInv(s, acts[0]);
      RolesStep(s, acts[0], roles);
      NetExact(Step(s, acts[0]), acts[1..], Learn(roles, acts[0]), ss);
    }
  }

  // The counter of a session is what the actions of its goroutines add up to.
  lemma CountsOverRuns(acts: seq<Action>, ss: Session)
    requires Runs(START, acts)
    ensures CounterOf(After(START, acts), ss) == Net(acts, map[], ss)
  {
    assert Inv(START);
    NetExact(START, acts, map[], ss);
  }

  // ---------- Every counted goroutine can leave ----------

  lemma RunCons(s: State, a: Action, rest: seq<Action>)
    requires Enabled(s, a) && Runs(Step(s, a), rest)
    ensures Runs(s, [a] + rest)
    ensures After(s, [a] + rest) == After(Step(s, a), rest)
  {
    assert ([a] + rest)[1..] == rest;
  }

  lemma FreshId(gs: set<Gid>) returns (h: Gid)
    ensures forall g | g in gs :: g < h
    decreases gs
  {
    if gs == {} {
      return 0;
    }
    var g :| g in gs;
    var rest := FreshId(gs - {g});
    h := if g < rest then rest else g + 1;
    assert forall x | x in gs :: x == g || x in gs - {g};
  }

  // The last step of a counted goroutine that needs only one.
  function Leaving(pc: Pc, g: Gid): Action {
    match pc
    case HandlerCounted(_) => HandlerLeave(g)
    case TcpRelay(_) => RelayDone(g)
    case UdpReader(_) => ReaderDone(g)
    case _ => Undo(g)
  }

  lemma LeavesAtOnce(s: State, ss: Session, g: Gid)
    requires g in s.gs && Counts(s.gs[g], ss) && !s.gs[g].OpenerCounted? && !s.gs[g].UdpHolding?
    ensures var a := Leaving(s.gs[g], g);
      Enabled(s, a) && CountsDown(a) && a.g == g && s.gs[g].ss == ss
  {
  }

  lemma HeaderFails(s: State, ss: Session, g: Gid)
    requires g in s.gs && s.gs[g].OpenerCounted? && s.gs[g].ss == ss
    ensures Enabled(s, HeaderError(g))
    ensures var t := Step(s, HeaderError(g)); Enabled(t, Undo(g)) && t.gs[g].ss == ss
  {
  }

  lemma ReaderStarts(s: State, ss: Session, g: Gid, h: Gid)
    requires g in s.gs && s.gs[g] == UdpHolding(ss) && h !in s.gs
    ensures Enabled(s, SpawnReader(g, h))
    ensures var t := Step(s, SpawnReader(g, h)); Enabled(t, ReaderDone(h)) && t.gs[h].ss == ss
  {
  }

  lemma LeaveStep(s: State, ss: Session, a: Action)
    requires Inv(s) && Enabled(s, a) && CountsDown(a) && s.gs[a.g].ss == ss && ss in s.streams
    ensures Inv(Step(s, a)) && ss in Step(s, a).streams && Step(s, a).streams[ss] == s.streams[ss] - 1
  {
    CounterDown(s, a);
    StepInv(s, a);
  }

  lemma PlainLeaveStep(s: State, ss: Session, a: Action)
    requires Inv(s) && Enabled(s, a) && !Counter(a) && !a.NewSession? && ss in s.streams
    ensures Inv(Step(s, a)) && ss in Step(s, a).streams && Step(s, a).streams[ss] == s.streams[ss]
  {
    SameCounters(s, a);
    StepInv(s, a);
  }

  lemma StepInv(s: State, a: Action)
    requires Inv(s) && Enabled(s, a)
    ensures Inv(Step(s, a))
  {
    StepBalanced(s, a);
    StepKnown(s, a);
    StepPool(s, a);
    StepGone(s, a);
    StepMonitor(s, a);
  }

  // The last step of g, after which one stream less is counted.
  lemma DrainLast(s: State, ss: Session, a: Action) returns (acts: seq<Action>)
    requires Inv(s) && Enabled(s, a) && CountsDown(a) && s.gs[a.g].ss == ss && ss in s.streams
    requires s.streams[ss] > 0
    ensures Runs(s, acts) && ss in After(s, acts).streams && After(s, acts).streams[ss] == 0
    decreases s.streams[ss], 0
  {
    LeaveStep(s, ss, a);
    var rest := CountDrains(Step(s, a), ss);
    RunCons(s, a, rest);
    acts := [a] + rest;
  }

  // No count is stuck: from every such state the counter of any session can go back to zero
  // by the steps of the goroutines it counts alone.
  lemma CountDrains(s: State, ss: Session) returns (acts: seq<Action>)
    requires Inv(s) && ss in s.streams
    ensures Runs(s, acts) && ss in After(s, acts).streams && After(s, acts).streams[ss] == 0
    decreases s.streams[ss], 2
  {
    if s.streams[ss] == 0 {
      return [];
    }
    assert CountedOn(s.gs, ss) != {};
    var g :| g in CountedOn(s.gs, ss);
    assert s.streams[ss] == |CountedOn(s.gs, ss)| > 0;
    if s.gs[g].OpenerCounted? {
      HeaderFails(s, ss, g);
      acts := DrainTwo(s, ss, HeaderError(g), Undo(g));
    } else if s.gs[g].UdpHolding? {
      var h := FreshId(s.gs.Keys);
      ReaderStarts(s, ss, g, h);
      acts := DrainTwo(s, ss, SpawnReader(g, h), ReaderDone(h));
    } else {
      LeavesAtOnce(s, ss, g);
      acts := DrainLast(s, ss, Leaving(s.gs[g], g));
    }
  }

  lemma DrainTwo(s: State, ss: Session, a: Action, b: Action) returns (acts: seq<Action>)
    requires Inv(s) && Enabled(s, a) && !Counter(a) && !a.NewSession? && ss in s.streams && s.streams[ss] > 0
    requires Enabled(Step(s, a), b) && CountsDown(b) && Step(s, a).gs[b.g].ss == ss
    ensures Runs(s, acts) && ss in After(s, acts).streams && After(s, acts).streams[ss] == 0
    decreases s.streams[ss], 1
  {
    PlainLeaveStep(s, ss, a);
    var rest := DrainLast(Step(s, a), ss, b);
    RunCons(s, a, rest);
    acts := [a] + rest;
  }

  lemma CountDrainsFromAnywhere(acts: seq<Action>, ss: Session) returns (more: seq<Action>)
    requires Runs(START, acts) && ss in After(START, acts).added
    ensures var s := After(START, acts);
      Runs(s, more) && ss in After(s, more).streams && After(s, more).streams[ss] == 0
  {
    ReachableInv(acts);
    more := CountDrains(After(START, acts), ss);
  }

  // ---------- Two whole lives ----------

  // One session in the pool, goroutine 0 accepts on it, goroutine 1 is somewhere.
  function Serving(ss: Session, pc: Pc, n: int): State {
    State([ss], map[ss := n], {}, map[0 := Acceptor(ss), 1 := pc], Resting, [ss], {})
  }

  // One step of goroutine 1.
  lemma Turn(ss: Session, pc: Pc, n: int, a: Action, pc': Pc, n': int, rest: seq<Action>)
    requires Enabled(Serving(ss, pc, n), a) && !NoMover(a) && Mover(a) == 1 && !a.SpawnReader?
    requires NextPc(Serving(ss, pc, n), a) == pc'
    requires Shared(Serving(ss, pc, n), a) == Serving(ss, pc, n')
    requires Runs(Serving(ss, pc', n'), rest)
    ensures Runs(Serving(ss, pc, n), [a] + rest)
    ensures After(Serving(ss, pc, n), [a] + rest) == After(Serving(ss, pc', n'), rest)
  {
    assert map[0 := Acceptor(ss), 1 := pc][1 := pc'] == map[0 := Acceptor(ss), 1 := pc'];
    RunCons(Serving(ss, pc, n), a, rest);
  }

  lemma Counted(ss: Session, pc: Pc, n: int, a: Action, d: int)
    requires Enabled(Serving(ss, pc, n), a) && Shared(Serving(ss, pc, n), a) == Bump(Serving(ss, pc, n), ss, d)
    ensures Shared(Serving(ss, pc, n), a) == Serving(ss, pc, n + d)
  {
    assert map[ss := n][ss := n + d] == map[ss := n + d];
  }

  // From the choice of a session to the header: one stream is counted.
  function OpeningSteps(ss: Session): seq<Action> {
    [PickSession(1, ss)] + ([OpenOk(1)] + CountingSteps())
  }

  function CountingSteps(): seq<Action> {
    [Increment(1)] + ([HeaderOk(1)] + [])
  }

  function Opened(ss: Session, c: Caller): Pc {
    if c.Tcp? then TcpRelay(ss) else UdpHolding(ss)
  }

  lemma CountingRun(ss: Session, c: Caller)
    ensures var s := Serving(ss, OpenerOpened(ss, c), 0);
      Runs(s, CountingSteps()) && After(s, CountingSteps()) == Serving(ss, Opened(ss, c), 1)
  {
    Turn(ss, OpenerCounted(ss, c), 1, HeaderOk(1), Opened(ss, c), 1, []);
    Counted(ss, OpenerOpened(ss, c), 0, Increment(1), 1);
    Turn(ss, OpenerOpened(ss, c), 0, Increment(1), OpenerCounted(ss, c), 1, [HeaderOk(1)] + []);
  }

  lemma OpeningRun(ss: Session, c: Caller)
    ensures var s := Serving(ss, OpenerStart(c), 0);
      Runs(s, OpeningSteps(ss)) && After(s, OpeningSteps(ss)) == Serving(ss, Opened(ss, c), 1)
  {
    CountingRun(ss, c);
    Turn(ss, OpenerPicked(ss, c), 0, OpenOk(1), OpenerOpened(ss, c), 0, CountingSteps());
    Turn(ss, OpenerStart(c), 0, PickSession(1, ss), OpenerPicked(ss, c), 0, [OpenOk(1)] + CountingSteps());
  }

  lemma SessionUp(ss: Session, a: Action, pc: Pc, rest: seq<Action>)
    requires
      || (a == TcpConn(1) && pc == OpenerStart(Tcp)) || (a == UdpListen(1) && pc == UdpIdle)
      || (a == AcceptStream(0, 1) && pc == HandlerSpawned(ss))
    requires Runs(Serving(ss, pc, 0), rest)
    ensures Runs(START, [NewSession(0, ss)] + ([a] + rest))
    ensures After(START, [NewSession(0, ss)] + ([a] + rest)) == After(Serving(ss, pc, 0), rest)
  {
    var s1 := Step(START, NewSession(0, ss));
    assert s1 == State([ss], map[ss := 0], {}, map[0 := Acceptor(ss)], Resting, [ss], {});
    assert Step(s1, a) == Serving(ss, pc, 0);
    RunCons(s1, a, rest);
    RunCons(START, NewSession(0, ss), [a] + rest);
  }

  // A reverse TCP connection is served: it relays, counted, on the session it chose.
  lemma TcpLife(ss: Session)
    ensures var acts := [NewSession(0, ss)] + ([TcpConn(1)] + OpeningSteps(ss));
      Runs(START, acts) && After(START, acts) == Serving(ss, TcpRelay(ss), 1)
  {
    OpeningRun(ss, Tcp);
    SessionUp(ss, TcpConn(1), OpenerStart(Tcp), OpeningSteps(ss));
  }

  // When its relay ends the goroutine is gone and the count is back.
  lemma TcpEnds(ss: Session)
    ensures var s := Serving(ss, TcpRelay(ss), 1);
      Enabled(s, RelayDone(1)) && Step(s, RelayDone(1)) == Serving(ss, Finished, 0)
  {
    Counted(ss, TcpRelay(ss), 1, RelayDone(1), -1);
    assert map[0 := Acceptor(ss), 1 := TcpRelay(ss)][1 := Finished] == map[0 := Acceptor(ss), 1 := Finished];
  }

  // A UDP listener opens a stream for its first datagram in the same way.
  lemma UdpLife(ss: Session)
    ensures var acts := [NewSession(0, ss)] + ([UdpListen(1)] + ([UdpFirstDatagram(1)] + OpeningSteps(ss)));
      Runs(START, acts) && After(START, acts) == Serving(ss, UdpHolding(ss), 1)
  {
    OpeningRun(ss, Udp);
    Turn(ss, UdpIdle, 0, UdpFirstDatagram(1), OpenerStart(Udp), 0, OpeningSteps(ss));
    SessionUp(ss, UdpListen(1), UdpIdle, [UdpFirstDatagram(1)] + OpeningSteps(ss));
  }

  // It starts a reader and goes on listening; the stream is counted until the reader ends.
  lemma UdpReads(ss: Session)
    ensures Enabled(Serving(ss, UdpHolding(ss), 1), SpawnReader(1, 2))
    ensures var s := Step(Serving(ss, UdpHolding(ss), 1), SpawnReader(1, 2));
      && At(s, 1, UdpIdle) && At(s, 2, UdpReader(ss)) && s.streams == map[ss := 1]
      && Enabled(s, ReaderDone(2)) && At(Step(s, ReaderDone(2)), 2, Finished)
  {
  }

  // An accepted stream is counted from the start of its handler to its end.
  lemma HandlerLife(ss: Session)
    ensures var begin := [NewSession(0, ss)] + ([AcceptStream(0, 1)] + ([HandlerEnter(1)] + []));
      Runs(START, begin) && After(START, begin) == Serving(ss, HandlerCounted(ss), 1)
    ensures Enabled(Serving(ss, HandlerCounted(ss), 1), HandlerLeave(1))
  {
    Counted(ss, HandlerSpawned(ss), 0, HandlerEnter(1), 1);
    Turn(ss, HandlerSpawned(ss), 0, HandlerEnter(1), HandlerCounted(ss), 1, []);
    SessionUp(ss, AcceptStream(0, 1), HandlerSpawned(ss), [HandlerEnter(1)] + []);
  }
}
