// The relay between two connections: two copier goroutines, a channel of two tokens,
// and the caller that closes both ends after the first copier has stopped.
module Relay {
  import opened Bytes

  const BUFFER: int := 0x4_0000

  datatype Side = A | B

  function Other(i: Side): Side {
    if i == A then B else A
  }

  // One connection, as the relay sees it.
  datatype End = End(
    arrived: bytes,     // history: everything the peer has sent
    inbox: bytes,       // what of it has not been read
    taken: bytes,       // what the copier has read
    eof: bool,          // the peer will send nothing more
    closed: bool,       // closed by the relay
    written: bytes)     // what the other copier has written to it

  // Why a copier stopped: it read the end of file, or a read or write failed.
  datatype Cause = EndOfFile | Failure

  // The copier that reads from one side and writes to the other.
  datatype Copier = Reading | Writing(chunk: bytes) | Stopped(why: Cause) | Signalled(why: Cause) {
    predicate Done() {
      Stopped? || Signalled?
    }
  }

  datatype Caller = WaitFirst | CloseA | CloseB | WaitSecond | Returned

  datatype State = State(a: End, b: End, ca: Copier, cb: Copier, caller: Caller, tokens: int)

  const NEW_END := End([], [], [], false, false, [])
  const START := State(NEW_END, NEW_END, Reading, Reading, WaitFirst, 0)

  function EndOf(s: State, i: Side): End {
    if i == A then s.a else s.b
  }

  function CopierOf(s: State, i: Side): Copier {
    if i == A then s.ca else s.cb
  }

  function SetEnd(s: State, i: Side, e: End): State {
    if i == A then s.(a := e) else s.(b := e)
  }

  function SetCopier(s: State, i: Side, c: Copier): State {
    if i == A then s.(ca := c) else s.(cb := c)
  }

  datatype Action =
    | Arrive(i: Side, data: bytes)     // the outside world
    | HangUp(i: Side)
    | ReadSome(i: Side, k: nat)
    | ReadEof(i: Side)                 // everything has been read, and the peer hung up
    | ReadError(i: Side)               // a network error, or a closed end
    | WriteAll(i: Side)
    | WriteError(i: Side, k: nat)      // k bytes went out before the error
    | Signal(i: Side)
    | ReceiveFirst
    | DoCloseA
    | DoCloseB
    | ReceiveSecond

  predicate Enabled(s: State, a: Action) {
    match a
    case Arrive(i, _) => !EndOf(s, i).eof
    case HangUp(i) => true
    case ReadSome(i, k) =>
      CopierOf(s, i).Reading? && !EndOf(s, i).closed && 0 < k <= |EndOf(s, i).inbox| && k <= BUFFER
    case ReadEof(i) =>
      CopierOf(s, i).Reading? && !EndOf(s, i).closed && EndOf(s, i).eof && EndOf(s, i).inbox == []
    case ReadError(i) => CopierOf(s, i).Reading?
    case WriteAll(i) => CopierOf(s, i).Writing? && !EndOf(s, Other(i)).closed
    case WriteError(i, k) => CopierOf(s, i).Writing? && k <= |CopierOf(s, i).chunk|
    case Signal(i) => CopierOf(s, i).Stopped? && s.tokens < 2
    case ReceiveFirst => s.caller.WaitFirst? && s.tokens > 0
    case DoCloseA => s.caller.CloseA?
    case DoCloseB => s.caller.CloseB?
    case ReceiveSecond => s.caller.WaitSecond? && s.tokens > 0
  }

  function Step(s: State, a: Action): State
    requires Enabled(s, a)
  {
    match a
    case Arrive(i, data) =>
      var e := EndOf(s, i);
      SetEnd(s, i, e.(arrived := e.arrived + data, inbox := e.inbox + data))
    case HangUp(i) => SetEnd(s, i, EndOf(s, i).(eof := true))
    case ReadSome(i, k) =>
      var e := EndOf(s, i);
      SetCopier(SetEnd(s, i, e.(inbox := e.inbox[k..], taken := e.taken + e.inbox[..k])), i, Writing(e.inbox[..k]))
    case ReadEof(i) => SetCopier(s, i, Stopped(EndOfFile))
    case ReadError(i) => SetCopier(s, i, Stopped(Failure))
    case WriteAll(i) =>
      var e := EndOf(s, Other(i));
      SetCopier(SetEnd(s, Other(i), e.(written := e.written + CopierOf(s, i).chunk)), i, Reading)
    case WriteError(i, k) =>
      var e := EndOf(s, Other(i));
      SetCopier(SetEnd(s, Other(i), e.(written := e.written + CopierOf(s, i).chunk[..k])), i, Stopped(Failure))
    case Signal(i) => SetCopier(s, i, Signalled(CopierOf(s, i).why)).(tokens := s.tokens + 1)
    case ReceiveFirst => s.(caller := CloseA, tokens := s.tokens - 1)
    case DoCloseA => s.(caller := CloseB, a := s.a.(closed := true))
    case DoCloseB => s.(caller := WaitSecond, b := s.b.(closed := true))
    case ReceiveSecond => s.(caller := Returned, tokens := s.tokens - 1)
  }

  // Nothing is lost or reordered between what was read on side i and what was written
  // on the other side; after a failure the copy is a prefix, at the end of file it is
  // everything the peer sent.
  ghost predicate CopyOk(s: State, i: Side) {
    var src, dst := EndOf(s, i), EndOf(s, Other(i));
    && src.arrived == src.taken + src.inbox
    && match CopierOf(s, i)
       case Reading => dst.written == src.taken
       case Writing(chunk) => dst.written + chunk == src.taken
       case _ =>
         && dst.written <= src.taken
         && (CopierOf(s, i).why == EndOfFile ==> src.eof && dst.written == src.arrived)
  }

  function Received(c: Caller): int {
    match c
    case WaitFirst => 0
    case Returned => 2
    case _ => 1
  }

  ghost predicate Inv(s: State) {
    && CopyOk(s, A) && CopyOk(s, B)
    && s.tokens >= 0
    && s.tokens + Received(s.caller) == One(s.ca.Signalled?) + One(s.cb.Signalled?)
    && (s.a.closed <==> s.caller.CloseB? || s.caller.WaitSecond? || s.caller.Returned?)
    && (s.b.closed <==> s.caller.WaitSecond? || s.caller.Returned?)
  }

  // What CopyOk(s, i) depends on, so that steps elsewhere leave it alone.
  lemma SameCopy(s: State, s': State, i: Side)
    requires CopyOk(s, i) && CopierOf(s', i) == CopierOf(s, i)
    requires EndOf(s', i).arrived == EndOf(s, i).arrived
    requires EndOf(s, i).eof ==> EndOf(s', i).eof
    requires EndOf(s', i).taken == EndOf(s, i).taken && EndOf(s', i).inbox == EndOf(s, i).inbox
    requires EndOf(s', Other(i)).written == EndOf(s, Other(i)).written
    ensures CopyOk(s', i)
  {
  }

  predicate Touches(a: Action, i: Side) {
    (a.Arrive? || a.ReadSome? || a.ReadEof? || a.ReadError? || a.WriteAll? || a.WriteError? || a.Signal?) && a.i == i
  }

  lemma StepCopies(s: State, a: Action, i: Side)
    requires Inv(s) && Enabled(s, a)
    ensures CopyOk(Step(s, a), i)
  {
    if Touches(a, i) {
      OwnStep(s, a, i);
    } else {
      SameCopy(s, Step(s, a), i);
    }
  }

  lemma OwnStep(s: State, a: Action, i: Side)
    requires Inv(s) && Enabled(s, a) && Touches(a, i)
    ensures CopyOk(Step(s, a), i)
  {
    var e := EndOf(s, i);
    match a
    case Arrive(_, data) => ConcatAssociative(e.taken, e.inbox, data);
    case ReadSome(_, k) => SplitInbox(e.taken, e.inbox, k);
    case WriteError(_, k) => ConcatPrefix(EndOf(s, Other(i)).written, CopierOf(s, i).chunk, k);
    case _ =>
  }

  lemma SplitInbox(taken: bytes, inbox: bytes, k: nat)
    requires k <= |inbox|
    ensures taken + inbox == (taken + inbox[..k]) + inbox[k..]
  {
    assert inbox == inbox[..k] + inbox[k..];
  }

  lemma ConcatPrefix(a: bytes, b: bytes, k: nat)
    requires k <= |b|
    ensures a + b[..k] <= a + b
  {
  }

  lemma StepKeeps(s: State, a: Action)
    requires Inv(s) && Enabled(s, a)
    ensures Inv(Step(s, a))
  {
    StepCopies(s, a, A);
    StepCopies(s, a, B);
  }

  ghost predicate Runs(s: State, acts: seq<Action>)
    decreases |acts|
  {
    acts == [] || (Enabled(s, acts[0]) && Runs(Step(s, acts[0]), acts[1..]))
  }

  ghost function After(s: State, acts: seq<Action>): State
    requires Runs(s, acts)
    decreases |acts|
  {
    if acts == [] then s else After(Step(s, acts[0]), acts[1..])
  }

  lemma {:induction false} RunKeeps(s: State, acts: seq<Action>)
    requires Inv(s) && Runs(s, acts)
    ensures Inv(After(s, acts))
    decreases |acts|
  {
    if acts != [] {
      StepKeeps(s, acts[0]);
      RunKeeps(Step(s, acts[0]), acts[1..]);
    }
  }

  // What the peer on one side has sent in a run.
  function Sent(acts: seq<Action>, i: Side): bytes {
    if acts == [] then []
    else (if acts[0].Arrive? && acts[0].i == i then acts[0].data else []) + Sent(acts[1..], i)
  }

  lemma {:induction false} SentExact(s: State, acts: seq<Action>, i: Side)
    requires Runs(s, acts)
    ensures EndOf(After(s, acts), i).arrived == EndOf(s, i).arrived + Sent(acts, i)
    decreases |acts|
  {
    if acts != [] {
      var a := acts[0];
      SentExact(Step(s, a), acts[1..], i);
      ConcatAssociative(EndOf(s, i).arrived, if a.Arrive? && a.i == i then a.data else [], Sent(acts[1..], i));
    }
  }

  // Safety under every schedule: each side gets a prefix of what the other side sent, all
  // of it so far while its copier is waiting to read, and all of it for good when the copier
  // has stopped at the end of file rather than on a failure; and the relay has returned
  // only when both copiers are done and both ends closed. The channel never overflows.
  lemma RelaySafe(acts: seq<Action>, i: Side)
    requires Runs(START, acts)
    ensures var s := After(START, acts);
      && EndOf(s, i).arrived == Sent(acts, i)
      && EndOf(s, Other(i)).written <= Sent(acts, i)
      && (CopierOf(s, i).Reading? ==> EndOf(s, Other(i)).written + EndOf(s, i).inbox == Sent(acts, i))
      && (CopierOf(s, i).Done() && CopierOf(s, i).why == EndOfFile ==>
            EndOf(s, i).eof && EndOf(s, Other(i)).written == Sent(acts, i))
      && (s.caller.Returned? ==> CopierOf(s, i).Signalled? && EndOf(s, i).closed && s.tokens == 0)
      && (CopierOf(s, i).Stopped? ==> Enabled(s, Signal(i)))
  {
    assert Inv(START);
    RunKeeps(START, acts);
    SentExact(START, acts, i);
    var s := After(START, acts);
    assert CopyOk(s, i);
  }

  // Steps that cannot be held up from outside: a read or write on an end the relay has
  // closed returns an error, and the relay's own steps need nobody else.
  predicate Certain(s: State, a: Action) {
    match a
    case ReadError(i) => EndOf(s, i).closed
    case WriteError(i, k) => EndOf(s, Other(i)).closed
    case Signal(_) => true
    case ReceiveFirst => true
    case DoCloseA => true
    case DoCloseB => true
    case ReceiveSecond => true
    case _ => false
  }

  predicate Outside(a: Action) {
    a.Arrive? || a.HangUp?
  }

  function CopierRank(c: Copier): nat {
    match c
    case Stopped(_) => 1
    case Signalled(_) => 0
    case _ => 2
  }

  function Rank(s: State): nat {
    CopierRank(s.ca) + CopierRank(s.cb)
    + match s.caller
      case WaitFirst => 4
      case CloseA => 3
      case CloseB => 2
      case WaitSecond => 1
      case Returned => 0
  }

  predicate Halting(s: State) {
    s.ca.Done() || s.cb.Done()
  }

  // No deadlock: once a copier has stopped, some certain step is always possible.
  lemma NextCertain(s: State) returns (a: Action)
    requires Inv(s) && Halting(s) && !s.caller.Returned?
    ensures Enabled(s, a) && Certain(s, a)
    ensures Rank(Step(s, a)) < Rank(s) && Halting(Step(s, a))
  {
    if s.ca.Stopped? {
      a := Signal(A);
    } else if s.cb.Stopped? {
      a := Signal(B);
    } else if s.caller.WaitFirst? {
      a := ReceiveFirst;
    } else if s.caller.CloseA? {
      a := DoCloseA;
    } else if s.caller.CloseB? {
      a := DoCloseB;
    } else if s.tokens > 0 {
      a := ReceiveSecond;
    } else {
      var i := if s.ca.Signalled? then B else A;
      a := if CopierOf(s, i).Reading? then ReadError(i) else WriteError(i, 0);
    }
  }

  ghost predicate AllCertain(s: State, acts: seq<Action>)
    requires Runs(s, acts)
    decreases |acts|
  {
    acts == [] || (Certain(s, acts[0]) && AllCertain(Step(s, acts[0]), acts[1..]))
  }

  // So the relay returns, by certain steps alone and at most eight of them.
  lemma {:induction false} RelayReturns(s: State) returns (acts: seq<Action>)
    requires Inv(s) && Halting(s)
    ensures Runs(s, acts) && AllCertain(s, acts) && |acts| <= Rank(s) <= 8
    ensures After(s, acts).caller.Returned?
    decreases Rank(s)
  {
    if s.caller.Returned? {
      return [];
    }
    var a := NextCertain(s);
    StepKeeps(s, a);
    var rest := RelayReturns(Step(s, a));
    acts := [a] + rest;
    assert acts[1..] == rest;
  }

  // And no schedule can put it off: after both ends are closed, every step of the relay,
  // certain or not, brings the return closer.
  lemma ClosedDescends(s: State, a: Action)
    requires Inv(s) && s.a.closed && s.b.closed && Enabled(s, a) && !Outside(a)
    ensures Rank(Step(s, a)) < Rank(s)
  {
  }

  // ---------- What the relay does not promise ----------

  lemma RunCons(s: State, a: Action, rest: seq<Action>)
    requires Enabled(s, a) && Runs(Step(s, a), rest)
    ensures Runs(s, [a] + rest)
    ensures After(s, [a] + rest) == After(Step(s, a), rest)
  {
    assert ([a] + rest)[1..] == rest;
  }

  // B has sent data when A hangs up its own direction; both ends are closed at once.
  function HalfClose(data: bytes): seq<Action> {
    [Arrive(B, data)] + ([HangUp(A)] + ([ReadEof(A)] + ([Signal(A)] + ClosingSteps())))
  }

  function ClosingSteps(): seq<Action> {
    [ReceiveFirst] + ([DoCloseA] + ([DoCloseB] + LastSteps()))
  }

  function LastSteps(): seq<Action> {
    [ReadError(B)] + ([Signal(B)] + ([ReceiveSecond] + []))
  }

  // The states in between, by what changes.
  function Halfway(data: bytes, ca: Copier, caller: Caller, closed: bool, tokens: int): State {
    State(End([], [], [], true, closed, []), End(data, data, [], false, closed, []), ca, Reading, caller, tokens)
  }

  lemma LastRun(data: bytes)
    ensures var s := Halfway(data, Signalled(EndOfFile), WaitSecond, true, 0);
      && Runs(s, LastSteps())
      && After(s, LastSteps()).caller.Returned?
      && After(s, LastSteps()).b.arrived == data && After(s, LastSteps()).a.written == []
  {
    var s := Halfway(data, Signalled(EndOfFile), WaitSecond, true, 0);
    var s1 := Step(s, ReadError(B));
    var s2 := Step(s1, Signal(B));
    RunCons(s2, ReceiveSecond, []);
    RunCons(s1, Signal(B), [ReceiveSecond] + []);
    RunCons(s, ReadError(B), [Signal(B)] + ([ReceiveSecond] + []));
  }

  lemma ClosingRun(data: bytes)
    ensures var s := Halfway(data, Signalled(EndOfFile), WaitFirst, false, 1);
      && Runs(s, ClosingSteps())
      && After(s, ClosingSteps())
           == After(Halfway(data, Signalled(EndOfFile), WaitSecond, true, 0), LastSteps())
  {
    var s := Halfway(data, Signalled(EndOfFile), WaitFirst, false, 1);
    LastRun(data);
    var s1 := Step(s, ReceiveFirst);
    var s2 := Step(s1, DoCloseA);
    assert Step(s2, DoCloseB) == Halfway(data, Signalled(EndOfFile), WaitSecond, true, 0);
    RunCons(s2, DoCloseB, LastSteps());
    RunCons(s1, DoCloseA, [DoCloseB] + LastSteps());
    RunCons(s, ReceiveFirst, [DoCloseA] + ([DoCloseB] + LastSteps()));
  }

  // So one direction ending ends both: data that has arrived from B, none of it read, is
  // dropped because A hung up its sending direction, and no write or network failed.
  lemma HalfCloseDrops(data: bytes)
    ensures Runs(START, HalfClose(data))
    ensures var s := After(START, HalfClose(data));
      s.caller.Returned? && s.b.arrived == data && s.a.written == []
  {
    LastRun(data);
    ClosingRun(data);
    var s1 := Step(START, Arrive(B, data));
    var s2 := Step(s1, HangUp(A));
    var s3 := Step(s2, ReadEof(A));
    assert [] + data == data;
    assert Step(s3, Signal(A)) == Halfway(data, Signalled(EndOfFile), WaitFirst, false, 1);
    RunCons(s3, Signal(A), ClosingSteps());
    RunCons(s2, ReadEof(A), [Signal(A)] + ClosingSteps());
    RunCons(s1, HangUp(A), [ReadEof(A)] + ([Signal(A)] + ClosingSteps()));
    RunCons(START, Arrive(B, data), [HangUp(A)] + ([ReadEof(A)] + ([Signal(A)] + ClosingSteps())));
  }
}
