// One tick of the health monitor as it runs beside other goroutines: it holds the pool
// lock, so the pool stands still, but sessions go on dying while it looks at them.
module HealthScan {
  import opened SessionPool

  datatype Monitor =
    | Resting
    | Scanning(
        next: nat,              // the index looked at next
        alive: seq<Session>,    // the sessions kept so far
        found: set<Session>,    // history: the sessions found closed so far
        since: set<Session>)    // history: the sessions closed when the tick began

  function Begin(closed: set<Session>): Monitor {
    Scanning(0, [], {}, closed)
  }

  function Look(m: Monitor, sessions: seq<Session>, closed: set<Session>): Monitor
    requires m.Scanning? && m.next < |sessions|
  {
    var x := sessions[m.next];
    if x in closed then m.(next := m.next + 1, found := m.found + {x})
    else m.(next := m.next + 1, alive := m.alive + [x])
  }

  // alive is the part looked at without those found closed; whoever was closed at the
  // beginning has been found, and whoever has been found is closed.
  ghost predicate MonitorOk(m: Monitor, sessions: seq<Session>, closed: set<Session>) {
    m.Scanning? ==>
      && m.next <= |sessions|
      && m.alive == Without(sessions[..m.next], m.found)
      && m.found <= closed && m.since <= closed
      && (forall x | x in m.found :: x in sessions[..m.next])
      && (forall x | x in sessions[..m.next] && x in m.since :: x in m.found)
  }

  // One more session, found closed or not.
  lemma WithoutOneMore(before: seq<Session>, x: Session, found: set<Session>)
    requires x !in before && x !in found
    ensures Without(before + [x], found + {x}) == Without(before, found)
    ensures Without(before + [x], found) == Without(before, found) + [x]
  {
    assert (before + [x])[..|before|] == before;
    WithoutTwice(before, found, {x});
    WithoutMembers(before, found);
    WithoutNone(Without(before, found), {x});
  }

  lemma LookKeeps(m: Monitor, sessions: seq<Session>, closed: set<Session>)
    requires NoDup(sessions) && m.Scanning? && m.next < |sessions| && MonitorOk(m, sessions, closed)
    ensures MonitorOk(Look(m, sessions, closed), sessions, closed)
  {
    var before, x := sessions[..m.next], sessions[m.next];
    assert sessions[..m.next + 1] == before + [x];
    assert x !in before;
    WithoutOneMore(before, x, m.found);
  }

  // What the finished tick leaves: the pool without the sessions it found, among them all
  // that were closed at the beginning, and only such as are closed at the end.
  lemma TickExact(m: Monitor, sessions: seq<Session>, closed: set<Session>)
    requires m.Scanning? && m.next == |sessions| && MonitorOk(m, sessions, closed)
    ensures m.alive == Without(sessions, m.found) && m.found <= closed
    ensures forall x :: x in m.alive <==> x in sessions && x !in m.found
    ensures forall x | x in sessions && x in m.since :: x !in m.alive
    ensures forall x | x in sessions && x !in m.alive :: x in closed
  {
    assert sessions[..m.next] == sessions;
    WithoutMembers(sessions, m.found);
  }
}
