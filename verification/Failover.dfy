// The reconnect loop of a client worker: which server path it dials next, after how
// many failures, and how long it waits. Durations are in milliseconds.
module Failover {
  import opened Bytes

  const MAX_FAILS: int := 3
  const LONG_LIVED: int := 30000
  const WRAP_BACKOFF: int := 10000
  const MAX_BACKOFF: int := 15000
  const DEFAULT_RETRY: int := 3000

  // One connectAndServe: how long it lasted, whether it ended in an error, and the
  // random jitter drawn afterwards.
  datatype Attempt = Attempt(duration: int, failed: bool, jitter: nat)

  datatype Worker = Worker(pathIdx: nat, failCount: nat)

  datatype Turn = Turn(next: Worker, sleep: int)

  predicate Quick(a: Attempt) {
    a.failed && a.duration < LONG_LIVED
  }

  function Retry(seconds: int): int {
    if seconds * 1000 <= 0 then DEFAULT_RETRY else seconds * 1000
  }

  // The path after i, going round.
  function NextPath(i: nat, k: nat): nat
    requires i < k
  {
    if i + 1 == k then 0 else i + 1
  }

  lemma NextIsRemainder(i: nat, k: nat)
    requires i < k
    ensures (i + 1) % k == NextPath(i, k)
  {
  }

  // What one turn of the loop does, as a function.
  function TurnOf(retries: seq<int>, w: Worker, a: Attempt): Turn
    requires w.pathIdx < |retries|
  {
    var retry := Retry(retries[w.pathIdx]);
    if !a.failed then Turn(w.(failCount := 0), retry + a.jitter)
    else
      var fails := if Quick(a) then w.failCount + 1 else 0;
      if fails >= MAX_FAILS && |retries| > 1 then
        var idx := NextPath(w.pathIdx, |retries|);
        Turn(Worker(idx, 0), if idx == 0 then WRAP_BACKOFF else retry + a.jitter)
      else if fails > 0 then
        Turn(w.(failCount := fails), Min(retry * fails, MAX_BACKOFF))
      else Turn(w.(failCount := 0), retry + a.jitter)
  }

  function Run(retries: seq<int>, w: Worker, attempts: seq<Attempt>): (r: Worker)
    requires w.pathIdx < |retries|
    ensures r.pathIdx < |retries|
    decreases |attempts|
  {
    if attempts == [] then w
    else
      var before := Run(retries, w, attempts[..|attempts| - 1]);
      TurnOf(retries, before, attempts[|attempts| - 1]).next
  }

  // The waits of the run, in order.
  function Sleeps(retries: seq<int>, w: Worker, attempts: seq<Attempt>): (r: seq<int>)
    requires w.pathIdx < |retries|
    ensures |r| == |attempts|
    decreases |attempts|
  {
    if attempts == [] then []
    else
      var init := attempts[..|attempts| - 1];
      Sleeps(retries, w, init) + [TurnOf(retries, Run(retries, w, init), attempts[|attempts| - 1]).sleep]
  }

  lemma {:induction false} RunSnoc(retries: seq<int>, w: Worker, attempts: seq<Attempt>)
    requires w.pathIdx < |retries| && attempts != []
    ensures var init, a := attempts[..|attempts| - 1], attempts[|attempts| - 1];
      && Run(retries, w, attempts) == TurnOf(retries, Run(retries, w, init), a).next
      && Sleeps(retries, w, attempts)
         == Sleeps(retries, w, init) + [TurnOf(retries, Run(retries, w, init), a).sleep]
  {
  }

  // The body of the loop after connectAndServe has returned.
  method AfterAttempt(retries: seq<int>, w: Worker, a: Attempt) returns (next: Worker, sleep: int)
    requires w.pathIdx < |retries|
    ensures Turn(next, sleep) == TurnOf(retries, w, a)
    ensures var retry := if retries[w.pathIdx] * 1000 <= 0 then 3000 else retries[w.pathIdx] * 1000;
      && (!a.failed || a.duration >= 30000 ==> next == Worker(w.pathIdx, 0) && sleep == retry + a.jitter)
      && (a.failed && a.duration < 30000 && (|retries| == 1 || w.failCount < 2) ==>
            && next == Worker(w.pathIdx, w.failCount + 1)
            && sleep == if retry * (w.failCount + 1) > 15000 then 15000 else retry * (w.failCount + 1))
      && (a.failed && a.duration < 30000 && |retries| > 1 && w.failCount >= 2 ==>
            && next == Worker(if w.pathIdx == |retries| - 1 then 0 else w.pathIdx + 1, 0)
            && sleep == if w.pathIdx == |retries| - 1 then 10000 else retry + a.jitter)
  {
    var pathIdx, failCount := w.pathIdx, w.failCount;
    var retryInterval := retries[pathIdx] * 1000;
    if retryInterval <= 0 {
      retryInterval := DEFAULT_RETRY;
    }
    if a.failed {
      if a.duration < LONG_LIVED {
        failCount := failCount + 1;
      } else {
        failCount := 0;
      }
      if failCount >= MAX_FAILS && |retries| > 1 {
        NextIsRemainder(pathIdx, |retries|);
        pathIdx := (pathIdx + 1) % |retries|;
        failCount := 0;
        if pathIdx == 0 {
          return Worker(pathIdx, failCount), WRAP_BACKOFF;
        }
      } else if failCount > 0 {
        var backoff := retryInterval * failCount;
        if backoff > MAX_BACKOFF {
          backoff := MAX_BACKOFF;
        }
        return Worker(pathIdx, failCount), backoff;
      }
    } else {
      failCount := 0;
    }
    return Worker(pathIdx, failCount), retryInterval + a.jitter;
  }

  // The worker's loop over the attempts of a run.
  method PoolWorker(retries: seq<int>, attempts: seq<Attempt>) returns (w: Worker, sleeps: seq<int>)
    requires |retries| > 0
    ensures w == Run(retries, Worker(0, 0), attempts)
    ensures sleeps == Sleeps(retries, Worker(0, 0), attempts)
  {
    w, sleeps := Worker(0, 0), [];
    for i := 0 to |attempts|
      invariant w.pathIdx < |retries| && w == Run(retries, Worker(0, 0), attempts[..i])
      invariant sleeps == Sleeps(retries, Worker(0, 0), attempts[..i])
    {
      assert attempts[..i + 1][..i] == attempts[..i];
      RunSnoc(retries, Worker(0, 0), attempts[..i + 1]);
      var sleep;
      w, sleep := AfterAttempt(retries, w, attempts[i]);
      sleeps := sleeps + [sleep];
    }
    assert attempts[..|attempts|] == attempts;
  }

  // ---------- What the loop guarantees ----------

  lemma {:induction false} FailCountBounded(retries: seq<int>, attempts: seq<Attempt>)
    requires |retries| > 1
    ensures Run(retries, Worker(0, 0), attempts).failCount < MAX_FAILS
    decreases |attempts|
  {
    if attempts != [] {
      FailCountBounded(retries, attempts[..|attempts| - 1]);
    }
  }

  // The fail count is the number of quick failures the run ends with, on this path: the
  // last failCount attempts were all quick, and started from this very path.
  lemma {:induction false} FailCountMeaning(retries: seq<int>, attempts: seq<Attempt>)
    requires |retries| > 1
    ensures var w := Run(retries, Worker(0, 0), attempts);
      && w.failCount <= |attempts|
      && (forall i | |attempts| - w.failCount <= i < |attempts| :: Quick(attempts[i]))
      && forall i | |attempts| - w.failCount <= i <= |attempts| ::
           Run(retries, Worker(0, 0), attempts[..i]).pathIdx == w.pathIdx
    decreases |attempts|
  {
    assert attempts[..|attempts|] == attempts;
    if attempts != [] {
      var n := |attempts| - 1;
      var init := attempts[..n];
      FailCountMeaning(retries, init);
      var before, w := Run(retries, Worker(0, 0), init), Run(retries, Worker(0, 0), attempts);
      forall i | |attempts| - w.failCount <= i <= n
        ensures Run(retries, Worker(0, 0), attempts[..i]).pathIdx == w.pathIdx
      {
        assert attempts[..i] == init[..i];
        assert w.failCount == before.failCount + 1;
      }
    }
  }

  // A path is abandoned exactly at its third quick failure in a row: the last three
  // attempts failed within thirty seconds each, all on the old path, and no long-lived
  // session lies in between.
  lemma SwitchNeedsThree(retries: seq<int>, attempts: seq<Attempt>, a: Attempt)
    requires |retries| > 1
    ensures var w := Run(retries, Worker(0, 0), attempts);
      var turn := TurnOf(retries, w, a);
      && (turn.next.pathIdx != w.pathIdx <==> a.failed && a.duration < 30000 && w.failCount == 2)
      && (turn.next.pathIdx != w.pathIdx ==>
            var all := attempts + [a];
            && |all| >= 3
            && (forall i | |all| - 3 <= i < |all| :: all[i].failed && all[i].duration < 30000)
            && forall i | |all| - 3 <= i < |all| ::
                 Run(retries, Worker(0, 0), all[..i]).pathIdx == w.pathIdx)
  {
    FailCountBounded(retries, attempts);
    FailCountMeaning(retries, attempts);
    var w, all := Run(retries, Worker(0, 0), attempts), attempts + [a];
    if w.failCount == 2 {
      forall i | |all| - 3 <= i < |all|
        ensures all[..i] == attempts[..i]
      {
      }
    }
  }

  // The waits, for any number of paths and from any state: ten seconds exactly on the wrap
  // to the first path; otherwise a graduated back-off of at most fifteen, however often a
  // single path has failed, or the retry interval of the path that was tried.
  lemma SleepExact(retries: seq<int>, w: Worker, a: Attempt)
    requires w.pathIdx < |retries|
    ensures var turn := TurnOf(retries, w, a);
      var wraps := turn.next.pathIdx == 0 && turn.next.pathIdx != w.pathIdx;
      && (wraps <==> Quick(a) && w.failCount >= 2 && w.pathIdx == |retries| - 1 > 0)
      && (wraps ==> turn.sleep == 10000)
      && (turn.next.failCount > 0 ==> 0 < turn.sleep <= 15000)
      && (!wraps && turn.next.failCount == 0 ==> turn.sleep == Retry(retries[w.pathIdx]) + a.jitter)
  {
    var retry, fails := Retry(retries[w.pathIdx]), if Quick(a) then w.failCount + 1 else 0;
    assert fails > 0 ==> retry * fails > 0;
  }

  // A client with a single path never leaves it and never waits the ten seconds: after n
  // quick failures in a row it waits n times the retry interval, at most fifteen seconds.
  lemma {:induction false} SinglePath(retries: seq<int>, w: Worker, attempts: seq<Attempt>)
    requires |retries| == 1 && w.pathIdx == 0 && AllQuick(attempts)
    ensures Run(retries, w, attempts) == Worker(0, w.failCount + |attempts|)
    ensures attempts != [] ==>
      Sleeps(retries, w, attempts)[|attempts| - 1]
        == Min(Retry(retries[0]) * (w.failCount + |attempts|), MAX_BACKOFF)
    decreases |attempts|
  {
    if attempts != [] {
      var n := |attempts| - 1;
      assert AllQuick(attempts[..n]);
      SinglePath(retries, w, attempts[..n]);
      RunSnoc(retries, w, attempts);
    }
  }

  // ---------- The exact bound ----------

  function Ahead(from: nat, to: nat, k: nat): nat
    requires from < k && to < k
  {
    if to >= from then to - from else to - from + k
  }

  ghost predicate AllQuick(attempts: seq<Attempt>) {
    forall i | 0 <= i < |attempts| :: Quick(attempts[i])
  }

  // x mod k, by going round
  function Wrap(x: nat, k: nat): (r: nat)
    requires k > 0
    ensures r < k
  {
    if x < k then x else Wrap(x - k, k)
  }

  lemma {:induction false} WrapNext(x: nat, k: nat)
    requires k > 1
    ensures Wrap(x + 1, k) == NextPath(Wrap(x, k), k)
  {
    if x >= k {
      WrapNext(x - k, k);
    }
  }

  // The state t quick failures after the worker came to path p.
  function Advanced(p: nat, t: nat, k: nat): (w: Worker)
    requires k > 0
    ensures w.pathIdx < k
  {
    Worker(Wrap(p + t / 3, k), t % 3)
  }

  // From any state, quick failures in a row advance the path in threes.
  lemma {:induction false} QuickAdvance(retries: seq<int>, w: Worker, attempts: seq<Attempt>)
    requires |retries| > 1 && w.pathIdx < |retries| && w.failCount < MAX_FAILS && AllQuick(attempts)
    ensures Run(retries, w, attempts) == Advanced(w.pathIdx, w.failCount + |attempts|, |retries|)
    decreases |attempts|
  {
    if attempts != [] {
      var n := |attempts| - 1;
      assert AllQuick(attempts[..n]);
      QuickAdvance(retries, w, attempts[..n]);
      RunSnoc(retries, w, attempts);
      QuickStep(retries, w.pathIdx, w.failCount + n, attempts[n]);
    }
  }

  lemma {:induction false} QuickStep(retries: seq<int>, p: nat, t: nat, a: Attempt)
    requires |retries| > 1 && Quick(a)
    ensures TurnOf(retries, Advanced(p, t, |retries|), a).next == Advanced(p, t + 1, |retries|)
  {
    if t % 3 == 2 {
      assert (t + 1) / 3 == t / 3 + 1 && (t + 1) % 3 == 0;
      WrapNext(p + t / 3, |retries|);
    } else {
      assert (t + 1) / 3 == t / 3 && (t + 1) % 3 == t % 3 + 1;
    }
  }

  lemma AheadExact(from: nat, d: nat, to: nat, k: nat)
    requires from < k && to < k && d < k
    ensures Wrap(from + d, k) == to <==> d == Ahead(from, to, k)
  {
  }

  // Path j is reached after exactly 3 * ((j - pathIdx) mod k) - failCount consecutive
  // quick failures, and not one attempt earlier.
  lemma {:induction false} FailoverBound(retries: seq<int>, w: Worker, attempts: seq<Attempt>, j: nat)
    requires |retries| > 1 && w.pathIdx < |retries| && w.failCount < MAX_FAILS
    requires j < |retries| && j != w.pathIdx && AllQuick(attempts)
    requires |attempts| <= 3 * Ahead(w.pathIdx, j, |retries|) - w.failCount
    ensures Run(retries, w, attempts).pathIdx == j
       <==> |attempts| == 3 * Ahead(w.pathIdx, j, |retries|) - w.failCount
  {
    QuickAdvance(retries, w, attempts);
    AdvancedExact(w.pathIdx, w.failCount + |attempts|, j, |retries|);
  }

  lemma {:induction false} AdvancedExact(p: nat, t: nat, j: nat, k: nat)
    requires p < k && j < k && t <= 3 * Ahead(p, j, k)
    ensures Advanced(p, t, k).pathIdx == j <==> t == 3 * Ahead(p, j, k)
  {
    Thirds(t, Ahead(p, j, k));
    AheadExact(p, t / 3, j, k);
  }

  lemma Thirds(total: nat, m: nat)
    requires total <= 3 * m
    ensures total / 3 <= m && (total / 3 == m <==> total == 3 * m)
  {
  }
}
