// The slice of live sessions, changed in place, and the choice of a session for a
// new stream. Server and client keep the same kind of pool.
module SessionPool {
  type Session = nat

  // ---------- The pool as a sequence ----------

  predicate NoDup(s: seq<Session>) {
    forall i, j | 0 <= i < j < |s| :: s[i] != s[j]
  }

  // s without the members of dead, in the same order
  function Without(s: seq<Session>, dead: set<Session>): seq<Session> {
    if s == [] then []
    else Without(s[..|s| - 1], dead) + (if s[|s| - 1] in dead then [] else [s[|s| - 1]])
  }

  // The loop of removeSession: drop the first occurrence only.
  function RemoveFirst(s: seq<Session>, x: Session): seq<Session> {
    if s == [] then [] else if s[0] == x then s[1..] else [s[0]] + RemoveFirst(s[1..], x)
  }

  // The health check: closed[i] is what IsClosed answered for s[i].
  function KeepOpen(s: seq<Session>, closed: seq<bool>): seq<Session>
    requires |s| == |closed|
  {
    if s == [] then []
    else
      KeepOpen(s[..|s| - 1], closed[..|s| - 1])
      + (if closed[|s| - 1] then [] else [s[|s| - 1]])
  }

  lemma {:induction false} WithoutMembers(s: seq<Session>, dead: set<Session>)
    ensures forall x :: x in Without(s, dead) <==> x in s && x !in dead
    ensures NoDup(s) ==> NoDup(Without(s, dead))
  {
    if s != [] {
      var init, last := s[..|s| - 1], s[|s| - 1];
      WithoutMembers(init, dead);
      assert s == init + [last];
      assert NoDup(s) ==> last !in init;
    }
  }

  lemma {:induction false} WithoutConcat(a: seq<Session>, b: seq<Session>, dead: set<Session>)
    ensures Without(a + b, dead) == Without(a, dead) + Without(b, dead)
  {
    if b == [] {
      assert a + b == a;
    } else {
      assert (a + b)[..|a + b| - 1] == a + b[..|b| - 1];
      WithoutConcat(a, b[..|b| - 1], dead);
    }
  }

  lemma {:induction false} WithoutTwice(s: seq<Session>, d: set<Session>, e: set<Session>)
    ensures Without(Without(s, d), e) == Without(s, d + e)
  {
    if s != [] {
      var init, last := s[..|s| - 1], s[|s| - 1];
      WithoutTwice(init, d, e);
      WithoutConcat(Without(init, d), if last in d then [] else [last], e);
      assert Without([last], e) == if last in e then [] else [last];
    }
  }

  lemma {:induction false} WithoutNone(s: seq<Session>, dead: set<Session>)
    requires forall x | x in s :: x !in dead
    ensures Without(s, dead) == s
  {
    if s != [] {
      WithoutNone(s[..|s| - 1], dead);
    }
  }

  lemma WithoutHead(s: seq<Session>, dead: set<Session>)
    requires s != []
    ensures Without(s, dead) == (if s[0] in dead then [] else [s[0]]) + Without(s[1..], dead)
  {
    assert s == [s[0]] + s[1..];
    WithoutConcat([s[0]], s[1..], dead);
    assert Without([s[0]], dead) == if s[0] in dead then [] else [s[0]];
  }

  // Without duplicates, the three operations are: insert at the end, delete one
  // member, and delete exactly the closed members. Order is kept throughout.
  lemma {:induction false} RemoveIsDelete(s: seq<Session>, x: Session)
    requires NoDup(s)
    ensures RemoveFirst(s, x) == Without(s, {x})
  {
    if s != [] {
      WithoutHead(s, {x});
      if s[0] == x {
        WithoutNone(s[1..], {x});
      } else {
        RemoveIsDelete(s[1..], x);
      }
    }
  }

  lemma {:induction false} RemoveAt(s: seq<Session>, x: Session, i: nat)
    requires i <= |s| && forall j | 0 <= j < i :: s[j] != x
    requires i < |s| ==> s[i] == x
    ensures RemoveFirst(s, x) == if i < |s| then s[..i] + s[i + 1..] else s
  {
    if i > 0 {
      RemoveAt(s[1..], x, i - 1);
    }
  }

  function ClosedSet(s: seq<Session>, closed: seq<bool>): set<Session>
    requires |s| == |closed|
  {
    set i | 0 <= i < |s| && closed[i] :: s[i]
  }

  lemma {:induction false} KeepIsDelete(s: seq<Session>, closed: seq<bool>, dead: set<Session>)
    requires |s| == |closed| && forall i | 0 <= i < |s| :: closed[i] <==> s[i] in dead
    ensures KeepOpen(s, closed) == Without(s, dead)
  {
    if s != [] {
      KeepIsDelete(s[..|s| - 1], closed[..|s| - 1], dead);
    }
  }

  lemma KeepIsClosedDelete(s: seq<Session>, closed: seq<bool>)
    requires |s| == |closed| && NoDup(s)
    ensures KeepOpen(s, closed) == Without(s, ClosedSet(s, closed))
  {
    KeepIsDelete(s, closed, ClosedSet(s, closed));
  }

  // The pool refines an ordered set: added is every session ever added, in order, and
  // gone is every session removed or found closed so far.
  ghost predicate Refines(pool: seq<Session>, added: seq<Session>, gone: set<Session>) {
    NoDup(added) && pool == Without(added, gone)
  }

  lemma OrderedSet(pool: seq<Session>, added: seq<Session>, gone: set<Session>, x: Session, closed: seq<bool>)
    requires Refines(pool, added, gone)
    ensures NoDup(pool) && forall y :: y in pool <==> y in added && y !in gone
    ensures x !in added && x !in gone ==> Refines(pool + [x], added + [x], gone)
    ensures Refines(RemoveFirst(pool, x), added, gone + {x})
    ensures RemoveFirst(RemoveFirst(pool, x), x) == RemoveFirst(pool, x)
    ensures |closed| == |pool| ==> Refines(KeepOpen(pool, closed), added, gone + ClosedSet(pool, closed))
  {
    WithoutMembers(added, gone);
    WithoutConcat(added, [x], gone);
    assert x !in gone ==> Without([x], gone) == [x];
    RemoveIsDelete(pool, x);
    WithoutTwice(added, gone, {x});
    WithoutMembers(pool, {x});
    RemoveIsDelete(RemoveFirst(pool, x), x);
    WithoutNone(RemoveFirst(pool, x), {x});
    if |closed| == |pool| {
      KeepIsClosedDelete(pool, closed);
      WithoutTwice(added, gone, ClosedSet(pool, closed));
    }
  }

  // ---------- The pool as a Go slice over a shared backing array ----------

  class Pool {
    var arr: array<Session>
    var len: nat

    ghost predicate Valid()
      reads this
    {
      len <= arr.Length
    }

    ghost function Items(): seq<Session>
      requires Valid()
      reads this, arr
    {
      arr[..len]
    }

    constructor ()
      ensures Valid() && fresh(arr) && Items() == []
    {
      arr, len := new Session[0], 0;
    }

    // append: in place while there is capacity, else into a larger array
    method Add(x: Session)
      requires Valid()
      modifies this, arr
      ensures Valid() && (arr == old(arr) || fresh(arr))
      ensures Items() == old(Items()) + [x]
    {
      if len == arr.Length {
        var bigger := new Session[2 * arr.Length + 1];
        forall i | 0 <= i < len {
          bigger[i] := arr[i];
        }
        arr := bigger;
      }
      arr[len] := x;
      len := len + 1;
    }

    // append(s[:i], s[i+1:]...): the tail moves down one place
    method Remove(x: Session)
      requires Valid()
      modifies this`len, arr
      ensures Valid()
      ensures Items() == RemoveFirst(old(Items()), x)
    {
      ghost var was := Items();
      var i := 0;
      while i < len
        invariant i <= len && Valid() && Items() == was && len == old(len)
        invariant forall j | 0 <= j < i :: was[j] != x
      {
        assert was[i] == arr[i];
        if arr[i] == x {
          RemoveAt(was, x, i);
          CloseGap(i);
          return;
        }
        i := i + 1;
      }
      RemoveAt(was, x, i);
    }

    method CloseGap(i: nat)
      requires Valid() && i < len
      modifies this`len, arr
      ensures Valid()
      ensures Items() == old(Items())[..i] + old(Items())[i + 1..]
    {
      ghost var was := Items();
      forall j | i <= j < len - 1 {
        arr[j] := arr[j + 1];
      }
      len := len - 1;
      assert forall j | 0 <= j < i :: Items()[j] == was[j];
      assert forall j | i <= j < len :: Items()[j] == was[j + 1];
    }

    // alive := s[:0], then append(alive, x) for each open x. The range loop reads the
    // same array the appends overwrite; alive never overtakes the reading index.
    method Compact(closed: seq<bool>) returns (evicted: nat)
      requires Valid() && |closed| == len
      modifies this`len, arr
      ensures Valid()
      ensures Items() == KeepOpen(old(Items()), closed)
      ensures evicted + len == old(len)
    {
      ghost var was := Items();
      var alive, i := 0, 0;
      evicted := 0;
      while i < len
        invariant alive <= i <= len && len == old(len) && evicted + alive == i
        invariant arr[..alive] == KeepOpen(was[..i], closed[..i])
        invariant arr[i..len] == was[i..]
      {
        var x := arr[i];
        assert x == arr[i..len][0] == was[i];
        assert was[..i + 1][..i] == was[..i] && closed[..i + 1][..i] == closed[..i];
        ghost var later := arr[i + 1..len];
        assert later == arr[i..len][1..] == was[i + 1..];
        if closed[i] {
          evicted := evicted + 1;
        } else {
          ghost var kept := arr[..alive];
          arr[alive] := x;
          alive := alive + 1;
          assert arr[..alive] == kept + [x];
          assert arr[i + 1..len] == later;
        }
        i := i + 1;
      }
      assert was[..i] == was && closed[..i] == closed;
      len := alive;
    }
  }

  // ---------- Choosing a session ----------

  const TWO_63: int := 0x8000_0000_0000_0000
  const TWO_64: int := 0x1_0000_0000_0000_0000
  const MAX_INT64: int := TWO_63 - 1

  // int(x) of a uint64, and the remainder of Go, which takes the sign of a
  function ToInt(x: nat): int
    requires x < TWO_64
  {
    if x < TWO_63 then x else x - TWO_64
  }

  lemma ToIntExact(x: nat)
    requires x < 18446744073709551616
    ensures ToInt(x) == if x < 9223372036854775808 then x else x - 18446744073709551616
  {
  }

  function GoMod(a: int, n: int): int
    requires n > 0
  {
    if a >= 0 then a % n else -((-a) % n)
  }

  // The start of the scan after the counter poolIdx has been incremented.
  function StartIndex(poolIdx: nat, n: nat): int
    requires n > 0
  {
    GoMod(ToInt((poolIdx + 1) % TWO_64), n)
  }

  datatype Pick = Nobody | IndexPanic | Picked(idx: nat)

  predicate Fits(open: seq<bool>, load: seq<int>, maxStreams: int, k: int)
    requires 0 <= k < |open| == |load|
  {
    open[k] && load[k] < maxStreams
  }

  predicate Usable(open: seq<bool>, load: seq<int>, k: int)
    requires 0 <= k < |open| == |load|
  {
    open[k] && load[k] < MAX_INT64
  }

  // best is the first of the least loaded open sessions below n
  predicate LeastUpTo(open: seq<bool>, load: seq<int>, best: nat, n: nat)
    requires best < n <= |open| == |load|
  {
    && Usable(open, load, best)
    && forall k | 0 <= k < n && Usable(open, load, k) ::
         load[best] <= load[k] && (k < best ==> load[best] < load[k])
  }

  // Steps from start to k going round the pool.
  function Steps(start: int, k: int, n: int): int
    requires n > 0
  {
    if k >= start then k - start else k - start + n
  }

  // What a choice must be: the first fitting session in cyclic order; when none fits,
  // the first of the least loaded open ones.
  ghost predicate PickSpec(open: seq<bool>, load: seq<int>, maxStreams: int, start: int, p: Pick)
    requires |open| == |load|
  {
    match p
    case IndexPanic => start < 0
    case Nobody => forall k | 0 <= k < |open| ::
        !Fits(open, load, maxStreams, k) && !Usable(open, load, k)
    case Picked(idx) =>
      && idx < |open|
      && if Fits(open, load, maxStreams, idx) then
           forall k | 0 <= k < |open| && Fits(open, load, maxStreams, k) ::
             Steps(start, idx, |open|) <= Steps(start, k, |open|)
         else
           && (forall k | 0 <= k < |open| :: !Fits(open, load, maxStreams, k))
           && LeastUpTo(open, load, idx, |open|)
  }

  // What such a choice means, in the terms of the pool: an open session; one below the limit
  // while there is any, else the first with the least load of all open ones; and nobody only when
  // none is open with a load below the largest integer.
  lemma PickMeans(open: seq<bool>, load: seq<int>, maxStreams: int, start: int, p: Pick, k: nat)
    requires |open| == |load| && k < |open| && PickSpec(open, load, maxStreams, start, p)
    ensures p.Nobody? && open[k] ==> load[k] >= maxStreams && load[k] >= 9223372036854775807
    ensures p.Picked? ==> open[p.idx]
    ensures p.Picked? && load[p.idx] >= maxStreams && open[k] && k != p.idx ==>
      load[k] >= maxStreams && if k < p.idx then load[p.idx] < load[k] else load[p.idx] <= load[k]
    ensures p.Picked? && load[p.idx] < maxStreams && open[k] && load[k] < maxStreams ==>
      Steps(start, p.idx, |open|) <= Steps(start, k, |open|)
  {
    assert Fits(open, load, maxStreams, k) <==> open[k] && load[k] < maxStreams;
    assert Usable(open, load, k) <==> open[k] && load[k] < 9223372036854775807;
  }

  lemma StepsOf(start: int, i: int, n: int)
    requires 0 <= start < n && 0 <= i < n
    ensures 0 <= (start + i) % n < n && Steps(start, (start + i) % n, n) == i
  {
    var wrap := if start + i >= n then 1 else 0;
    DivUnique(start + i, n, wrap, start + i - wrap * n);
  }

  lemma StepsBack(start: int, k: int, n: int)
    requires 0 <= start < n && 0 <= k < n
    ensures 0 <= Steps(start, k, n) < n && (start + Steps(start, k, n)) % n == k
  {
    DivUnique(start + Steps(start, k, n), n, if k >= start then 0 else 1, k);
  }

  lemma StartRange(poolIdx: nat, n: int)
    requires n > 0 && poolIdx < TWO_64
    ensures -n < StartIndex(poolIdx, n) < n
  {
  }

  lemma ScanIndex(start: int, i: int, n: int)
    requires -n < start < n && 0 <= i < n && (i > 0 ==> start >= 0)
    ensures start >= 0 ==> 0 <= GoMod(start + i, n) < n && Steps(start, GoMod(start + i, n), n) == i
    ensures start < 0 ==> GoMod(start + i, n) < 0
  {
    if start >= 0 {
      StepsOf(start, i, n);
    } else {
      DivUnique(-start, n, 0, -start);
    }
  }

  // The first i sessions in cyclic order have been looked at, and none fits.
  predicate SkippedTo(open: seq<bool>, load: seq<int>, maxStreams: int, start: int, i: int)
    requires |open| == |load|
  {
    forall k | 0 <= k < |open| && Fits(open, load, maxStreams, k) ::
      0 <= start < |open| && Steps(start, k, |open|) >= i
  }

  lemma SkipOne(open: seq<bool>, load: seq<int>, maxStreams: int, start: int, i: int)
    requires |open| == |load| && 0 <= start < |open| && 0 <= i < |open|
    requires SkippedTo(open, load, maxStreams, start, i)
    requires 0 <= GoMod(start + i, |open|) < |open|
    requires !Fits(open, load, maxStreams, GoMod(start + i, |open|))
    ensures SkippedTo(open, load, maxStreams, start, i + 1)
  {
    forall k | 0 <= k < |open| && Fits(open, load, maxStreams, k)
      ensures Steps(start, k, |open|) >= i + 1
    {
      StepsBack(start, k, |open|);
    }
  }

  // Going round once visits every session.
  lemma NothingFits(open: seq<bool>, load: seq<int>, maxStreams: int, start: int)
    requires |open| == |load| && 0 <= start < |open|
    requires SkippedTo(open, load, maxStreams, start, |open|)
    ensures forall k | 0 <= k < |open| :: !Fits(open, load, maxStreams, k)
  {
    forall k | 0 <= k < |open| && Fits(open, load, maxStreams, k)
      ensures false
    {
      StepsBack(start, k, |open|);
    }
  }

  method LeastLoaded(open: seq<bool>, load: seq<int>) returns (best: int)
    requires |open| == |load|
    ensures -1 <= best < |open|
    ensures best == -1 <==> forall k | 0 <= k < |open| :: !Usable(open, load, k)
    ensures best >= 0 ==> LeastUpTo(open, load, best, |open|)
  {
    best := -1;
    var bestLoad := MAX_INT64;
    for i := 0 to |open|
      invariant -1 <= best < i && bestLoad <= MAX_INT64
      invariant best == -1 ==> bestLoad == MAX_INT64 && forall k | 0 <= k < i :: !Usable(open, load, k)
      invariant best >= 0 ==> bestLoad == load[best] && LeastUpTo(open, load, best, i)
    {
      if open[i] && load[i] < bestLoad {
        best, bestLoad := i, load[i];
      }
    }
  }

  // The session part of openReverseStream, on one snapshot of the pool. The counter
  // is not touched when the pool is empty.
  method Choose(open: seq<bool>, load: seq<int>, maxStreams: int, poolIdx: nat)
    returns (p: Pick, counter: nat)
    requires |open| == |load| && poolIdx < TWO_64
    ensures |open| == 0 ==> p == Nobody && counter == poolIdx
    ensures |open| > 0 ==> counter == (poolIdx + 1) % TWO_64
    ensures |open| > 0 ==> PickSpec(open, load, maxStreams, StartIndex(poolIdx, |open|), p)
    ensures |open| > 0 && StartIndex(poolIdx, |open|) < 0 ==> p == IndexPanic
  {
    var n := |open|;
    if n == 0 {
      return Nobody, poolIdx;
    }
    counter := (poolIdx + 1) % TWO_64;
    var start := GoMod(ToInt(counter), n);
    StartRange(poolIdx, n);
    var i := 0;
    while i < n
      invariant 0 <= i <= n && (i > 0 ==> start >= 0)
      invariant start >= 0 ==> SkippedTo(open, load, maxStreams, start, i)
    {
      var idx := GoMod(start + i, n);
      ScanIndex(start, i, n);
      if idx < 0 {
        return IndexPanic, counter;
      }
      if open[idx] && load[idx] < maxStreams {
        return Picked(idx), counter;
      }
      SkipOne(open, load, maxStreams, start, i);
      i := i + 1;
    }
    NothingFits(open, load, maxStreams, start);
    var best := LeastLoaded(open, load);
    p := if best >= 0 then Picked(best) else Nobody;
  }

  // The conversion to int makes a counter at or above 2^63 negative, counter - 2^64; then
  // the very first index is out of range, unless n happens to divide 2^64 - counter.
  lemma PanicExact(poolIdx: nat, n: nat)
    requires n > 0 && poolIdx < TWO_64
    ensures StartIndex(poolIdx, n) < 0 <==>
      (poolIdx + 1 < TWO_64 && poolIdx + 1 >= TWO_63 && (TWO_64 - (poolIdx + 1)) % n != 0)
    ensures poolIdx + 1 < TWO_63 ==> StartIndex(poolIdx, n) == (poolIdx + 1) % n
  {
  }

  // ---------- The client's choice ----------

  // (int(idx) + i) % n, where both the conversion and the sum wrap at 64 bits
  function ClientIndex(idx: nat, i: nat, n: nat): int
    requires n > 0
    ensures ClientIndex(idx, i, n) < n
  {
    GoMod(ToInt((idx + i) % TWO_64), n)
  }

  // The sessions tried in the first i steps from start whose OpenStream failed.
  function TriedInVain(items: seq<Session>, closed: seq<bool>, opens: seq<bool>, start: int, i: int): set<Session>
    requires |items| == |closed| == |opens|
  {
    set k | 0 <= k < |items| && Steps(start, k, |items|) < i && !closed[k] && !opens[k] :: items[k]
  }

  // None of the first i sessions from start could be opened.
  predicate NoneOpened(closed: seq<bool>, opens: seq<bool>, start: int, i: int)
    requires |closed| == |opens|
  {
    forall k | 0 <= k < |closed| && Steps(start, k, |closed|) < i :: closed[k] || !opens[k]
  }

  lemma ClientIndexExact(idx: nat, i: nat, n: nat)
    requires n > 0 && idx + i < TWO_63 && i < n
    ensures 0 <= ClientIndex(idx, i, n) < n
    ensures Steps(idx % n, ClientIndex(idx, i, n), n) == i
  {
    var start := idx % n;
    StepsOf(start, i, n);
    var q, k := idx / n, (start + i) % n;
    assert idx + i == q * n + (start + i);
    var wrap := if start + i >= n then 1 else 0;
    DivUnique(start + i, n, wrap, start + i - wrap * n);
    DivUnique(idx + i, n, q + wrap, k);
  }

  // One more step of the scan looks at exactly one more session.
  lemma StepsInjective(start: int, j: int, k: int, n: int)
    requires 0 <= start < n && 0 <= j < n && 0 <= k < n && Steps(start, j, n) == Steps(start, k, n)
    ensures j == k
  {
  }

  lemma TriedOneMore(items: seq<Session>, closed: seq<bool>, opens: seq<bool>, start: int, i: int, at: int)
    requires |items| == |closed| == |opens| && 0 <= start < |items| && 0 <= at < |items|
    requires Steps(start, at, |items|) == i && !(opens[at] && !closed[at])
    ensures TriedInVain(items, closed, opens, start, i + 1)
         == TriedInVain(items, closed, opens, start, i) + (if closed[at] then {} else {items[at]})
    ensures NoneOpened(closed, opens, start, i) ==> NoneOpened(closed, opens, start, i + 1)
  {
    forall k | 0 <= k < |items| && Steps(start, k, |items|) == i
      ensures k == at
    {
      StepsInjective(start, k, at, |items|);
    }
  }

  // The pool after the first i steps of the scan.
  function AfterTries(items: seq<Session>, closed: seq<bool>, opens: seq<bool>, start: int, i: int): seq<Session>
    requires |items| == |closed| == |opens|
  {
    Without(items, TriedInVain(items, closed, opens, start, i))
  }

  // i sessions were tried, none opened, and left is what the pool holds then.
  ghost predicate Scanned(items: seq<Session>, closed: seq<bool>, opens: seq<bool>, start: int, i: int,
                          left: seq<Session>)
    requires |items| == |closed| == |opens|
  {
    NoneOpened(closed, opens, start, i) && left == AfterTries(items, closed, opens, start, i)
  }

  // What the client's choice must be: the first session from start that is not closed
  // and opens, together with the pool without those that failed before it.
  ghost predicate OpenSpec(items: seq<Session>, closed: seq<bool>, opens: seq<bool>, start: int,
                           found: (Pick, seq<Session>))
    requires |items| == |closed| == |opens|
  {
    match found.0
    case IndexPanic => false
    case Nobody =>
      && (forall k | 0 <= k < |items| :: closed[k] || !opens[k])
      && Scanned(items, closed, opens, start, |items|, found.1)
    case Picked(idx) =>
      && idx < |items| && !closed[idx] && opens[idx]
      && Scanned(items, closed, opens, start, Steps(start, idx, |items|), found.1)
  }

  lemma OneTry(items: seq<Session>, closed: seq<bool>, opens: seq<bool>, start: int, i: int, at: int,
               left: seq<Session>, next: seq<Session>)
    requires |items| == |closed| == |opens| && 0 <= start < |items| && 0 <= at < |items| && NoDup(items)
    requires Steps(start, at, |items|) == i && !(opens[at] && !closed[at])
    requires Scanned(items, closed, opens, start, i, left)
    requires next == if closed[at] then left else RemoveFirst(left, items[at])
    ensures Scanned(items, closed, opens, start, i + 1, next)
  {
    var tried := TriedInVain(items, closed, opens, start, i);
    TriedOneMore(items, closed, opens, start, i, at);
    assert tried + {} == tried;
    WithoutMembers(items, tried);
    RemoveIsDelete(Without(items, tried), items[at]);
    WithoutTwice(items, tried, {items[at]});
  }

  lemma NobodyOpened(items: seq<Session>, closed: seq<bool>, opens: seq<bool>, start: int, left: seq<Session>)
    requires |items| == |closed| == |opens| && 0 <= start < |items|
    requires Scanned(items, closed, opens, start, |items|, left)
    ensures OpenSpec(items, closed, opens, start, (Nobody, left))
  {
    forall k | 0 <= k < |items|
      ensures closed[k] || !opens[k]
    {
      StepsBack(start, k, |closed|);
    }
  }

  // The indexes of one scan, in order.
  function ClientOrder(idx: nat, n: nat): (order: seq<int>)
    ensures |order| == n && forall i | 0 <= i < n :: order[i] == ClientIndex(idx, i, n)
  {
    seq(n, (i: nat) requires n > 0 => ClientIndex(idx, i, n))
  }

  // The scan from step i on, when left is what the pool holds by then.
  function OpenScan(items: seq<Session>, closed: seq<bool>, opens: seq<bool>, order: seq<int>, i: nat,
                    left: seq<Session>)
    : (Pick, seq<Session>)
    requires |items| == |closed| == |opens| == |order| && i <= |items|
    requires forall k | 0 <= k < |order| :: order[k] < |items|
    decreases |items| - i
  {
    if i == |items| then (Nobody, left)
    else if order[i] < 0 then (IndexPanic, left)
    else if closed[order[i]] then OpenScan(items, closed, opens, order, i + 1, left)
    else if opens[order[i]] then (Picked(order[i]), left)
    else OpenScan(items, closed, opens, order, i + 1, RemoveFirst(left, items[order[i]]))
  }

  // The order looks at every session once, from start.
  ghost predicate InCyclicOrder(order: seq<int>, start: int, n: nat) {
    |order| == n && forall k | 0 <= k < n :: 0 <= order[k] < n && Steps(start, order[k], n) == k
  }

  lemma {:induction false} ScanFromHere(items: seq<Session>, closed: seq<bool>, opens: seq<bool>, order: seq<int>,
                                        start: int, i: nat, left: seq<Session>)
    requires |items| == |closed| == |opens| && i <= |items| && NoDup(items) && 0 <= start < |items|
    requires InCyclicOrder(order, start, |items|) && Scanned(items, closed, opens, start, i, left)
    ensures OpenSpec(items, closed, opens, start, OpenScan(items, closed, opens, order, i, left))
    decreases |items| - i
  {
    if i == |items| {
      NobodyOpened(items, closed, opens, start, left);
    } else if closed[order[i]] || !opens[order[i]] {
      var at := order[i];
      var next := if closed[at] then left else RemoveFirst(left, items[at]);
      OneTry(items, closed, opens, start, i, at, left, next);
      ScanFromHere(items, closed, opens, order, start, i + 1, next);
      ScanGoesOn(items, closed, opens, order, i, left, next);
    } else {
      OpensHere(items, closed, opens, start, i, order[i], left);
    }
  }

  lemma ScanGoesOn(items: seq<Session>, closed: seq<bool>, opens: seq<bool>, order: seq<int>, i: nat,
                   left: seq<Session>, next: seq<Session>)
    requires |items| == |closed| == |opens| == |order| && i < |items|
    requires (forall k | 0 <= k < |order| :: order[k] < |items|) && order[i] >= 0
    requires closed[order[i]] || !opens[order[i]]
    requires next == if closed[order[i]] then left else RemoveFirst(left, items[order[i]])
    ensures OpenScan(items, closed, opens, order, i, left) == OpenScan(items, closed, opens, order, i + 1, next)
  {
  }

  lemma OpensHere(items: seq<Session>, closed: seq<bool>, opens: seq<bool>, start: int, i: nat, at: nat,
                  left: seq<Session>)
    requires |items| == |closed| == |opens| && at < |items| && 0 <= start < |items| && !closed[at] && opens[at]
    requires Steps(start, at, |items|) == i && Scanned(items, closed, opens, start, i, left)
    ensures OpenSpec(items, closed, opens, start, (Picked(at), left))
  {
  }

  // Below 2^63 the indexes do go round, from the remainder of the counter.
  lemma OrderExact(counter: nat, n: nat)
    requires n > 0 && counter + n <= TWO_63
    ensures InCyclicOrder(ClientOrder(counter, n), counter % n, n)
  {
    forall k | 0 <= k < n
      ensures 0 <= ClientIndex(counter, k, n) < n && Steps(counter % n, ClientIndex(counter, k, n), n) == k
    {
      ClientIndexExact(counter, k, n);
    }
  }

  // A scan that goes round from start takes the first session that opens, and evicts
  // those before it that failed to open.
  lemma OpenScanExact(items: seq<Session>, closed: seq<bool>, opens: seq<bool>, order: seq<int>, start: int)
    requires |items| == |closed| == |opens| && NoDup(items) && 0 <= start < |items|
    requires InCyclicOrder(order, start, |items|)
    ensures OpenSpec(items, closed, opens, start, OpenScan(items, closed, opens, order, 0, items))
  {
    WithoutNone(items, TriedInVain(items, closed, opens, start, 0));
    ScanFromHere(items, closed, opens, order, start, 0, items);
  }

  // The scan reaches step k, and the index there is negative.
  predicate PanicsAt(closed: seq<bool>, opens: seq<bool>, order: seq<int>, i: nat, k: nat)
    requires |closed| == |opens| == |order| && forall j | 0 <= j < |order| :: order[j] < |order|
  {
    && i <= k < |order| && order[k] < 0
    && forall j | i <= j < k :: order[j] >= 0 && (closed[order[j]] || !opens[order[j]])
  }

  ghost predicate Panics(closed: seq<bool>, opens: seq<bool>, order: seq<int>, i: nat)
    requires |closed| == |opens| == |order| && forall j | 0 <= j < |order| :: order[j] < |order|
  {
    exists k :: PanicsAt(closed, opens, order, i, k)
  }

  // When the scan panics, for every counter: exactly when some index is negative and all
  // sessions looked at before it are closed or fail to open.
  lemma {:induction false} OpenPanicExact(items: seq<Session>, closed: seq<bool>, opens: seq<bool>, order: seq<int>,
                                          i: nat, left: seq<Session>)
    requires |items| == |closed| == |opens| == |order| && i <= |items|
    requires forall j | 0 <= j < |order| :: order[j] < |items|
    ensures OpenScan(items, closed, opens, order, i, left).0 == IndexPanic <==> Panics(closed, opens, order, i)
    decreases |items| - i
  {
    if i < |items| {
      if order[i] < 0 {
        assert PanicsAt(closed, opens, order, i, i);
      } else if closed[order[i]] || !opens[order[i]] {
        var next := if closed[order[i]] then left else RemoveFirst(left, items[order[i]]);
        OpenPanicExact(items, closed, opens, order, i + 1, next);
        PanicsLater(closed, opens, order, i);
      }
    }
  }

  lemma PanicsLater(closed: seq<bool>, opens: seq<bool>, order: seq<int>, i: nat)
    requires |closed| == |opens| == |order| && forall j | 0 <= j < |order| :: order[j] < |order|
    requires i < |order| && order[i] >= 0 && (closed[order[i]] || !opens[order[i]])
    ensures Panics(closed, opens, order, i) <==> Panics(closed, opens, order, i + 1)
  {
    if Panics(closed, opens, order, i) {
      var k: nat :| PanicsAt(closed, opens, order, i, k);
      assert PanicsAt(closed, opens, order, i + 1, k);
    }
    if Panics(closed, opens, order, i + 1) {
      var k: nat :| PanicsAt(closed, opens, order, i + 1, k);
      assert PanicsAt(closed, opens, order, i, k);
    }
  }

  // And the index of a step is negative exactly when counter plus step, wrapped, is at or
  // above 2^63 and its distance to 2^64 is no multiple of the pool size.
  lemma NegativeExact(counter: nat, i: nat, n: nat)
    requires n > 0
    ensures var v := (counter + i) % TWO_64;
      ClientIndex(counter, i, n) < 0 <==> v >= TWO_63 && (TWO_64 - v) % n != 0
  {
  }

  // OpenStream on the client: scan a copy of the pool, take the first session that opens,
  // and remove from the pool each one that was not closed and yet failed to open.
  method OpenOnFirst(pool: Pool, closed: seq<bool>, opens: seq<bool>, rrIndex: nat)
    returns (p: Pick, counter: nat)
    requires pool.Valid() && NoDup(pool.Items()) && |closed| == |opens| == pool.len && rrIndex < TWO_64
    modifies pool`len, pool.arr
    ensures pool.Valid()
    ensures counter == if old(pool.len) == 0 then rrIndex else (rrIndex + 1) % TWO_64
    ensures var items := old(pool.Items());
      (p, pool.Items()) == OpenScan(items, closed, opens, ClientOrder(counter, |items|), 0, items)
  {
    var n := pool.len;
    if n == 0 {
      return Nobody, rrIndex;
    }
    var sessions := pool.arr[..n];
    counter := (rrIndex + 1) % TWO_64;
    ghost var order := ClientOrder(counter, n);
    var i := 0;
    while i < n
      invariant 0 <= i <= n && pool.Valid()
      invariant OpenScan(sessions, closed, opens, order, i, pool.Items())
             == OpenScan(sessions, closed, opens, order, 0, sessions)
    {
      var at := ClientIndex(counter, i, n);
      if at < 0 {
        return IndexPanic, counter;
      }
      if !closed[at] {
        if opens[at] {
          return Picked(at), counter;
        }
        pool.Remove(sessions[at]);
      }
      i := i + 1;
    }
    p := Nobody;
  }

  // ---------- Round-robin balance ----------

  predicate AllFit(open: seq<bool>, load: seq<int>, maxStreams: int) {
    |open| == |load| && forall k | 0 <= k < |open| :: Fits(open, load, maxStreams, k)
  }

  lemma UnsaturatedPick(open: seq<bool>, load: seq<int>, maxStreams: int, start: int, p: Pick)
    requires AllFit(open, load, maxStreams) && 0 <= start < |open|
    requires PickSpec(open, load, maxStreams, start, p)
    ensures p == Picked(start)
  {
    assert Fits(open, load, maxStreams, start) && Steps(start, start, |open|) == 0;
    if p.Nobody? {
      assert false;
    }
    var idx := p.idx;
    assert Fits(open, load, maxStreams, idx);
    StepsBack(start, idx, |open|);
  }

  function Occurrences(picks: seq<nat>, j: nat): nat {
    if picks == [] then 0
    else Occurrences(picks[..|picks| - 1], j) + (if picks[|picks| - 1] == j then 1 else 0)
  }

  // How many of c+1..c+m are congruent to j: a difference of two quotients.
  lemma QuotientStep(x: int, j: int, n: int)
    requires 0 <= j < n && 0 <= x
    ensures (x + 1 - j + n) / n == (x - j + n) / n + (if (x + 1) % n == j then 1 else 0)
  {
    var q, r := (x + 1) / n, (x + 1) % n;
    assert x + 1 == q * n + r;
    DivUnique(x + 1 - j + n, n, if r >= j then q + 1 else q, if r >= j then r - j else r - j + n);
    DivUnique(x - j + n, n, if r - 1 >= j then q + 1 else q, if r - 1 >= j then r - 1 - j else r - 1 - j + n);
  }

  lemma DivUnique(a: int, n: int, q: int, r: int)
    requires n > 0 && 0 <= r < n && a == q * n + r
    ensures a / n == q && a % n == r
  {
    var d := a / n - q;
    assert d * n == r - a % n;
    assert d >= 1 ==> d * n >= n;
    assert d <= -1 ==> d * n <= -n;
  }

  lemma {:induction false} OccurrencesQuotient(c: nat, n: nat, picks: seq<nat>, j: nat)
    requires n > 0 && j < n
    requires forall i | 0 <= i < |picks| :: picks[i] == (c + i + 1) % n
    ensures Occurrences(picks, j) == (c + |picks| - j + n) / n - (c - j + n) / n
  {
    if picks != [] {
      OccurrencesQuotient(c, n, picks[..|picks| - 1], j);
      QuotientStep(c + |picks| - 1, j, n);
    }
  }

  lemma QuotientSpread(a: int, m: nat, n: int)
    requires n > 0
    ensures m / n <= (a + m) / n - a / n <= (m + n - 1) / n
  {
    var q, r, s, t := a / n, a % n, m / n, m % n;
    assert a + m == (q + s) * n + (r + t);
    if r + t < n {
      DivUnique(a + m, n, q + s, r + t);
    } else {
      DivUnique(a + m, n, q + s + 1, r + t - n);
    }
    if t == 0 {
      DivUnique(m + n - 1, n, s, n - 1);
    } else {
      DivUnique(m + n - 1, n, s + 1, t - 1);
    }
  }

  // On n sessions that stay open and under their limit, whatever their loads do
  // meanwhile, any run of choices takes each one floor or ceiling of the n-th part.
  lemma RoundRobinBalance(c: nat, n: nat, picks: seq<nat>, opens: seq<seq<bool>>, loads: seq<seq<int>>,
                          maxStreams: int, j: nat)
    requires n > 0 && j < n && c + |picks| < TWO_63
    requires |opens| == |loads| == |picks|
    requires forall i | 0 <= i < |picks| ::
      && |opens[i]| == n && AllFit(opens[i], loads[i], maxStreams)
      && PickSpec(opens[i], loads[i], maxStreams, StartIndex(c + i, n), Picked(picks[i]))
    ensures |picks| / n <= Occurrences(picks, j) <= (|picks| + n - 1) / n
  {
    forall i | 0 <= i < |picks|
      ensures picks[i] == (c + i + 1) % n
    {
      PanicExact(c + i, n);
      UnsaturatedPick(opens[i], loads[i], maxStreams, StartIndex(c + i, n), Picked(picks[i]));
    }
    OccurrencesQuotient(c, n, picks, j);
    QuotientSpread(c - j + n, |picks|, n);
  }
}
