// Message framing over a byte stream, for any decoder that reads one message
// from the front of the wire.
module Framing {
  import opened Bytes

  // Need: more bytes must arrive first. Bad: an error return. Crash: a panic.
  datatype Next = Need | Bad | Crash | Got(data: bytes, rest: bytes)

  type Decoder = bytes -> Next

  // A decoder consumes something, and bytes that arrive later never change
  // what it has already decided.
  predicate Stable(next: Decoder, w: bytes, more: bytes) {
    match next(w)
    case Need => true
    case Got(d, rest) => |rest| < |w| && next(w + more) == Got(d, rest + more)
    case _ => next(w + more) == next(w)
  }

  ghost predicate Sound(next: Decoder) {
    forall w, more :: Stable(next, w, more)
  }

  // Everything a reader can take from the wire: the messages, how many bytes
  // they occupied, and why it stopped.
  datatype Stop = Clean | Short | Broken
  datatype Scan = Scan(messages: seq<bytes>, used: nat, stop: Stop)

  function ScanWire(next: Decoder, wire: bytes): Scan
    decreases |wire|
  {
    if wire == [] then Scan([], 0, Clean)
    else
      match next(wire)
      case Need => Scan([], 0, Short)
      case Bad => Scan([], 0, Broken)
      case Crash => Scan([], 0, Broken)
      case Got(d, rest) =>
        if |rest| >= |wire| then Scan([], 0, Broken)
        else
          var tail := ScanWire(next, rest);
          Scan([d] + tail.messages, |wire| - |rest| + tail.used, tail.stop)
  }

  lemma {:induction false} ScanAppend(next: Decoder, wire: bytes, more: bytes)
    requires Sound(next) && ScanWire(next, wire).stop == Clean
    ensures ScanWire(next, wire + more).messages
         == ScanWire(next, wire).messages + ScanWire(next, more).messages
    ensures ScanWire(next, wire + more).used == |wire| + ScanWire(next, more).used
    ensures ScanWire(next, wire + more).stop == ScanWire(next, more).stop
    decreases |wire|
  {
    if wire == [] {
      assert wire + more == more;
    } else {
      var d, rest := next(wire).data, next(wire).rest;
      assert Stable(next, wire, more);
      ScanAppend(next, rest, more);
      ConcatAssociative([d], ScanWire(next, rest).messages, ScanWire(next, more).messages);
    }
  }

  // The encoding of one message: decoded whole, and waited for when cut short.
  datatype Frame = Frame(wire: bytes, msg: bytes)

  ghost predicate Encodes(next: Decoder, f: Frame) {
    && f.wire != []
    && next(f.wire) == Got(f.msg, [])
    && forall k | 0 <= k < |f.wire| :: next(f.wire[..k]) == Need
  }

  ghost predicate AllEncode(next: Decoder, frames: seq<Frame>) {
    forall i | 0 <= i < |frames| :: Encodes(next, frames[i])
  }

  function WireOf(frames: seq<Frame>): bytes {
    if frames == [] then [] else frames[0].wire + WireOf(frames[1..])
  }

  function Messages(frames: seq<Frame>): seq<bytes> {
    if frames == [] then [] else [frames[0].msg] + Messages(frames[1..])
  }

  lemma {:induction false} WireAppend(a: seq<Frame>, b: seq<Frame>)
    ensures WireOf(a + b) == WireOf(a) + WireOf(b)
    ensures Messages(a + b) == Messages(a) + Messages(b)
  {
    if a == [] {
      assert a + b == b;
    } else {
      assert (a + b)[1..] == a[1..] + b;
      WireAppend(a[1..], b);
      ConcatAssociative(a[0].wire, WireOf(a[1..]), WireOf(b));
      ConcatAssociative([a[0].msg], Messages(a[1..]), Messages(b));
    }
  }

  // One frame in front of anything.
  lemma OneFrame(next: Decoder, f: Frame, rest: bytes)
    requires Sound(next) && Encodes(next, f)
    ensures next(f.wire + rest) == Got(f.msg, rest)
  {
    assert Stable(next, f.wire, rest);
    assert [] + rest == rest;
  }

  lemma {:induction false} ScanGot(next: Decoder, wire: bytes, d: bytes, rest: bytes)
    requires next(wire) == Got(d, rest) && |rest| < |wire|
    ensures var tail := ScanWire(next, rest);
      ScanWire(next, wire) == Scan([d] + tail.messages, |wire| - |rest| + tail.used, tail.stop)
  {
  }

  lemma {:induction false} ScanFrames(next: Decoder, frames: seq<Frame>, more: bytes)
    requires Sound(next) && AllEncode(next, frames)
    ensures ScanWire(next, WireOf(frames) + more).messages == Messages(frames) + ScanWire(next, more).messages
    ensures ScanWire(next, WireOf(frames) + more).used == |WireOf(frames)| + ScanWire(next, more).used
    ensures ScanWire(next, WireOf(frames) + more).stop == ScanWire(next, more).stop
  {
    if frames == [] {
      assert WireOf(frames) + more == more;
    } else {
      var f, rest := frames[0], WireOf(frames[1..]) + more;
      ScanFrames(next, frames[1..], more);
      ConcatAssociative(f.wire, WireOf(frames[1..]), more);
      assert Encodes(next, f);
      OneFrame(next, f, rest);
      ScanGot(next, f.wire + rest, f.msg, rest);
      ConcatAssociative([f.msg], Messages(frames[1..]), ScanWire(next, more).messages);
    }
  }

  // Frame synchronisation. Cut the wire of a frame list anywhere, j frames being
  // wholly inside the cut: the reader gets exactly those j messages, and stops on
  // the boundary after them, waiting.
  lemma FrameSync(next: Decoder, frames: seq<Frame>, k: nat, j: nat)
    requires Sound(next) && AllEncode(next, frames)
    requires j <= |frames| && |WireOf(frames[..j])| <= k <= |WireOf(frames)|
    requires j < |frames| ==> k < |WireOf(frames[..j + 1])|
    ensures ScanWire(next, WireOf(frames)[..k]) ==
      Scan(Messages(frames[..j]), |WireOf(frames[..j])|,
           if k == |WireOf(frames[..j])| then Clean else Short)
  {
    var head, tail := WireOf(frames[..j]), WireOf(frames[j..]);
    assert frames == frames[..j] + frames[j..];
    WireAppend(frames[..j], frames[j..]);
    var part := tail[..k - |head|];
    assert WireOf(frames)[..k] == head + part;
    ScanFrames(next, frames[..j], part);
    if j < |frames| {
      assert frames[..j + 1] == frames[..j] + [frames[j]];
      WireAppend(frames[..j], [frames[j]]);
      assert WireOf([frames[j]]) == frames[j].wire + [] == frames[j].wire;
      assert Encodes(next, frames[j]);
      PartWaits(next, frames[j], tail, |part|);
    }
    assert Messages(frames[..j]) + [] == Messages(frames[..j]);
  }

  // A frame cut short is waited for, whatever came after it.
  lemma PartWaits(next: Decoder, f: Frame, tail: bytes, k: nat)
    requires Encodes(next, f) && f.wire <= tail && k < |f.wire|
    ensures ScanWire(next, tail[..k]) == Scan([], 0, if k == 0 then Clean else Short)
  {
    assert tail[..k] == f.wire[..k];
  }

  // A wire that is one message, no more and no less.
  lemma ScanSingle(next: Decoder, wire: bytes, d: bytes)
    requires Sound(next) && wire != []
    ensures ScanWire(next, wire) == Scan([d], |wire|, Clean) <==> next(wire) == Got(d, [])
  {
    assert Stable(next, wire, []);
    if next(wire).Got? {
      var rest := next(wire).rest;
      var tail := ScanWire(next, rest).messages;
      assert ([next(wire).data] + tail)[0] == next(wire).data;
      assert ([next(wire).data] + tail)[1..] == tail;
      assert [d][1..] == [];
    }
  }

  // Hence a frame list decodes in one way only.
  lemma UniqueDecoding(next: Decoder, a: seq<Frame>, b: seq<Frame>)
    requires Sound(next) && AllEncode(next, a) && AllEncode(next, b)
    requires WireOf(a) == WireOf(b)
    ensures Messages(a) == Messages(b)
  {
    ScanFrames(next, a, []);
    ScanFrames(next, b, []);
    assert WireOf(a) + [] == WireOf(a) && WireOf(b) + [] == WireOf(b);
    assert Messages(a) + [] == Messages(a) && Messages(b) + [] == Messages(b);
  }
}
