// The connection below the packet stream: partial writes, partial reads,
// and the wrapper that cuts the first write of a connection in two.
module Transport {
  import opened Bytes

  // A random integer in 0..n-1. It is 0 when n is not positive, and also when
  // the random source fails, so 0 is always a possible answer.
  method SecureRandInt(n: int) returns (v: int)
    ensures n <= 0 ==> v == 0
    ensures n > 0 ==> 0 <= v < n
  {
    if n <= 0 {
      return 0;
    }
    v :| 0 <= v < n;
  }

  // One end of a byte-stream connection. A lost connection is an inbox that ends
  // early on one side, and a Write that stops early on the other.
  class NetConn {
    var inbox: bytes        // bytes the peer sent that have not been read yet
    var sent: seq<bytes>    // what each Write put on the wire, oldest first

    constructor (incoming: bytes)
      ensures inbox == incoming && sent == []
    {
      inbox, sent := incoming, [];
    }

    ghost function Output(): bytes
      reads this
    {
      Flatten(sent)
    }

    method Write(b: bytes) returns (n: nat, ok: bool)
      modifies this`sent
      ensures n <= |b| && (ok ==> n == |b|)
      ensures sent == old(sent) + [b[..n]]
      ensures Output() == old(Output()) + b[..n]
    {
      ok := *;
      n := |b|;
      if !ok {
        n :| 0 <= n <= |b|;
      }
      sent := sent + [b[..n]];
      FlattenSnoc(old(sent), b[..n]);
    }

    // Returns whatever segment the network has, never more than max bytes.
    method Read(max: nat) returns (chunk: bytes, ok: bool)
      requires max > 0
      modifies this`inbox
      ensures ok <==> old(inbox) != []
      ensures ok ==> 0 < |chunk| <= max
      ensures chunk + inbox == old(inbox)
    {
      if inbox == [] {
        return [], false;
      }
      var most := Min(max, |inbox|);
      var k: int :| 0 < k <= most;
      chunk, inbox, ok := inbox[..k], inbox[k..], true;
    }

    // Reads exactly n bytes, whatever the segments are.
    method ReadFull(n: nat) returns (buf: bytes, ok: bool)
      modifies this`inbox
      ensures ok <==> n <= |old(inbox)|
      ensures ok ==> buf == old(inbox)[..n] && inbox == old(inbox)[n..]
      ensures !ok ==> inbox == []
    {
      buf, ok := [], true;
      while |buf| < n
        invariant |buf| <= n
        invariant ok && buf + inbox == old(inbox)
      {
        var chunk;
        ghost var before := buf + inbox;
        chunk, ok := Read(n - |buf|);
        if !ok {
          return;
        }
        assert (buf + chunk) + inbox == before;
        buf := buf + chunk;
      }
    }
  }

  // What one Write puts on the wire: one segment, or two when this is the first
  // Write of the connection and it is longer than the fragment size.
  function Cut(firstWrite: bool, fragmentSize: nat, b: bytes): seq<bytes> {
    if firstWrite || |b| <= fragmentSize then [b] else [b[..fragmentSize], b[fragmentSize..]]
  }

  // The first write alone is cut, and after the fragment size.
  lemma CutExact(firstWrite: bool, fragmentSize: nat, b: bytes)
    ensures firstWrite || |b| <= fragmentSize ==> Cut(firstWrite, fragmentSize, b) == [b]
    ensures !firstWrite && |b| > fragmentSize ==>
      var parts := Cut(firstWrite, fragmentSize, b);
      |parts| == 2 && |parts[0]| == fragmentSize && parts[0] + parts[1] == b
  {
  }

  // The segments of a whole connection.
  function Segments(firstWrite: bool, fragmentSize: nat, writes: seq<bytes>): seq<bytes>
    decreases |writes|
  {
    if writes == [] then []
    else Cut(firstWrite, fragmentSize, writes[0]) + Segments(true, fragmentSize, writes[1..])
  }

  // Over a whole connection the bytes are kept, and exactly one extra segment
  // appears, when the very first Write is long; no later Write is ever cut.
  lemma {:induction false} CutAtMostOnce(firstWrite: bool, fragmentSize: nat, writes: seq<bytes>)
    ensures Flatten(Segments(firstWrite, fragmentSize, writes)) == Flatten(writes)
    ensures firstWrite ==> Segments(firstWrite, fragmentSize, writes) == writes
    ensures |Segments(firstWrite, fragmentSize, writes)| == |writes|
              + (if !firstWrite && writes != [] && |writes[0]| > fragmentSize then 1 else 0)
    decreases |writes|
  {
    if writes != [] {
      var head := Cut(firstWrite, fragmentSize, writes[0]);
      CutAtMostOnce(true, fragmentSize, writes[1..]);
      FlattenAppend(head, writes[1..]);
      if |head| == 2 {
        assert head[1..] == [writes[0][fragmentSize..]];
        assert Flatten(head[1..]) == writes[0][fragmentSize..] + [];
        assert writes[0][..fragmentSize] + writes[0][fragmentSize..] == writes[0];
      } else {
        assert Flatten(head) == writes[0] + [];
      }
    }
  }

  // A bare connection is one whose first write has already happened.
  class FragmentedConn {
    const conn: NetConn
    const fragmentSize: nat
    var firstWrite: bool

    constructor (conn: NetConn, fragmentSize: nat, firstWrite: bool)
      ensures this.conn == conn && this.fragmentSize == fragmentSize && this.firstWrite == firstWrite
    {
      this.conn, this.fragmentSize, this.firstWrite := conn, fragmentSize, firstWrite;
    }

    method Write(b: bytes) returns (n: nat, ok: bool)
      modifies this`firstWrite, conn`sent
      ensures firstWrite
      ensures n <= |b| && (ok ==> n == |b|)
      ensures conn.Output() == old(conn.Output()) + b[..n]
      ensures ok ==> conn.sent == old(conn.sent) + Cut(old(firstWrite), fragmentSize, b)
      ensures |conn.sent| <= |old(conn.sent)| + |Cut(old(firstWrite), fragmentSize, b)|
    {
      if firstWrite || |b| <= fragmentSize {
        firstWrite := true;
        n, ok := conn.Write(b);
        assert b[..|b|] == b;
        return;
      }
      firstWrite := true;
      var frag1, frag2 := b[..fragmentSize], b[fragmentSize..];
      var n1, ok1 := conn.Write(frag1);
      if !ok1 {
        assert b[..n1] == frag1[..n1];
        return n1, false;
      }
      var n2;
      n2, ok := conn.Write(frag2);
      n := n1 + n2;
      assert frag1[..n1] == frag1 && frag2[..|frag2|] == frag2;
      assert b[..n] == frag1 + frag2[..n2];
    }
  }

  // The fragment size a dial chooses: always at least 1, so both parts of a cut
  // are non-empty, and inside the configured range with its defaults.
  method ChooseFragmentSize(cfgMin: int, cfgMax: int) returns (size: nat)
    ensures 1 <= size
    ensures cfgMin > 0 ==> cfgMin <= size
    ensures cfgMin <= 0 ==> 64 <= size
    ensures size <= Max(if cfgMin <= 0 then 64 else cfgMin, if cfgMax <= 0 then 191 else cfgMax)
  {
    var minSize, maxSize := cfgMin, cfgMax;
    if minSize <= 0 {
      minSize := 64;
    }
    if maxSize <= 0 {
      maxSize := 191;
    }
    size := minSize;
    var diff := maxSize - minSize;
    if diff > 0 {
      var r := SecureRandInt(diff + 1);
      size := size + r;
    }
  }
}
