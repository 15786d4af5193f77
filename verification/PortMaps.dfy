// Port mappings: the configuration turns them into "bind->target" entries, and the
// server parses every entry back into a listener.
module PortMaps {
  import opened Bytes
  import opened Text

  datatype PortMap = PortMap(kind: string, bind: string, target: string)
  datatype Listener = Listener(bind: string, target: string)

  const ANY_HOST: string := "0.0.0.0:"

  function WithHost(bind: string): string {
    if ':' in bind then bind else ANY_HOST + bind
  }

  function SplitMap(s: string): Option<Listener> {
    var parts := Split(s);
    if |parts| != 2 then None
    else
      var bind, target := Trim(parts[0]), Trim(parts[1]);
      if bind == "" || target == "" then None
      else Some(Listener(WithHost(bind), target))
  }

  function Entry(m: PortMap): string {
    Trim(m.bind) + ARROW + Trim(m.target)
  }

  function Kind(m: PortMap): string {
    Lower(Trim(m.kind))
  }

  predicate OverTcp(m: PortMap) {
    Kind(m) != "udp"
  }

  predicate OverUdp(m: PortMap) {
    Kind(m) == "udp" || Kind(m) == "both"
  }

  // What a mapping must look like to be served.
  predicate Served(m: PortMap) {
    && Trim(m.bind) != "" && !HasArrow(Trim(m.bind))
    && Trim(m.target) != "" && !HasArrow(Trim(m.target))
  }

  function ListenerOf(m: PortMap): Listener {
    Listener(WithHost(Trim(m.bind)), Trim(m.target))
  }

  // An entry parses back to its mapping exactly when the mapping can be served, and to
  // nothing otherwise: an arrow inside either half makes a third part.
  lemma EntryExact(m: PortMap)
    ensures SplitMap(Entry(m)) == if Served(m) then Some(ListenerOf(m)) else None
    ensures Served(m) ==>
      var l := ListenerOf(m);
      && l.target == Trim(m.target)
      && l.bind == (if ':' in Trim(m.bind) then Trim(m.bind) else "0.0.0.0:" + Trim(m.bind))
  {
    var b, t := Trim(m.bind), Trim(m.target);
    SplitJoin(b, t);
    SplitWhole(b);
    SplitWhole(t);
    TrimStable(m.bind);
    TrimStable(m.target);
    if !HasArrow(b) && !HasArrow(t) {
      assert Split(Entry(m)) == [b, t];
    }
  }

  datatype Forward = Forward(tcp: seq<string>, udp: seq<string>)

  // What one turn of the conversion loop appends.
  function Append(f: Forward, m: PortMap): Forward {
    match Kind(m)
    case "udp" => f.(udp := f.udp + [Entry(m)])
    case "both" => Forward(f.tcp + [Entry(m)], f.udp + [Entry(m)])
    case _ => f.(tcp := f.tcp + [Entry(m)])
  }

  function Converted(maps: seq<PortMap>): Forward {
    if maps == [] then Forward([], [])
    else Append(Converted(maps[..|maps| - 1]), maps[|maps| - 1])
  }

  method ConvertMaps(f: Forward, maps: seq<PortMap>) returns (r: Forward)
    ensures r == if f.tcp == [] && f.udp == [] then Converted(maps) else f
  {
    r := f;
    if |f.tcp| == 0 && |f.udp| == 0 {
      for i := 0 to |maps|
        invariant r == Converted(maps[..i])
      {
        var m := maps[i];
        assert maps[..i + 1][..i] == maps[..i];
        var entry := Trim(m.bind) + ARROW + Trim(m.target);
        var kind := Lower(Trim(m.kind));
        if kind == "udp" {
          r := r.(udp := r.udp + [entry]);
        } else if kind == "both" {
          r := Forward(r.tcp + [entry], r.udp + [entry]);
        } else {
          r := r.(tcp := r.tcp + [entry]);
        }
      }
      assert maps[..|maps|] == maps;
    }
  }

  // The listener of one entry, if it parses.
  function Parsed(entry: string): seq<Listener> {
    match SplitMap(entry)
    case Some(l) => [l]
    case None => []
  }

  // The listeners the server starts for a list of entries, in order.
  function Listeners(entries: seq<string>): seq<Listener> {
    if entries == [] then []
    else
      Listeners(entries[..|entries| - 1]) + Parsed(entries[|entries| - 1])
  }

  method StartListeners(entries: seq<string>) returns (started: seq<Listener>)
    ensures started == Listeners(entries)
  {
    started := [];
    for i := 0 to |entries|
      invariant started == Listeners(entries[..i])
    {
      assert entries[..i + 1][..i] == entries[..i];
      var l := SplitMap(entries[i]);
      if l.Some? {
        started := started + [l.value];
      }
    }
    assert entries[..|entries|] == entries;
  }

  // The mappings wanted over one protocol, in the order they were written.
  function Wanted(maps: seq<PortMap>, tcp: bool): seq<Listener> {
    if maps == [] then []
    else
      var m := maps[|maps| - 1];
      Wanted(maps[..|maps| - 1], tcp)
      + (if Served(m) && (if tcp then OverTcp(m) else OverUdp(m)) then [ListenerOf(m)] else [])
  }

  lemma ListenersSnoc(entries: seq<string>, m: PortMap)
    ensures Listeners(entries + [Entry(m)])
         == Listeners(entries) + (if Served(m) then [ListenerOf(m)] else [])
  {
    assert (entries + [Entry(m)])[..|entries|] == entries;
    EntryExact(m);
  }

  lemma AppendSides(f: Forward, m: PortMap)
    ensures Append(f, m).tcp == if OverTcp(m) then f.tcp + [Entry(m)] else f.tcp
    ensures Append(f, m).udp == if OverUdp(m) then f.udp + [Entry(m)] else f.udp
  {
  }

  function Side(entries: seq<string>, m: PortMap, on: bool): seq<string> {
    if on then entries + [Entry(m)] else entries
  }

  lemma SideServes(entries: seq<string>, m: PortMap, on: bool)
    ensures Listeners(Side(entries, m, on))
         == Listeners(entries) + (if Served(m) && on then [ListenerOf(m)] else [])
  {
    if on {
      ListenersSnoc(entries, m);
    }
  }

  // The type names: everything but these two is TCP.
  lemma ProtocolsExact(m: PortMap)
    ensures var kind := Lower(Trim(m.kind));
      (OverTcp(m) <==> kind != "udp") && (OverUdp(m) <==> kind == "udp" || kind == "both")
  {
  }

  // For any list of mappings: every one that can be served is served, once, in order,
  // over exactly the protocols its type asks for, and nothing else is.
  lemma {:induction false} MapsAreServed(maps: seq<PortMap>)
    ensures Listeners(Converted(maps).tcp) == Wanted(maps, true)
    ensures Listeners(Converted(maps).udp) == Wanted(maps, false)
  {
    if maps != [] {
      MapsAreServed(maps[..|maps| - 1]);
      var f, m := Converted(maps[..|maps| - 1]), maps[|maps| - 1];
      AppendSides(f, m);
      SideServes(f.tcp, m, OverTcp(m));
      SideServes(f.udp, m, OverUdp(m));
    }
  }
}
