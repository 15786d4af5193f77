// Loading a configuration: normalise, fill in defaults, apply the profile, convert the
// port maps, copy the aliases, migrate an old version. The fields that no step reads or
// writes are not listed.
module ConfigLoad {
  import opened Text
  import opened PortMaps

  const CURRENT_VERSION: int := 2
  const DEFAULT_LISTEN: string := "0.0.0.0:2020"
  const USER_AGENT: string := "Mozilla/5.0 (Windows NT 10.0; Win64; x64) AppleWebKit/537.36"
  const MB4: int := 4194304
  const OLD_HALF_MB: int := 524288
  const OLD_MB: int := 1048576

  datatype Smux = Smux(keepAlive: int, maxRecv: int, maxStream: int, frameSize: int, version: int)

  datatype Advanced = Advanced(
    tcpNoDelay: bool, tcpKeepAlive: int, tcpReadBuffer: int, tcpWriteBuffer: int,
    cleanupInterval: int, sessionTimeout: int, connectionTimeout: int, streamTimeout: int,
    maxConnections: int, maxUdpFlows: int, udpFlowTimeout: int, udpBufferSize: int,
    maxStreamsPerSession: int)

  datatype HttpMimic = HttpMimic(
    fakeDomain: string, fakePath: string, userAgent: string,
    chunkedEncoding: bool, sessionCookie: bool, customHeaders: seq<string>)

  datatype Obfuscation = Obfuscation(
    enabled: bool, minPadding: int, maxPadding: int, minDelay: int, maxDelay: int, burstChance: real)

  datatype Fragment = Fragment(enabled: bool, minSize: int, maxSize: int, minDelay: int, maxDelay: int)

  datatype Stealth = Stealth(
    randomPadding: bool, minPadding: int, maxPadding: int, keepaliveJitter: int, connJitter: int,
    burstSplit: bool, maxBurstSize: int, fakeTraffic: bool, fakeTrafficInterval: int)

  datatype Mimic = Mimic(
    fakeDomain: string, fakePath: string, userAgent: string,
    chunked: bool, sessionCookie: bool, customHeaders: seq<string>)

  datatype Obfs = Obfs(
    enabled: bool, minPadding: int, maxPadding: int, minDelay: int, maxDelay: int, burstChance: int)

  datatype Path = Path(connectionPool: int, aggressive: bool, retryInterval: int, dialTimeout: int)

  // Mode, transport, profile, listen address and server URL, with the listen ports.
  datatype Top = Top(
    mode: string, transport: string, profile: string, listen: string, serverUrl: string,
    listenPorts: seq<string>)

  datatype Counts = Counts(heartbeat: int, sessionTimeout: int, numConnections: int, decoyInterval: int)

  datatype Config = Config(
    version: int, top: Top, counts: Counts, smux: Smux, advanced: Advanced, httpMimic: HttpMimic,
    obfuscation: Obfuscation, fragment: Fragment, stealth: Stealth, mimic: Mimic, obfs: Obfs,
    paths: seq<Path>, maps: seq<PortMap>, forward: Forward)

  // ---------- The specification, section by section ----------

  function Or(x: int, d: int): int {
    if x <= 0 then d else x
  }

  function OrText(s: string, d: string): string {
    if s == "" then d else s
  }

  function AtLeast(x: int, low: int): int {
    if x < low then low else x
  }

  function NormalizePath(p: string): string {
    var t := Trim(p);
    if t == "" then "" else if t[0] != '/' then "/" + t else t
  }

  predicate TlsTransport(t: string) {
    Lower(t) == "httpsmux" || Lower(t) == "wssmux"
  }

  // LoadConfig before the first pass, and the listen part of the base defaults.
  function NormalTop(t: Top): Top {
    var mode, listen := Lower(Trim(t.mode)), Trim(t.listen);
    Top(mode, Lower(Trim(t.transport)), Lower(Trim(t.profile)),
        if mode == "server" && listen == "" && t.listenPorts == [] then DEFAULT_LISTEN else listen,
        Trim(t.serverUrl), t.listenPorts)
  }

  function ListenTop(t: Top): Top {
    if t.mode != "server" then t
    else if t.listenPorts == [] then
      if t.listen != "" then t.(listenPorts := [t.listen])
      else t.(listenPorts := [DEFAULT_LISTEN], listen := DEFAULT_LISTEN)
    else t.(listen := OrText(t.listen, t.listenPorts[0]))
  }

  function TopDefaults(t: Top): Top {
    ListenTop(t.(profile := OrText(t.profile, "balanced")))
  }

  function CountsDefaults(c: Counts, a: Advanced): Counts {
    Counts(Or(c.heartbeat, 2),
           if a.sessionTimeout > 0 then a.sessionTimeout else Or(c.sessionTimeout, 30),
           Or(c.numConnections, 4), Or(c.decoyInterval, 5))
  }

  function SmuxDefaults(s: Smux): Smux {
    Smux(Or(s.keepAlive, 2), Or(s.maxRecv, MB4), Or(s.maxStream, MB4), Or(s.frameSize, 4096), Or(s.version, 2))
  }

  function AdvancedDefaults(a: Advanced): Advanced {
    Advanced(true, Or(a.tcpKeepAlive, 5), Or(a.tcpReadBuffer, MB4), Or(a.tcpWriteBuffer, MB4),
             Or(a.cleanupInterval, 3), a.sessionTimeout, Or(a.connectionTimeout, 30),
             Or(a.streamTimeout, 60), Or(a.maxConnections, 500), Or(a.maxUdpFlows, 300),
             Or(a.udpFlowTimeout, 120), Or(a.udpBufferSize, 524288), Or(a.maxStreamsPerSession, 512))
  }

  function HttpMimicDefaults(h: HttpMimic): HttpMimic {
    h.(fakeDomain := OrText(h.fakeDomain, "www.google.com"),
       fakePath := NormalizePath(OrText(h.fakePath, "/search")),
       userAgent := OrText(h.userAgent, USER_AGENT), sessionCookie := true)
  }

  function ObfuscationDefaults(o: Obfuscation): Obfuscation {
    o.(minPadding := Or(o.minPadding, 16), maxPadding := Or(o.maxPadding, 64))
  }

  function FragmentDefaults(f: Fragment, transport: string): Fragment {
    Fragment(f.enabled || TlsTransport(transport),
             Or(f.minSize, 64), Or(f.maxSize, 191), Or(f.minDelay, 1), Or(f.maxDelay, 3))
  }

  function StealthDefaults(s: Stealth): Stealth {
    s.(minPadding := Or(s.minPadding, 16), maxPadding := Or(s.maxPadding, 128),
       keepaliveJitter := Or(s.keepaliveJitter, 2), connJitter := Or(s.connJitter, 500),
       maxBurstSize := Or(s.maxBurstSize, 4096), fakeTrafficInterval := Or(s.fakeTrafficInterval, 30))
  }

  datatype Profile = Speed | Gaming | Streaming | LowCpu | Balanced

  function ProfileOf(name: string): Profile {
    var p := Lower(name);
    if p == "speed" || p == "aggressive" then Speed
    else if p == "gaming" || p == "latency" then Gaming
    else if p == "streaming" then Streaming
    else if p == "lowcpu" || p == "cpu-efficient" then LowCpu
    else Balanced
  }

  function ProfileSmux(p: Profile, s: Smux): Smux {
    match p
    case Gaming => s.(keepAlive := 1)
    case Streaming => s.(maxRecv := 2097152, maxStream := 2097152)
    case LowCpu => s.(keepAlive := 5, maxRecv := OLD_HALF_MB, maxStream := OLD_HALF_MB)
    case _ => s
  }

  function ProfileAdvanced(p: Profile, a: Advanced): Advanced {
    match p
    case Speed => a.(maxConnections := AtLeast(a.maxConnections, 1024))
    case Gaming => a.(tcpKeepAlive := 2)
    case _ => a
  }

  function ProfileObfuscation(p: Profile, o: Obfuscation): Obfuscation {
    if p == LowCpu then o else o.(minDelay := 0, maxDelay := 0)
  }

  function ProfileHttpMimic(p: Profile, h: HttpMimic): HttpMimic {
    if p == Speed || p == Gaming then h.(chunkedEncoding := false) else h
  }

  function ProfileStealth(p: Profile, s: Stealth): Stealth {
    match p
    case Speed => s.(burstSplit := false)
    case Gaming => s.(randomPadding := false, burstSplit := false)
    case LowCpu => s.(fakeTraffic := false)
    case _ => s
  }

  function ProfilePath(p: Profile, x: Path): Path {
    match p
    case Speed => Path(AtLeast(x.connectionPool, 4), true,
                       if x.retryInterval <= 0 || x.retryInterval > 2 then 2 else x.retryInterval,
                       Or(x.dialTimeout, 10))
    case Gaming => Path(AtLeast(x.connectionPool, 6), true,
                        if x.retryInterval <= 0 || x.retryInterval > 1 then 1 else x.retryInterval,
                        Or(x.dialTimeout, 5))
    case Streaming => Path(AtLeast(x.connectionPool, 4), x.aggressive,
                           Or(x.retryInterval, 2), Or(x.dialTimeout, 10))
    case LowCpu => Path(if x.connectionPool <= 0 || x.connectionPool > 2 then 2 else x.connectionPool,
                        x.aggressive, Or(x.retryInterval, 5), Or(x.dialTimeout, 15))
    case Balanced => Path(Or(x.connectionPool, 4), x.aggressive, Or(x.retryInterval, 3), Or(x.dialTimeout, 10))
  }

  function ProfilePaths(p: Profile, xs: seq<Path>): (r: seq<Path>)
    ensures |r| == |xs|
  {
    seq(|xs|, i requires 0 <= i < |xs| => ProfilePath(p, xs[i]))
  }

  function SyncMimic(m: Mimic, h: HttpMimic): Mimic {
    Mimic(OrText(m.fakeDomain, h.fakeDomain), OrText(m.fakePath, h.fakePath), OrText(m.userAgent, h.userAgent),
          h.chunkedEncoding, h.sessionCookie,
          if m.customHeaders == [] then h.customHeaders else m.customHeaders)
  }

  // int(x) of a floating-point number, which drops the fraction
  function Truncate(x: real): int {
    if x >= 0.0 then x.Floor else -((-x).Floor)
  }

  function SyncObfs(b: Obfs, o: Obfuscation): Obfs {
    Obfs(b.enabled || o.enabled, Or(b.minPadding, o.minPadding), Or(b.maxPadding, o.maxPadding),
         Or(b.minDelay, o.minDelay), Or(b.maxDelay, o.maxDelay),
         Or(b.burstChance, Truncate(o.burstChance * 1000.0)))
  }

  function ConvertedForward(f: Forward, maps: seq<PortMap>): Forward {
    if f.tcp == [] && f.udp == [] then Converted(maps) else f
  }

  function BaseDefaults(c: Config): Config {
    c.(top := TopDefaults(c.top), counts := CountsDefaults(c.counts, c.advanced),
       smux := SmuxDefaults(c.smux), advanced := AdvancedDefaults(c.advanced),
       httpMimic := HttpMimicDefaults(c.httpMimic), obfuscation := ObfuscationDefaults(c.obfuscation),
       fragment := FragmentDefaults(c.fragment, c.top.transport), stealth := StealthDefaults(c.stealth))
  }

  function WithProfile(c: Config): Config {
    var p := ProfileOf(c.top.profile);
    c.(smux := ProfileSmux(p, c.smux), advanced := ProfileAdvanced(p, c.advanced),
       obfuscation := ProfileObfuscation(p, c.obfuscation), httpMimic := ProfileHttpMimic(p, c.httpMimic),
       stealth := ProfileStealth(p, c.stealth), paths := ProfilePaths(p, c.paths))
  }

  function WithForward(c: Config): Config {
    c.(forward := ConvertedForward(c.forward, c.maps))
  }

  function WithAliases(c: Config): Config {
    c.(mimic := SyncMimic(c.mimic, c.httpMimic), obfs := SyncObfs(c.obfs, c.obfuscation))
  }

  function MigrateSmux(s: Smux, profile: string): Smux {
    Smux(if s.keepAlive == 1 && profile != "gaming" then 2 else s.keepAlive,
         if s.maxRecv == OLD_HALF_MB || s.maxRecv == OLD_MB then MB4 else s.maxRecv,
         if s.maxStream == OLD_HALF_MB || s.maxStream == OLD_MB then MB4 else s.maxStream,
         if s.frameSize == 2048 then 4096 else s.frameSize,
         s.version)
  }

  function NewBuffer(x: int): int {
    if x == 32768 || x == 65536 then MB4 else x
  }

  function NewBuffers(a: Advanced): Advanced {
    a.(tcpReadBuffer := NewBuffer(a.tcpReadBuffer), tcpWriteBuffer := NewBuffer(a.tcpWriteBuffer))
  }

  function NewTimeout(c: Counts): Counts {
    c.(sessionTimeout := if c.sessionTimeout == 15 then 30 else c.sessionTimeout)
  }

  function Migrated(c: Config): Config {
    if c.version >= CURRENT_VERSION then c
    else
      c.(version := CURRENT_VERSION,
         smux := MigrateSmux(c.smux, c.top.profile), advanced := NewBuffers(c.advanced),
         counts := NewTimeout(c.counts), stealth := c.stealth.(randomPadding := true))
  }

  function Pipeline(c: Config): Config {
    WithAliases(WithForward(WithProfile(BaseDefaults(c.(top := NormalTop(c.top))))))
  }

  function Load(c: Config): Config {
    Migrated(Pipeline(c))
  }

  // ---------- What each step achieves ----------

  // A fake path of white space only is normalised to nothing, and the next load puts the
  // default there.
  predicate BlankPath(c: Config) {
    c.httpMimic.fakePath != "" && Trim(c.httpMimic.fakePath) == ""
  }

  // A server without a listen address takes its first port as it is; the next load trims it.
  predicate Loose(t: Top) {
    && Lower(Trim(t.mode)) == "server" && Trim(t.listen) == ""
    && t.listenPorts != []
    && Trim(t.listenPorts[0]) != "" && Trim(t.listenPorts[0]) != t.listenPorts[0]
  }

  predicate LoosePort(c: Config) {
    Loose(c.top)
  }

  function PathOf(path: string): string {
    NormalizePath(OrText(path, "/search"))
  }

  lemma PathExact(path: string)
    ensures PathOf(PathOf(path)) == PathOf(path) <==> !(path != "" && Trim(path) == "")
  {
    var q := OrText(path, "/search");
    TrimTight(q);
    if Trim(q) != "" {
      assert Tight(PathOf(path)) && PathOf(path)[0] == '/';
      TightTrim(PathOf(path));
    }
    assert !IsSpace('/') && !IsSpace('h');
    assert Trim("/search") == "/search";
    assert PathOf("") == "/search";
  }

  predicate CompleteTop(t: Top) {
    t.profile != "" && (t.mode == "server" ==> t.listenPorts != [] && (t.listen != "" || t.listenPorts[0] == ""))
  }

  predicate CompleteCounts(c: Counts, a: Advanced) {
    && c.heartbeat > 0 && c.sessionTimeout > 0 && c.numConnections > 0 && c.decoyInterval > 0
    && (a.sessionTimeout > 0 ==> c.sessionTimeout == a.sessionTimeout)
  }

  predicate CompleteLink(s: Smux, a: Advanced) {
    && s.keepAlive > 0 && s.maxRecv > 0 && s.maxStream > 0 && s.frameSize > 0 && s.version > 0
    && a.tcpNoDelay && a.tcpKeepAlive > 0 && a.tcpReadBuffer > 0 && a.tcpWriteBuffer > 0
    && a.cleanupInterval > 0 && a.connectionTimeout > 0 && a.streamTimeout > 0 && a.maxConnections > 0
    && a.maxUdpFlows > 0 && a.udpFlowTimeout > 0 && a.udpBufferSize > 0 && a.maxStreamsPerSession > 0
  }

  predicate CompleteMimic(h: HttpMimic) {
    && h.fakeDomain != "" && h.userAgent != "" && h.sessionCookie
    && h.fakePath != "" && NormalizePath(h.fakePath) == h.fakePath
  }

  predicate CompleteLooks(o: Obfuscation, f: Fragment, s: Stealth, transport: string) {
    && o.minPadding > 0 && o.maxPadding > 0
    && f.minSize > 0 && f.maxSize > 0 && f.minDelay > 0 && f.maxDelay > 0
    && (TlsTransport(transport) ==> f.enabled)
    && s.minPadding > 0 && s.maxPadding > 0 && s.keepaliveJitter > 0 && s.connJitter > 0
    && s.maxBurstSize > 0 && s.fakeTrafficInterval > 0
  }

  // Nothing is missing: every number is positive, every text is there. The listen address
  // alone may be empty, when the first port is.
  predicate Complete(c: Config) {
    && CompleteTop(c.top) && CompleteCounts(c.counts, c.advanced) && CompleteLink(c.smux, c.advanced)
    && CompleteMimic(c.httpMimic) && CompleteLooks(c.obfuscation, c.fragment, c.stealth, c.top.transport)
  }

  lemma PathFilled(path: string)
    ensures PathOf(path) == "" <==> path != "" && Trim(path) == ""
    ensures PathOf(path) != "" ==> NormalizePath(PathOf(path)) == PathOf(path)
    ensures path != "" ==> PathOf(path) == NormalizePath(path)
  {
    PathExact(path);
    assert !IsSpace('/') && !IsSpace('h');
    assert Trim("/search") == "/search";
  }

  lemma TopFilled(t: Top, c: Counts, a: Advanced)
    ensures TopDefaults(t) == t <==> CompleteTop(t)
    ensures CompleteTop(TopDefaults(t)) && TopDefaults(t).transport == t.transport
    ensures CountsDefaults(c, a) == c <==> CompleteCounts(c, a)
    ensures CompleteCounts(CountsDefaults(c, a), AdvancedDefaults(a))
  {
    assert |"balanced"| > 0 && |DEFAULT_LISTEN| > 0;
  }

  lemma LinkFilled(s: Smux, a: Advanced)
    ensures SmuxDefaults(s) == s && AdvancedDefaults(a) == a <==> CompleteLink(s, a)
    ensures CompleteLink(SmuxDefaults(s), AdvancedDefaults(a))
  {
  }

  lemma MimicFilled(h: HttpMimic)
    ensures HttpMimicDefaults(h) == h <==> CompleteMimic(h)
    ensures CompleteMimic(HttpMimicDefaults(h)) <==> !(h.fakePath != "" && Trim(h.fakePath) == "")
  {
    PathFilled(h.fakePath);
    assert HttpMimicDefaults(h).fakePath == PathOf(h.fakePath);
    assert |"www.google.com"| > 0 && |USER_AGENT| > 0;
  }

  lemma LooksFilled(o: Obfuscation, f: Fragment, s: Stealth, transport: string)
    ensures ObfuscationDefaults(o) == o && FragmentDefaults(f, transport) == f && StealthDefaults(s) == s
       <==> CompleteLooks(o, f, s, transport)
    ensures CompleteLooks(ObfuscationDefaults(o), FragmentDefaults(f, transport), StealthDefaults(s), transport)
  {
  }

  // The defaults leave exactly the complete configurations alone, and complete every
  // configuration but one with a blank fake path.
  lemma DefaultsExact(c: Config)
    ensures BaseDefaults(c) == c <==> Complete(c)
    ensures Complete(BaseDefaults(c)) <==> !BlankPath(c)
  {
    TopFilled(c.top, c.counts, c.advanced);
    LinkFilled(c.smux, c.advanced);
    MimicFilled(c.httpMimic);
    LooksFilled(c.obfuscation, c.fragment, c.stealth, c.top.transport);
    SectionsSame(c, BaseDefaults(c));
  }

  // Two configurations that agree outside the sections with defaults.
  lemma SectionsSame(c: Config, d: Config)
    requires d == c.(top := d.top, counts := d.counts, smux := d.smux, advanced := d.advanced,
                     httpMimic := d.httpMimic, obfuscation := d.obfuscation, fragment := d.fragment,
                     stealth := d.stealth)
    ensures d == c <==>
      && d.top == c.top && d.counts == c.counts && d.smux == c.smux && d.advanced == c.advanced
      && d.httpMimic == c.httpMimic && d.obfuscation == c.obfuscation && d.fragment == c.fragment
      && d.stealth == c.stealth
  {
  }

  // The bounds a profile puts on a path, and on the other sections.
  predicate PathMeets(p: Profile, x: Path) {
    x.dialTimeout > 0 && x.retryInterval > 0 &&
    match p
    case Speed => x.connectionPool >= 4 && x.aggressive && x.retryInterval <= 2
    case Gaming => x.connectionPool >= 6 && x.aggressive && x.retryInterval <= 1
    case Streaming => x.connectionPool >= 4
    case LowCpu => 0 < x.connectionPool <= 2
    case Balanced => x.connectionPool > 0
  }

  predicate SectionsMeet(p: Profile, c: Config) {
    && (p != LowCpu ==> c.obfuscation.minDelay == 0 && c.obfuscation.maxDelay == 0)
    && (p == Speed || p == Gaming ==> !c.httpMimic.chunkedEncoding && !c.stealth.burstSplit)
    && match p
       case Speed => c.advanced.maxConnections >= 1024
       case Gaming => c.smux.keepAlive == 1 && c.advanced.tcpKeepAlive == 2 && !c.stealth.randomPadding
       case Streaming => c.smux.maxRecv == 2097152 && c.smux.maxStream == 2097152
       case LowCpu =>
         && c.smux.keepAlive == 5 && c.smux.maxRecv == OLD_HALF_MB && c.smux.maxStream == OLD_HALF_MB
         && !c.stealth.fakeTraffic
       case Balanced => true
  }

  predicate MeetsProfile(c: Config) {
    var p := ProfileOf(c.top.profile);
    SectionsMeet(p, c) && forall i | 0 <= i < |c.paths| :: PathMeets(p, c.paths[i])
  }

  lemma PathExactly(p: Profile, x: Path)
    ensures ProfilePath(p, x) == x <==> PathMeets(p, x)
    ensures PathMeets(p, ProfilePath(p, x))
  {
  }

  lemma PathsExactly(p: Profile, xs: seq<Path>)
    ensures ProfilePaths(p, xs) == xs <==> forall i | 0 <= i < |xs| :: PathMeets(p, xs[i])
    ensures forall i | 0 <= i < |xs| :: PathMeets(p, ProfilePaths(p, xs)[i])
  {
    forall i | 0 <= i < |xs|
      ensures ProfilePaths(p, xs)[i] == xs[i] <==> PathMeets(p, xs[i])
      ensures PathMeets(p, ProfilePaths(p, xs)[i])
    {
      PathExactly(p, xs[i]);
    }
  }

  // Applying a profile brings every configuration within its bounds, whatever the paths,
  // and leaves exactly those alone that were there already.
  lemma ProfileExact(c: Config)
    ensures WithProfile(c) == c <==> MeetsProfile(c)
    ensures MeetsProfile(WithProfile(c))
  {
    PathsExactly(ProfileOf(c.top.profile), c.paths);
  }

  // An alias that is unset has nothing to take from its counterpart.
  predicate InSync(c: Config) {
    var m, h, b, o := c.mimic, c.httpMimic, c.obfs, c.obfuscation;
    && m.chunked == h.chunkedEncoding && m.sessionCookie == h.sessionCookie
    && (m.fakeDomain == "" ==> h.fakeDomain == "") && (m.fakePath == "" ==> h.fakePath == "")
    && (m.userAgent == "" ==> h.userAgent == "") && (m.customHeaders == [] ==> h.customHeaders == [])
    && (o.enabled ==> b.enabled)
    && (b.minPadding <= 0 ==> b.minPadding == o.minPadding)
    && (b.maxPadding <= 0 ==> b.maxPadding == o.maxPadding)
    && (b.minDelay <= 0 ==> b.minDelay == o.minDelay)
    && (b.maxDelay <= 0 ==> b.maxDelay == o.maxDelay)
    && (b.burstChance <= 0 ==> b.burstChance == Truncate(o.burstChance * 1000.0))
  }

  lemma AliasesExact(c: Config)
    ensures WithAliases(c) == c <==> InSync(c)
    ensures InSync(WithAliases(c))
  {
  }

  // The values that older versions wrote.
  predicate HasOldValue(c: Config) {
    || c.smux.maxRecv == OLD_HALF_MB || c.smux.maxRecv == OLD_MB
    || c.smux.maxStream == OLD_HALF_MB || c.smux.maxStream == OLD_MB
    || c.smux.frameSize == 2048
    || (c.smux.keepAlive == 1 && c.top.profile != "gaming")
    || c.advanced.tcpReadBuffer == 32768 || c.advanced.tcpReadBuffer == 65536
    || c.advanced.tcpWriteBuffer == 32768 || c.advanced.tcpWriteBuffer == 65536
    || c.counts.sessionTimeout == 15 || !c.stealth.randomPadding
  }

  // Migration leaves exactly the current versions alone; of an older one it leaves no old
  // value, and changes nothing but the version when there is none.
  lemma MigratedExact(c: Config)
    ensures Migrated(c) == c <==> c.version >= CURRENT_VERSION
    ensures Migrated(c).version >= CURRENT_VERSION
    ensures c.version < CURRENT_VERSION ==>
      !HasOldValue(Migrated(c)) && (Migrated(c) == c.(version := CURRENT_VERSION) <==> !HasOldValue(c))
  {
  }

  // ---------- The code that does it, in place ----------

  // The loop over the paths, which every profile runs with its own bounds.
  method AdjustPaths(p: Profile, given: seq<Path>) returns (paths: seq<Path>)
    ensures paths == ProfilePaths(p, given)
  {
    paths := given;
    for i := 0 to |given|
      invariant |paths| == |given|
      invariant forall k | 0 <= k < i :: paths[k] == ProfilePath(p, given[k])
      invariant forall k | i <= k < |paths| :: paths[k] == given[k]
    {
      var x := paths[i];
      match p {
        case Speed =>
          if x.connectionPool < 4 { x := x.(connectionPool := 4); }
          x := x.(aggressive := true);
          if x.retryInterval <= 0 || x.retryInterval > 2 { x := x.(retryInterval := 2); }
          if x.dialTimeout <= 0 { x := x.(dialTimeout := 10); }
        case Gaming =>
          if x.connectionPool < 6 { x := x.(connectionPool := 6); }
          x := x.(aggressive := true);
          if x.retryInterval <= 0 || x.retryInterval > 1 { x := x.(retryInterval := 1); }
          if x.dialTimeout <= 0 { x := x.(dialTimeout := 5); }
        case Streaming =>
          if x.connectionPool < 4 { x := x.(connectionPool := 4); }
          if x.retryInterval <= 0 { x := x.(retryInterval := 2); }
          if x.dialTimeout <= 0 { x := x.(dialTimeout := 10); }
        case LowCpu =>
          if x.connectionPool <= 0 || x.connectionPool > 2 { x := x.(connectionPool := 2); }
          if x.retryInterval <= 0 { x := x.(retryInterval := 5); }
          if x.dialTimeout <= 0 { x := x.(dialTimeout := 15); }
        case Balanced =>
          if x.connectionPool <= 0 { x := x.(connectionPool := 4); }
          if x.retryInterval <= 0 { x := x.(retryInterval := 3); }
          if x.dialTimeout <= 0 { x := x.(dialTimeout := 10); }
      }
      paths := paths[i := x];
    }
  }

  // The loaded configuration, which every step changes through the same pointer.
  class Loader {
    var c: Config

    constructor (parsed: Config)
      ensures c == parsed
    {
      c := parsed;
    }

    method ApplyBaseDefaults()
      modifies this
      ensures c == BaseDefaults(old(c))
      ensures Complete(c) <==> !BlankPath(old(c))
      ensures old(Complete(c)) ==> c == old(c)
    {
      ghost var was := c;
      c := c.(top := c.top.(profile := OrText(c.top.profile, "balanced")));
      c := c.(counts := CountsDefaults(c.counts, c.advanced));
      c := c.(smux := SmuxDefaults(c.smux));
      c := c.(advanced := AdvancedDefaults(c.advanced));
      c := c.(httpMimic := HttpMimicDefaults(c.httpMimic));
      c := c.(obfuscation := ObfuscationDefaults(c.obfuscation));
      c := c.(fragment := FragmentDefaults(c.fragment, c.top.transport));
      c := c.(stealth := StealthDefaults(c.stealth));
      c := c.(top := ListenTop(c.top));
      DefaultsExact(was);
    }

    method ApplyProfile()
      modifies this
      ensures c == WithProfile(old(c))
      ensures MeetsProfile(c)
      ensures old(MeetsProfile(c)) ==> c == old(c)
    {
      ghost var was := c;
      var p := ProfileOf(c.top.profile);
      c := c.(smux := ProfileSmux(p, c.smux), advanced := ProfileAdvanced(p, c.advanced));
      c := c.(obfuscation := ProfileObfuscation(p, c.obfuscation));
      c := c.(httpMimic := ProfileHttpMimic(p, c.httpMimic), stealth := ProfileStealth(p, c.stealth));
      var paths := AdjustPaths(p, c.paths);
      c := c.(paths := paths);
      ProfileExact(was);
    }

    method ConvertMapsToForward()
      modifies this
      ensures c == WithForward(old(c))
    {
      var forward := ConvertMaps(c.forward, c.maps);
      c := c.(forward := forward);
    }

    method SyncAliases()
      modifies this
      ensures c == WithAliases(old(c))
      ensures InSync(c)
      ensures old(InSync(c)) ==> c == old(c)
    {
      AliasesExact(c);
      c := c.(mimic := SyncMimic(c.mimic, c.httpMimic));
      c := c.(obfs := SyncObfs(c.obfs, c.obfuscation));
    }

    method MigrateConfig()
      modifies this
      ensures c == Migrated(old(c))
      ensures c.version >= CURRENT_VERSION
      ensures old(c.version) < CURRENT_VERSION ==> !HasOldValue(c)
    {
      MigratedExact(c);
      if c.version >= CURRENT_VERSION {
        return;
      }
      c := c.(smux := MigrateSmux(c.smux, c.top.profile));
      c := c.(advanced := c.advanced.(tcpReadBuffer := NewBuffer(c.advanced.tcpReadBuffer)));
      c := c.(advanced := c.advanced.(tcpWriteBuffer := NewBuffer(c.advanced.tcpWriteBuffer)));
      if c.counts.sessionTimeout == 15 {
        c := c.(counts := c.counts.(sessionTimeout := 30));
      }
      if !c.stealth.randomPadding {
        c := c.(stealth := c.stealth.(randomPadding := true));
      }
      c := c.(version := CURRENT_VERSION);
    }

    // LoadConfig after the file has been parsed.
    method LoadConfig()
      modifies this
      ensures c == Load(old(c))
    {
      c := c.(top := NormalTop(c.top));
      ApplyBaseDefaults();
      ApplyProfile();
      ConvertMapsToForward();
      SyncAliases();
      MigrateConfig();
    }
  }

  // ---------- When loading again changes nothing ----------

  function TopPipe(t: Top): Top {
    TopDefaults(NormalTop(t))
  }

  lemma BalancedStable()
    ensures Lower(Trim("balanced")) == "balanced" && Lower("balanced") == "balanced"
  {
    assert !IsSpace('b') && !IsSpace('d');
    TightTrim("balanced");
  }

  lemma ProfileStable(profile: string)
    ensures var p := OrText(Lower(Trim(profile)), "balanced");
      OrText(Lower(Trim(p)), "balanced") == p && Lower(p) == p
  {
    LowerTrimStable(profile);
    BalancedStable();
  }

  lemma TopNames(t: Top)
    ensures var u := TopPipe(t);
      && TopPipe(u).mode == u.mode && TopPipe(u).transport == u.transport
      && TopPipe(u).profile == u.profile && TopPipe(u).serverUrl == u.serverUrl
      && Lower(u.profile) == u.profile
      && NormalTop(u).transport == u.transport
  {
    LowerTrimStable(t.mode);
    LowerTrimStable(t.transport);
    ProfileStable(t.profile);
    TrimStable(t.serverUrl);
  }

  // Listen address and ports, which only a server looks at.
  lemma ListenFields(t: Top)
    ensures var server, l := Lower(Trim(t.mode)) == "server", Trim(t.listen);
      && TopPipe(t).listen ==
           (if !server || l != "" then l else if t.listenPorts == [] then DEFAULT_LISTEN else t.listenPorts[0])
      && TopPipe(t).listenPorts ==
           (if !server || t.listenPorts != [] then t.listenPorts else [if l == "" then DEFAULT_LISTEN else l])
      && (Lower(Trim(TopPipe(t).mode)) == "server" <==> server)
  {
    LowerTrimStable(t.mode);
    assert |DEFAULT_LISTEN| > 0;
  }

  lemma ListenTwice(t: Top)
    ensures var u := TopPipe(t);
      && TopPipe(u).listenPorts == u.listenPorts
      && TopPipe(u).listen == (if Loose(t) then Trim(u.listen) else u.listen)
      && (Loose(t) ==> Trim(u.listen) != u.listen)
  {
    ListenFields(t);
    ListenFields(TopPipe(t));
    TrimStable(t.listen);
    assert !IsSpace('0');
    TightTrim(DEFAULT_LISTEN);
  }

  lemma TopTwice(t: Top)
    ensures var u := TopPipe(t);
      TopPipe(u) == u.(listen := if Loose(t) then Trim(u.listen) else u.listen)
    ensures Loose(t) ==> Trim(TopPipe(t).listen) != TopPipe(t).listen
  {
    TopNames(t);
    ListenTwice(t);
  }

  lemma TopExact(c: Config)
    ensures TopPipe(TopPipe(c.top)) == TopPipe(c.top) <==> !LoosePort(c)
  {
    TopTwice(c.top);
  }

  // What the pipeline computes for each section.
  function SmuxPipe(p: Profile, s: Smux): Smux {
    ProfileSmux(p, SmuxDefaults(s))
  }

  function StealthPipe(p: Profile, s: Stealth): Stealth {
    ProfileStealth(p, StealthDefaults(s))
  }

  function AdvancedPipe(p: Profile, a: Advanced): Advanced {
    ProfileAdvanced(p, AdvancedDefaults(a))
  }

  function HttpMimicPipe(p: Profile, h: HttpMimic): HttpMimic {
    ProfileHttpMimic(p, HttpMimicDefaults(h))
  }

  function ObfuscationPipe(p: Profile, o: Obfuscation): Obfuscation {
    ProfileObfuscation(p, ObfuscationDefaults(o))
  }

  function ByProfile(c: Config): Profile {
    ProfileOf(TopPipe(c.top).profile)
  }

  lemma PipelineSections(c: Config)
    ensures Pipeline(c) ==
      var p := ByProfile(c);
      Config(c.version, TopPipe(c.top), CountsDefaults(c.counts, c.advanced), SmuxPipe(p, c.smux),
             AdvancedPipe(p, c.advanced), HttpMimicPipe(p, c.httpMimic), ObfuscationPipe(p, c.obfuscation),
             FragmentDefaults(c.fragment, NormalTop(c.top).transport), StealthPipe(p, c.stealth),
             SyncMimic(c.mimic, HttpMimicPipe(p, c.httpMimic)),
             SyncObfs(c.obfs, ObfuscationPipe(p, c.obfuscation)),
             ProfilePaths(p, c.paths), c.maps, ConvertedForward(c.forward, c.maps))
  {
  }

  lemma NumbersTwice(p: Profile, c: Counts, s: Smux, a: Advanced, t: Stealth)
    ensures SmuxPipe(p, SmuxPipe(p, s)) == SmuxPipe(p, s)
    ensures AdvancedPipe(p, AdvancedPipe(p, a)) == AdvancedPipe(p, a)
    ensures StealthPipe(p, StealthPipe(p, t)) == StealthPipe(p, t)
    ensures CountsDefaults(CountsDefaults(c, a), AdvancedPipe(p, a)) == CountsDefaults(c, a)
  {
  }

  lemma LooksTwice(p: Profile, o: Obfuscation, b: Obfs, f: Fragment, transport: string, xs: seq<Path>)
    ensures ObfuscationPipe(p, ObfuscationPipe(p, o)) == ObfuscationPipe(p, o)
    ensures SyncObfs(SyncObfs(b, ObfuscationPipe(p, o)), ObfuscationPipe(p, o)) == SyncObfs(b, ObfuscationPipe(p, o))
    ensures FragmentDefaults(FragmentDefaults(f, transport), transport) == FragmentDefaults(f, transport)
    ensures ProfilePaths(p, ProfilePaths(p, xs)) == ProfilePaths(p, xs)
  {
  }

  lemma HttpTwice(p: Profile, h: HttpMimic)
    ensures var h1, blank := HttpMimicPipe(p, h), h.fakePath != "" && Trim(h.fakePath) == "";
      && HttpMimicPipe(p, h1) == h1.(fakePath := if blank then "/search" else h1.fakePath)
      && (blank <==> h1.fakePath == "")
  {
    PathTwice(h.fakePath);
    assert |"www.google.com"| > 0 && |USER_AGENT| > 0;
  }

  lemma PathTwice(path: string)
    ensures var blank := path != "" && Trim(path) == "";
      PathOf(PathOf(path)) == (if blank then "/search" else PathOf(path)) && (blank <==> PathOf(path) == "")
  {
    PathExact(path);
    PathFilled(path);
    assert !IsSpace('/') && !IsSpace('h');
    assert Trim("/search") == "/search";
  }

  lemma SyncTwice(m: Mimic, h: HttpMimic, path: string)
    requires path == h.fakePath || h.fakePath == ""
    ensures SyncMimic(SyncMimic(m, h), h.(fakePath := path))
         == SyncMimic(m, h).(fakePath :=
              if h.fakePath == "" && m.fakePath == "" then path else SyncMimic(m, h).fakePath)
  {
  }

  // The second pass sees a fake path, and fills it in where the first left none.
  lemma MimicTwice(p: Profile, h: HttpMimic, m: Mimic)
    ensures var h1, blank := HttpMimicPipe(p, h), h.fakePath != "" && Trim(h.fakePath) == "";
      var m1 := SyncMimic(m, h1);
      && HttpMimicPipe(p, h1) == h1.(fakePath := if blank then "/search" else h1.fakePath)
      && SyncMimic(m1, HttpMimicPipe(p, h1))
           == m1.(fakePath := if blank && m.fakePath == "" then "/search" else m1.fakePath)
      && (blank ==> h1.fakePath == "")
  {
    var h1 := HttpMimicPipe(p, h);
    HttpTwice(p, h);
    SyncTwice(m, h1, if h1.fakePath == "" then "/search" else h1.fakePath);
  }

  lemma {:induction false} ConvertedTwice(f: Forward, maps: seq<PortMap>)
    ensures ConvertedForward(ConvertedForward(f, maps), maps) == ConvertedForward(f, maps)
  {
  }

  // What a second pass changes of the first: two texts at most, and one address.
  function Repaired(c: Config, once: Config): Config {
    once.(
      top := once.top.(listen := if LoosePort(c) then Trim(once.top.listen) else once.top.listen),
      httpMimic := once.httpMimic.(fakePath := if BlankPath(c) then "/search" else once.httpMimic.fakePath),
      mimic := once.mimic.(fakePath :=
        if BlankPath(c) && c.mimic.fakePath == "" then "/search" else once.mimic.fakePath))
  }

  lemma RepairedExact(c: Config)
    ensures Repaired(c, Pipeline(c)) == Pipeline(c) <==> !BlankPath(c) && !LoosePort(c)
  {
    PipelineSections(c);
    TopTwice(c.top);
    MimicTwice(ByProfile(c), c.httpMimic, c.mimic);
    assert |"/search"| > 0;
  }

  // The sections that a loaded configuration d takes from c into the next load.
  predicate TakesLooks(c: Config, d: Config) {
    var p := ByProfile(c);
    && d.httpMimic == HttpMimicPipe(p, c.httpMimic) && d.mimic == SyncMimic(c.mimic, d.httpMimic)
    && d.obfuscation == ObfuscationPipe(p, c.obfuscation) && d.obfs == SyncObfs(c.obfs, d.obfuscation)
    && d.fragment == FragmentDefaults(c.fragment, NormalTop(c.top).transport)
    && d.paths == ProfilePaths(p, c.paths)
    && d.maps == c.maps && d.forward == ConvertedForward(c.forward, c.maps)
  }

  lemma LooksReloaded(c: Config, d: Config)
    requires d.top == TopPipe(c.top) && TakesLooks(c, d)
    ensures var p, r := ByProfile(c), Repaired(c, d);
      && TopPipe(d.top) == r.top && HttpMimicPipe(p, d.httpMimic) == r.httpMimic
      && SyncMimic(d.mimic, HttpMimicPipe(p, d.httpMimic)) == r.mimic
      && ObfuscationPipe(p, d.obfuscation) == d.obfuscation && SyncObfs(d.obfs, d.obfuscation) == d.obfs
      && FragmentDefaults(d.fragment, NormalTop(d.top).transport) == d.fragment
      && ProfilePaths(p, d.paths) == d.paths && ConvertedForward(d.forward, d.maps) == d.forward
  {
    var p := ByProfile(c);
    TopNames(c.top);
    TopTwice(c.top);
    LooksTwice(p, c.obfuscation, c.obfs, c.fragment, NormalTop(c.top).transport, c.paths);
    ConvertedTwice(c.forward, c.maps);
    MimicTwice(p, c.httpMimic, c.mimic);
  }

  lemma SameProfile(c: Config, d: Config)
    requires d.top == TopPipe(c.top)
    ensures ByProfile(d) == ByProfile(c)
  {
    TopNames(c.top);
  }

  lemma PipelineTwice(c: Config)
    ensures Pipeline(Pipeline(c)) == Repaired(c, Pipeline(c))
  {
    var d, p := Pipeline(c), ByProfile(c);
    PipelineSections(c);
    SameProfile(c, d);
    LooksReloaded(c, d);
    NumbersTwice(p, c.counts, c.smux, c.advanced, c.stealth);
    PipelineSections(d);
  }

  // Running the pipeline on its own output changes no field, exactly when the fake path
  // is not blank and the first port not loose; for any paths, maps and values.
  lemma PipelineExact(c: Config)
    ensures Pipeline(Pipeline(c)) == Pipeline(c) <==> !BlankPath(c) && !LoosePort(c)
  {
    PipelineTwice(c);
    RepairedExact(c);
  }

  // What a reload makes of a freshly migrated configuration, section by section.
  lemma MigratedSmux(p: Profile, profile: string, s: Smux)
    requires p == ProfileOf(profile) && Lower(profile) == profile
    ensures var once := MigrateSmux(SmuxPipe(p, s), profile);
      SmuxPipe(p, once) == once.(
        maxRecv := if p == LowCpu then OLD_HALF_MB else once.maxRecv,
        maxStream := if p == LowCpu then OLD_HALF_MB else once.maxStream,
        keepAlive := if profile == "latency" then 1 else once.keepAlive)
      && (p == LowCpu ==> once.maxRecv != OLD_HALF_MB)
      && (profile == "latency" ==> p == Gaming && once.keepAlive != 1)
  {
  }

  lemma MigratedRest(p: Profile, c: Counts, a: Advanced, t: Stealth)
    ensures var a1 := AdvancedPipe(p, a);
      var a2 := NewBuffers(a1);
      var c1 := CountsDefaults(c, a);
      var c2 := NewTimeout(c1);
      && AdvancedPipe(p, a2) == a2
      && CountsDefaults(c2, a2) == c2.(sessionTimeout := if a.sessionTimeout == 15 then 15 else c2.sessionTimeout)
      && (a.sessionTimeout == 15 ==> c2.sessionTimeout == 30)
    ensures var t1 := StealthPipe(p, t).(randomPadding := true);
      StealthPipe(p, t1) == t1.(randomPadding := p != Gaming)
  {
  }

  // A configuration of an older version: the settings that migration makes and the very
  // next load takes back are exactly these four, each under its own condition.
  function Reverted(c: Config, once: Config): Config {
    var p, profile := ByProfile(c), TopPipe(c.top).profile;
    once.(
      smux := once.smux.(
        maxRecv := if p == LowCpu then OLD_HALF_MB else once.smux.maxRecv,
        maxStream := if p == LowCpu then OLD_HALF_MB else once.smux.maxStream,
        keepAlive := if profile == "latency" then 1 else once.smux.keepAlive),
      counts := once.counts.(
        sessionTimeout := if c.advanced.sessionTimeout == 15 then 15 else once.counts.sessionTimeout),
      stealth := once.stealth.(randomPadding := p != Gaming))
  }

  predicate NothingReverted(c: Config) {
    ByProfile(c) != LowCpu && ByProfile(c) != Gaming && c.advanced.sessionTimeout != 15
  }

  // The second load of every configuration, described by the first: what migration did and
  // the profile undoes, and the repaired texts.
  lemma MigrationReverts(c: Config)
    ensures Load(Load(c)) ==
      Repaired(c, if c.version < CURRENT_VERSION then Reverted(c, Load(c)) else Load(c))
    ensures c.version < CURRENT_VERSION ==> (Reverted(c, Load(c)) == Load(c) <==> NothingReverted(c))
  {
    if c.version >= CURRENT_VERSION {
      PipelineTwice(c);
      LoadParts(c);
    } else {
      OlderTwice(c);
    }
  }

  // The sections that a migrated configuration d takes from c into the next load.
  predicate TakesLink(c: Config, d: Config) {
    var p := ByProfile(c);
    && d.smux == MigrateSmux(SmuxPipe(p, c.smux), d.top.profile)
    && d.advanced == NewBuffers(AdvancedPipe(p, c.advanced))
    && d.counts == NewTimeout(CountsDefaults(c.counts, c.advanced))
    && d.stealth == StealthPipe(p, c.stealth).(randomPadding := true)
  }

  lemma OlderTakes(c: Config)
    requires c.version < CURRENT_VERSION
    ensures Load(c).top == TopPipe(c.top) && Load(c).version == CURRENT_VERSION
    ensures TakesLink(c, Load(c)) && TakesLooks(c, Load(c))
  {
    PipelineSections(c);
  }

  lemma LinkReloaded(c: Config, d: Config)
    requires d.top == TopPipe(c.top) && TakesLink(c, d)
    ensures var p, r := ByProfile(c), Reverted(c, d);
      && SmuxPipe(p, d.smux) == r.smux && AdvancedPipe(p, d.advanced) == r.advanced
      && CountsDefaults(d.counts, d.advanced) == r.counts && StealthPipe(p, d.stealth) == r.stealth
    ensures Reverted(c, d) == d <==> NothingReverted(c)
  {
    var p := ByProfile(c);
    TopNames(c.top);
    MigratedSmux(p, d.top.profile, c.smux);
    MigratedRest(p, c.counts, c.advanced, c.stealth);
  }

  lemma OlderTwice(c: Config)
    requires c.version < CURRENT_VERSION
    ensures Load(Load(c)) == Repaired(c, Reverted(c, Load(c)))
    ensures Reverted(c, Load(c)) == Load(c) <==> NothingReverted(c)
  {
    var d := Load(c);
    OlderTakes(c);
    SameProfile(c, d);
    LinkReloaded(c, d);
    LooksReloaded(c, d);
    PipelineSections(d);
  }

  lemma LoadParts(c: Config)
    ensures Load(c).top == TopPipe(c.top)
    ensures Load(c).httpMimic.fakePath == PathOf(c.httpMimic.fakePath)
    ensures Load(c).version >= CURRENT_VERSION
  {
    PipelineSections(c);
  }

  // A blank path or a loose port always shows on the second load.
  lemma HazardShows(c: Config)
    requires BlankPath(c) || LoosePort(c)
    ensures Load(Load(c)) != Load(c)
  {
    LoadParts(c);
    LoadParts(Load(c));
    if BlankPath(c) {
      PathExact(c.httpMimic.fakePath);
    } else {
      TopExact(c);
    }
  }

  // When loading twice is loading once, for every configuration.
  lemma LoadExact(c: Config)
    ensures Load(Load(c)) == Load(c) <==>
      !BlankPath(c) && !LoosePort(c) && (c.version >= CURRENT_VERSION || NothingReverted(c))
  {
    MigrationReverts(c);
    if BlankPath(c) || LoosePort(c) {
      HazardShows(c);
    } else {
      RepairsNothing(c, if c.version < CURRENT_VERSION then Reverted(c, Load(c)) else Load(c));
    }
  }

  lemma RepairsNothing(c: Config, d: Config)
    requires !BlankPath(c) && !LoosePort(c)
    ensures Repaired(c, d) == d
  {
  }

  // Whatever the file says, one reload settles it: every later load changes nothing.
  lemma LoadSettles(c: Config)
    ensures Load(Load(Load(c))) == Load(Load(c))
  {
    LoadParts(c);
    SettledPath(c.httpMimic.fakePath);
    SettledPort(c.top);
    LoadExact(Load(c));
  }

  lemma SettledPort(t: Top)
    ensures var u := TopPipe(t);
      Lower(Trim(u.mode)) == "server" && Trim(u.listen) == "" && u.listenPorts != [] ==>
        Trim(u.listenPorts[0]) == "" || Trim(u.listenPorts[0]) == u.listenPorts[0]
  {
    LowerTrimStable(t.mode);
    TrimStable(t.listen);
  }

  lemma SettledPath(path: string)
    ensures PathOf(path) != "" ==> Trim(PathOf(path)) != ""
  {
    var q := OrText(path, "/search");
    TrimTight(q);
    assert !IsSpace('/');
    if PathOf(path) != "" {
      TightTrim(PathOf(path));
    }
  }

  lemma LoadedPaddings(c: Config)
    ensures Load(c).obfs.minPadding > 0 && Load(c).stealth.minPadding > 0 && Load(c).stealth.maxBurstSize > 0
  {
    PipelineSections(c);
    assert ObfuscationPipe(ByProfile(c), c.obfuscation).minPadding > 0;
    assert StealthPipe(ByProfile(c), c.stealth).minPadding > 0;
  }
}
