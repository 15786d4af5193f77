// The values behind the configuration steps, field by field: what an unset field becomes,
// what a profile, an alias or the migration writes, and that nothing else changes.
module ConfigTables {
  import opened ConfigLoad
  import PortMaps
  import opened Text

  // v is x where the file sets it, and the default elsewhere.
  predicate SetOr(v: int, x: int, default: int) {
    v == if x > 0 then x else default
  }

  predicate TextOr(v: string, x: string, default: string) {
    v == if |x| > 0 then x else default
  }

  lemma TopValues(t: Top)
    ensures var d := TopDefaults(NormalTop(t));
      && d.mode == Lower(Trim(t.mode)) && d.transport == Lower(Trim(t.transport)) && d.serverUrl == Trim(t.serverUrl)
      && TextOr(d.profile, Lower(Trim(t.profile)), "balanced")
    ensures var d, l := TopDefaults(NormalTop(t)), Trim(t.listen);
      if Lower(Trim(t.mode)) != "server" then d.listen == l && d.listenPorts == t.listenPorts
      else if t.listenPorts != [] then TextOr(d.listen, l, t.listenPorts[0]) && d.listenPorts == t.listenPorts
      else TextOr(d.listen, l, "0.0.0.0:2020") && d.listenPorts == [d.listen]
  {
    ListenFields(t);
    assert |"balanced"| > 0 && |DEFAULT_LISTEN| > 0;
  }

  lemma CountsValues(c: Counts, a: Advanced)
    ensures var d := CountsDefaults(c, a);
      && SetOr(d.heartbeat, c.heartbeat, 2) && SetOr(d.numConnections, c.numConnections, 4)
      && SetOr(d.decoyInterval, c.decoyInterval, 5)
      && SetOr(d.sessionTimeout, a.sessionTimeout, if c.sessionTimeout > 0 then c.sessionTimeout else 30)
  {
  }

  lemma LinkValues(s: Smux, a: Advanced)
    ensures var d := SmuxDefaults(s);
      && SetOr(d.keepAlive, s.keepAlive, 2) && SetOr(d.maxRecv, s.maxRecv, 4194304)
      && SetOr(d.maxStream, s.maxStream, 4194304) && SetOr(d.frameSize, s.frameSize, 4096)
      && SetOr(d.version, s.version, 2)
    ensures var d := AdvancedDefaults(a);
      && d.tcpNoDelay && d.sessionTimeout == a.sessionTimeout
      && SetOr(d.tcpKeepAlive, a.tcpKeepAlive, 5)
      && SetOr(d.tcpReadBuffer, a.tcpReadBuffer, 4194304) && SetOr(d.tcpWriteBuffer, a.tcpWriteBuffer, 4194304)
      && SetOr(d.cleanupInterval, a.cleanupInterval, 3) && SetOr(d.connectionTimeout, a.connectionTimeout, 30)
      && SetOr(d.streamTimeout, a.streamTimeout, 60) && SetOr(d.maxConnections, a.maxConnections, 500)
      && SetOr(d.maxUdpFlows, a.maxUdpFlows, 300) && SetOr(d.udpFlowTimeout, a.udpFlowTimeout, 120)
      && SetOr(d.udpBufferSize, a.udpBufferSize, 524288)
      && SetOr(d.maxStreamsPerSession, a.maxStreamsPerSession, 512)
  {
  }

  lemma MimicValues(h: HttpMimic)
    ensures var d, path := HttpMimicDefaults(h), if h.fakePath == "" then "/search" else Trim(h.fakePath);
      && TextOr(d.fakeDomain, h.fakeDomain, "www.google.com")
      && TextOr(d.userAgent, h.userAgent, "Mozilla/5.0 (Windows NT 10.0; Win64; x64) AppleWebKit/537.36")
      && d.fakePath == (if path == "" || path[0] == '/' then path else "/" + path)
      && d.sessionCookie && d.chunkedEncoding == h.chunkedEncoding && d.customHeaders == h.customHeaders
  {
    assert !IsSpace('/') && !IsSpace('h');
    TightTrim("/search");
  }

  lemma LooksValues(o: Obfuscation, f: Fragment, s: Stealth, transport: string)
    ensures var d := ObfuscationDefaults(o);
      && SetOr(d.minPadding, o.minPadding, 16) && SetOr(d.maxPadding, o.maxPadding, 64)
      && d == o.(minPadding := d.minPadding, maxPadding := d.maxPadding)
    ensures var d := FragmentDefaults(f, transport);
      && SetOr(d.minSize, f.minSize, 64) && SetOr(d.maxSize, f.maxSize, 191)
      && SetOr(d.minDelay, f.minDelay, 1) && SetOr(d.maxDelay, f.maxDelay, 3)
      && (d.enabled <==> f.enabled || Lower(transport) == "httpsmux" || Lower(transport) == "wssmux")
    ensures var d := StealthDefaults(s);
      && SetOr(d.minPadding, s.minPadding, 16) && SetOr(d.maxPadding, s.maxPadding, 128)
      && SetOr(d.keepaliveJitter, s.keepaliveJitter, 2) && SetOr(d.connJitter, s.connJitter, 500)
      && SetOr(d.maxBurstSize, s.maxBurstSize, 4096) && SetOr(d.fakeTrafficInterval, s.fakeTrafficInterval, 30)
      && d.randomPadding == s.randomPadding && d.burstSplit == s.burstSplit && d.fakeTraffic == s.fakeTraffic
  {
  }

  // What the profiles write, by the names a file may use.
  predicate Fast(name: string) {
    Lower(name) == "speed" || Lower(name) == "aggressive"
  }

  predicate Game(name: string) {
    Lower(name) == "gaming" || Lower(name) == "latency"
  }

  predicate Frugal(name: string) {
    Lower(name) == "lowcpu" || Lower(name) == "cpu-efficient"
  }

  lemma ProfileNames(name: string)
    ensures ProfileOf(name) == Speed <==> Fast(name)
    ensures ProfileOf(name) == Gaming <==> Game(name)
    ensures ProfileOf(name) == Streaming <==> Lower(name) == "streaming"
    ensures ProfileOf(name) == LowCpu <==> Frugal(name)
  {
    var p := Lower(name);
    if Fast(name) {
      assert (p[0] == 's' && p[1] == 'p') || p[0] == 'a';
    }
    if Game(name) {
      assert p[0] == 'g' || (p[0] == 'l' && p[1] == 'a');
    }
    if Frugal(name) {
      assert (p[0] == 'l' && p[1] == 'o') || p[0] == 'c';
    }
  }

  lemma SectionValues(c: Config)
    ensures var d, name := WithProfile(c), c.top.profile;
      && d.smux ==
           (if Game(name) then c.smux.(keepAlive := 1)
            else if Lower(name) == "streaming" then c.smux.(maxRecv := 2097152, maxStream := 2097152)
            else if Frugal(name) then c.smux.(keepAlive := 5, maxRecv := 524288, maxStream := 524288)
            else c.smux)
      && d.advanced ==
           (if Game(name) then c.advanced.(tcpKeepAlive := 2)
            else if Fast(name) && c.advanced.maxConnections < 1024 then c.advanced.(maxConnections := 1024)
            else c.advanced)
      && d.obfuscation == (if Frugal(name) then c.obfuscation else c.obfuscation.(minDelay := 0, maxDelay := 0))
      && d.httpMimic == (if Fast(name) || Game(name) then c.httpMimic.(chunkedEncoding := false) else c.httpMimic)
      && d.stealth ==
           (if Fast(name) then c.stealth.(burstSplit := false)
            else if Game(name) then c.stealth.(randomPadding := false, burstSplit := false)
            else if Frugal(name) then c.stealth.(fakeTraffic := false)
            else c.stealth)
      && d == c.(smux := d.smux, advanced := d.advanced, obfuscation := d.obfuscation, httpMimic := d.httpMimic,
                 stealth := d.stealth, paths := d.paths)
  {
    ProfileNames(c.top.profile);
  }

  lemma PathValues(c: Config, i: nat)
    requires i < |c.paths|
    ensures |WithProfile(c).paths| == |c.paths|
    ensures var x, d, name := c.paths[i], WithProfile(c).paths[i], c.top.profile;
      if Fast(name) then
        && d.connectionPool == (if x.connectionPool < 4 then 4 else x.connectionPool) && d.aggressive
        && d.retryInterval == (if 1 <= x.retryInterval <= 2 then x.retryInterval else 2)
        && SetOr(d.dialTimeout, x.dialTimeout, 10)
      else if Game(name) then
        && d.connectionPool == (if x.connectionPool < 6 then 6 else x.connectionPool) && d.aggressive
        && d.retryInterval == 1 && SetOr(d.dialTimeout, x.dialTimeout, 5)
      else if Lower(name) == "streaming" then
        && d.connectionPool == (if x.connectionPool < 4 then 4 else x.connectionPool) && d.aggressive == x.aggressive
        && SetOr(d.retryInterval, x.retryInterval, 2) && SetOr(d.dialTimeout, x.dialTimeout, 10)
      else if Frugal(name) then
        && d.connectionPool == (if 1 <= x.connectionPool <= 2 then x.connectionPool else 2)
        && d.aggressive == x.aggressive
        && SetOr(d.retryInterval, x.retryInterval, 5) && SetOr(d.dialTimeout, x.dialTimeout, 15)
      else
        && SetOr(d.connectionPool, x.connectionPool, 4) && d.aggressive == x.aggressive
        && SetOr(d.retryInterval, x.retryInterval, 3) && SetOr(d.dialTimeout, x.dialTimeout, 10)
  {
    ProfileNames(c.top.profile);
  }

  lemma TruncateExact(x: real)
    ensures x >= 0.0 ==> 0.0 <= x - Truncate(x) as real < 1.0
    ensures x <= 0.0 ==> -1.0 < x - Truncate(x) as real <= 0.0
  {
  }

  lemma AliasValues(c: Config)
    ensures var d, h, o := WithAliases(c), c.httpMimic, c.obfuscation;
      && TextOr(d.mimic.fakeDomain, c.mimic.fakeDomain, h.fakeDomain)
      && TextOr(d.mimic.fakePath, c.mimic.fakePath, h.fakePath)
      && TextOr(d.mimic.userAgent, c.mimic.userAgent, h.userAgent)
      && d.mimic.customHeaders == (if c.mimic.customHeaders != [] then c.mimic.customHeaders else h.customHeaders)
      && d.mimic.chunked == h.chunkedEncoding && d.mimic.sessionCookie == h.sessionCookie
      && (d.obfs.enabled <==> c.obfs.enabled || o.enabled)
      && SetOr(d.obfs.minPadding, c.obfs.minPadding, o.minPadding)
      && SetOr(d.obfs.maxPadding, c.obfs.maxPadding, o.maxPadding)
      && SetOr(d.obfs.minDelay, c.obfs.minDelay, o.minDelay) && SetOr(d.obfs.maxDelay, c.obfs.maxDelay, o.maxDelay)
      && SetOr(d.obfs.burstChance, c.obfs.burstChance, Truncate(o.burstChance * 1000.0))
      && d == c.(mimic := d.mimic, obfs := d.obfs)
  {
  }

  // Mappings are converted only when the file lists no entry of either protocol itself.
  lemma ForwardValues(c: Config)
    ensures WithForward(c) == c.(forward := WithForward(c).forward)
    ensures c.forward.tcp != [] || c.forward.udp != [] ==> WithForward(c).forward == c.forward
    ensures c.forward.tcp == [] && c.forward.udp == [] ==> WithForward(c).forward == PortMaps.Converted(c.maps)
  {
  }

  // v is x unless x is one of the two old values.
  predicate Upgraded(v: int, x: int, old1: int, old2: int, now: int) {
    v == if x == old1 || x == old2 then now else x
  }

  lemma MigratedValues(c: Config)
    requires c.version < 2
    ensures var d := Migrated(c);
      && d.version == 2 && d.stealth == c.stealth.(randomPadding := true)
      && Upgraded(d.smux.maxRecv, c.smux.maxRecv, 524288, 1048576, 4194304)
      && Upgraded(d.smux.maxStream, c.smux.maxStream, 524288, 1048576, 4194304)
      && Upgraded(d.smux.frameSize, c.smux.frameSize, 2048, 2048, 4096)
      && d.smux.keepAlive == (if c.smux.keepAlive == 1 && c.top.profile != "gaming" then 2 else c.smux.keepAlive)
      && d.smux.version == c.smux.version
      && Upgraded(d.advanced.tcpReadBuffer, c.advanced.tcpReadBuffer, 32768, 65536, 4194304)
      && Upgraded(d.advanced.tcpWriteBuffer, c.advanced.tcpWriteBuffer, 32768, 65536, 4194304)
      && Upgraded(d.counts.sessionTimeout, c.counts.sessionTimeout, 15, 15, 30)
      && d == c.(version := d.version, smux := d.smux, stealth := d.stealth,
                 advanced := c.advanced.(tcpReadBuffer := d.advanced.tcpReadBuffer,
                                         tcpWriteBuffer := d.advanced.tcpWriteBuffer),
                 counts := c.counts.(sessionTimeout := d.counts.sessionTimeout))
  {
  }
}
