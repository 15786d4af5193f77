// The connection mode that a loaded configuration gives to both ends of a tunnel.
module LoadedMode {
  import opened Bytes
  import opened ConfigLoad
  import opened EncryptedStream
  import opened Packet
  import opened Padding

  function ModeOf(c: Config, aead: Bytes.Option<Aead>): Mode {
    Mode(aead,
         Bytes.Some(ObfsConfig(c.obfs.enabled, PadRange(c.obfs.minPadding, c.obfs.maxPadding))),
         Bytes.Some(StealthConfig(c.stealth.randomPadding,
                                  PadRange(c.stealth.minPadding, c.stealth.maxPadding),
                                  c.stealth.burstSplit, c.stealth.maxBurstSize)))
  }

  // What the packet code needs of its settings holds after every load, first or later,
  // of every file: no padding length is negative, and bursts have a positive size.
  lemma LoadedModeOk(c: Config, aead: Bytes.Option<Aead>)
    ensures ConfigOk(ModeOf(Load(c), aead))
    ensures ModeOf(Load(c), aead).stealth.value.maxBurst > 0
    ensures var m, d := ModeOf(Load(c), aead), Load(c);
      && (m.ObfsOn() <==> d.obfs.enabled)
      && (m.StealthOn() <==> !d.obfs.enabled && d.stealth.randomPadding)
      && (m.ObfsOn() ==> m.obfs.value.pad.min == d.obfs.minPadding && m.obfs.value.pad.max == d.obfs.maxPadding)
      && m.stealth.value.pad.min == d.stealth.minPadding && m.stealth.value.pad.max == d.stealth.maxPadding
  {
    LoadedPaddings(c);
  }
}
