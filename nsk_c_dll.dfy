/**
 * The configuration logic of the C glue library (Nsk_C_DLL.cpp): which
 * channels are treated as references, the shank-region loop and the
 * per-channel loop of NSK_Configure, the test-mode switch, and the
 * channel-major layout in which NSK_Read and NSK_Read_File store samples.
 *
 * The probe itself is reached only through the configuration model; the
 * calls that write registers, read calibration files, generate voltages or
 * print are not part of this model.
 */
module NskCDll {
  import opened ChannelConfig
  import opened AllChannelConfig
  import opened CsvParser
  import GC = GeneralConfig
  import Flat = FlatIndex

  /** n_channels. */
  const NChannels: nat := 1440

  /** The channels set aside as references: eight per 120, starting at 57 + 120 k. */
  const ReferenceBlock: nat := 120
  const ReferenceFirst: nat := 57
  const ReferenceLast: nat := 64

  /** CheckIfChannelIsActive: false exactly on the twelve ranges 57 + 120 k .. 64 + 120 k. */
  predicate IsActive(channel: int)
  {
    !(|| (57 <= channel <= 64) || (177 <= channel <= 184) || (297 <= channel <= 304) || (417 <= channel <= 424)
      || (537 <= channel <= 544) || (657 <= channel <= 664) || (777 <= channel <= 784) || (897 <= channel <= 904)
      || (1017 <= channel <= 1024) || (1137 <= channel <= 1144) || (1257 <= channel <= 1264) || (1377 <= channel <= 1384))
  }

  /** On the probe's channels, a channel is inactive exactly when its place in its block of 120 is 57..64. */
  lemma ActiveByBlock(channel: nat)
    requires channel < NChannels
    ensures IsActive(channel) <==> !(ReferenceFirst <= channel % ReferenceBlock <= ReferenceLast)
  {
  }

  /** The inactive channels below block k. */
  function InactiveBelow(k: nat): set<nat>
  {
    set c: nat | c < k * ReferenceBlock && !IsActive(c)
  }

  /** The eight reference channels of block k. */
  function ReferenceBlockOf(k: nat): set<nat>
  {
    var a := ReferenceFirst + ReferenceBlock * k;
    {a, a + 1, a + 2, a + 3, a + 4, a + 5, a + 6, a + 7}
  }

  /** The inactive channels of block k are its eight reference channels. */
  lemma InactiveOfBlock(k: nat)
    requires k < NChannels / ReferenceBlock
    ensures InactiveBelow(k + 1) == InactiveBelow(k) + ReferenceBlockOf(k)
  {
    Flat.MulDistrib(k, ReferenceBlock);
    forall c: nat | c in InactiveBelow(k + 1) && c !in InactiveBelow(k)
      ensures c in ReferenceBlockOf(k)
    {
      BlockMember(c, k);
    }
    forall c | c in ReferenceBlockOf(k) ensures c in InactiveBelow(k + 1) {
      BlockMember(c, k);
    }
  }

  /** A channel of block k is inactive exactly when it is one of that block's reference channels. */
  lemma BlockMember(c: nat, k: nat)
    requires k < NChannels / ReferenceBlock
    requires k * ReferenceBlock <= c < k * ReferenceBlock + ReferenceBlock
    ensures !IsActive(c) <==> c in ReferenceBlockOf(k)
  {
    var i := c - k * ReferenceBlock;
    assert Flat.Index(c / ReferenceBlock, c % ReferenceBlock, ReferenceBlock) == c == Flat.Index(k, i, ReferenceBlock);
    Flat.IndexInjective(c / ReferenceBlock, c % ReferenceBlock, k, i, ReferenceBlock);
    ActiveByBlock(c);
  }

  /** A reference block holds eight distinct channels. */
  lemma BlockSize(k: nat)
    ensures |ReferenceBlockOf(k)| == 8
  {
  }

  /** A reference block lies above every channel below its own block. */
  lemma BlockAbove(k: nat)
    ensures InactiveBelow(k) !! ReferenceBlockOf(k)
  {
    forall c | c in InactiveBelow(k) ensures c !in ReferenceBlockOf(k) {
      assert c < k * ReferenceBlock;
    }
  }

  /** Passing one block adds its eight reference channels to the count. */
  lemma CountStep(k: nat)
    requires k < NChannels / ReferenceBlock
    ensures |InactiveBelow(k + 1)| == |InactiveBelow(k)| + 8
  {
    InactiveOfBlock(k);
    BlockSize(k);
    BlockAbove(k);
  }

  /** Below block k there are 8 k inactive channels. */
  lemma {:induction false} InactiveCount(k: nat)
    requires k <= NChannels / ReferenceBlock
    ensures |InactiveBelow(k)| == 8 * k
  {
    if k == 0 {
      assert InactiveBelow(0) == {};
    } else {
      InactiveCount(k - 1);
      CountStep(k - 1);
    }
  }

  /** Of the 1440 channels, 96 are reported inactive. */
  lemma NinetySixInactive()
    ensures |set c: nat | c < NChannels && !IsActive(c)| == 96
  {
    InactiveCount(12);
    assert InactiveBelow(12) == set c: nat | c < NChannels && !IsActive(c);
  }

  // ---------------------------------------------------------------------
  // NSK_Configure

  /** The biasPixEn bits the region loop writes: bits 0..11 from activeRegions, bit 12 always set. */
  function RegionBits(activeRegions: seq<int>): (bits: seq<bool>)
    requires |activeRegions| >= 12
    ensures |bits| == GC.BiasPixEnBits
    ensures forall i :: 0 <= i < 12 ==> (bits[i] <==> activeRegions[i] != 0)
    ensures bits[12]
  {
    seq(GC.BiasPixEnBits, i requires 0 <= i < GC.BiasPixEnBits => if i < 12 then activeRegions[i] != 0 else true)
  }

  /**
   * The region loop of NSK_Configure: shank regions 0..11 take the
   * corresponding activeRegions entry (non-zero is true) and region 12 is
   * always enabled. Every call returns GENERALCONFIG_SUCCESS.
   */
  method ActivateRegions(gc: GC.GeneralConfiguration, activeRegions: seq<int>) returns (gec: GC.ErrorCode)
    requires gc.Valid() && |activeRegions| >= 12
    modifies gc.biasPixEn
    ensures gc.Valid() && gec == GC.Success
    ensures gc.State() == old(gc.State()).(biasPixEn := RegionBits(activeRegions))
  {
    for i := 0 to 12
      invariant gc.Valid()
      invariant gc.switches == old(gc.switches)
      invariant forall j :: 0 <= j < i ==> gc.biasPixEn[j] == (activeRegions[j] != 0)
      invariant forall j :: i <= j < GC.BiasPixEnBits ==> gc.biasPixEn[j] == old(gc.biasPixEn[j])
    {
      gec := gc.SetBiasPixEnBit(i, activeRegions[i] != 0);
    }
    gec := gc.SetBiasPixEnBit(12, true);
    assert gc.biasPixEn[..] == RegionBits(activeRegions);
  }

  /** The settings entry for channel c read from the table: gain, mode and bw replaced, stdb kept. */
  function RowSettings(s: ChannelSettings, codes: ChannelCodes): ChannelSettings
    requires 0 <= codes.gain <= MaxGain as int && 0 <= codes.bw <= MaxBw as int
  {
    s.(gain := codes.gain, mode := codes.mode, bw := codes.bw)
  }

  /**
   * One turn of the channel loop for an active channel c: refSel, gain,
   * mode and bw from row c, in that order, each stopping the loop on a
   * non-zero error code. With codes read by CSVParser no write fails.
   */
  method ApplyChannelRow(dev: AllChannelConfigurations, csv: CsvChannelTable, c: nat) returns (e: ErrorCode)
    requires dev.Valid() && csv.Valid() && c < Channels && c < |csv.reference|
    modifies dev.configs[ChannelChain(c)].dmux, dev.configs[ChannelChain(c)].channelSettings
    ensures dev.Valid() && e == Success
    ensures var k, l := ChannelChain(c), ChannelLocal(c);
      && dev.configs[k].dmux[..] == old(dev.configs[k].dmux[..])[l := old(dev.configs[k].dmux[l]).(refSel := RefSelOfCode(csv.reference[c]))]
      && dev.configs[k].channelSettings[..] == old(dev.configs[k].channelSettings[..])[l := RowSettings(old(dev.configs[k].channelSettings[l]), csv.Channel(c))]
    ensures forall j :: 0 <= j < Chains && j != ChannelChain(c) ==> dev.configs[j].State() == old(dev.configs[j].State())
  {
    e := dev.SetRefSel(c, RefSelOfCode(csv.reference[c]));
    if e != Success { return; }
    e := dev.SetGain(c, csv.gain[c]);
    if e != Success { return; }
    e := dev.SetMode(c, csv.mode[c]);
    if e != Success { return; }
    e := dev.SetBw(c, csv.bw[c]);
  }

  /** The reference codes of a channel table, each a RefSel enumerator value. */
  predicate RefCodes(refs: seq<int>)
  {
    |refs| >= Channels && forall n :: 0 <= n < |refs| ==> 0 <= refs[n] < 4
  }

  /** Six chains of 240 entries each. */
  predicate ChainShaped<T>(rows: seq<seq<T>>)
  {
    |rows| == Chains && forall k :: 0 <= k < Chains ==> |rows[k]| == ChannelsPerChain
  }

  /** The multiplexer entries of the six chains, as values. */
  ghost function DmuxRows(dev: AllChannelConfigurations): (rows: seq<seq<Dmux>>)
    requires dev.Valid()
    reads dev, dev.Repr
    ensures ChainShaped(rows)
  {
    seq(Chains, k requires 0 <= k < Chains reads dev, dev.Repr => dev.configs[k].dmux[..])
  }

  /** The settings entries of the six chains, as values. */
  ghost function SettingsRows(dev: AllChannelConfigurations): (rows: seq<seq<ChannelSettings>>)
    requires dev.Valid()
    reads dev, dev.Repr
    ensures ChainShaped(rows)
  {
    seq(Chains, k requires 0 <= k < Chains reads dev, dev.Repr => dev.configs[k].channelSettings[..])
  }

  /** The multiplexer entries once the channel loop has passed the channels below c. */
  ghost predicate DmuxPassed(before: seq<seq<Dmux>>, now: seq<seq<Dmux>>, c: nat, refs: seq<int>)
    requires ChainShaped(before) && ChainShaped(now) && RefCodes(refs)
  {
    forall k, i :: 0 <= k < Chains && 0 <= i < ChannelsPerChain ==>
      var n := GlobalOf(k, i, ChannelsPerChain);
      now[k][i] == if n < c && IsActive(n) then before[k][i].(refSel := RefSelOfCode(refs[n])) else before[k][i]
  }

  /** The settings entries once the channel loop has passed the channels below c. */
  ghost predicate SettingsPassed(before: seq<seq<ChannelSettings>>, now: seq<seq<ChannelSettings>>, c: nat, csv: CsvChannelTable)
    requires ChainShaped(before) && ChainShaped(now) && csv.Valid() && |csv.reference| >= Channels
    reads csv
  {
    forall k, i :: 0 <= k < Chains && 0 <= i < ChannelsPerChain ==>
      var n := GlobalOf(k, i, ChannelsPerChain);
      now[k][i] == if n < c && IsActive(n) then RowSettings(before[k][i], csv.Channel(n)) else before[k][i]
  }

  /** Passing channel c: only entry (chain, local) of c may change, and only if c is active. */
  lemma DmuxStep(before: seq<seq<Dmux>>, now: seq<seq<Dmux>>, c: nat, refs: seq<int>)
    requires ChainShaped(before) && ChainShaped(now) && RefCodes(refs) && c < Channels
    requires DmuxPassed(before, now, c, refs)
    ensures var k, l := ChannelChain(c), ChannelLocal(c);
      DmuxPassed(before, if IsActive(c) then now[k := now[k][l := now[k][l].(refSel := RefSelOfCode(refs[c]))]] else now, c + 1, refs)
  {
    RoutingLeftInverse(c, ChannelsPerChain);
  }

  lemma SettingsStep(before: seq<seq<ChannelSettings>>, now: seq<seq<ChannelSettings>>, c: nat, csv: CsvChannelTable)
    requires ChainShaped(before) && ChainShaped(now) && csv.Valid() && |csv.reference| >= Channels && c < Channels
    requires SettingsPassed(before, now, c, csv)
    ensures var k, l := ChannelChain(c), ChannelLocal(c);
      SettingsPassed(before, if IsActive(c) then now[k := now[k][l := RowSettings(now[k][l], csv.Channel(c))]] else now, c + 1, csv)
  {
    RoutingLeftInverse(c, ChannelsPerChain);
  }

  /**
   * The channel loop of NSK_Configure: every active channel takes refSel,
   * gain, mode and bw from its row of the channel table; the inactive
   * (reference) channels are not written. The table must have a row for
   * every channel, since the loop indexes the vectors without a check.
   * Because CSVParser only stores legal codes, the loop never breaks and
   * ends with c == n_channels and CHANNELCONFIG_SUCCESS.
   */
  method ConfigureChannels(dev: AllChannelConfigurations, csv: CsvChannelTable) returns (e: ErrorCode, c: nat)
    requires dev.Valid() && csv.Valid() && |csv.reference| >= Channels
    modifies set k | 0 <= k < |dev.configs| :: dev.configs[k].dmux
    modifies set k | 0 <= k < |dev.configs| :: dev.configs[k].channelSettings
    ensures dev.Valid() && e == Success && c == Channels
    ensures forall n :: 0 <= n < Channels ==>
      dev.ChannelDmux(n) == if IsActive(n) then old(dev.ChannelDmux(n)).(refSel := RefSelOfCode(csv.reference[n])) else old(dev.ChannelDmux(n))
    ensures forall n :: 0 <= n < Channels ==>
      dev.ChannelSettingsAt(n) == if IsActive(n) then RowSettings(old(dev.ChannelSettingsAt(n)), csv.Channel(n)) else old(dev.ChannelSettingsAt(n))
  {
    ghost var dmux0, settings0 := DmuxRows(dev), SettingsRows(dev);
    e, c := ChannelLoop(dev, csv);
    forall n | 0 <= n < Channels
      ensures dev.ChannelDmux(n) == DmuxRows(dev)[ChannelChain(n)][ChannelLocal(n)]
      ensures old(dev.ChannelDmux(n)) == dmux0[ChannelChain(n)][ChannelLocal(n)]
      ensures dev.ChannelSettingsAt(n) == SettingsRows(dev)[ChannelChain(n)][ChannelLocal(n)]
      ensures old(dev.ChannelSettingsAt(n)) == settings0[ChannelChain(n)][ChannelLocal(n)]
      ensures GlobalOf(ChannelChain(n), ChannelLocal(n), ChannelsPerChain) == n
    {
      RoutingLeftInverse(n, ChannelsPerChain);
    }
  }

  /** The loop of ConfigureChannels, stated over the entries of the six chains as values. */
  method ChannelLoop(dev: AllChannelConfigurations, csv: CsvChannelTable) returns (e: ErrorCode, c: nat)
    requires dev.Valid() && csv.Valid() && |csv.reference| >= Channels
    modifies set k | 0 <= k < |dev.configs| :: dev.configs[k].dmux
    modifies set k | 0 <= k < |dev.configs| :: dev.configs[k].channelSettings
    ensures dev.Valid() && e == Success && c == Channels
    ensures DmuxPassed(old(DmuxRows(dev)), DmuxRows(dev), Channels, csv.reference)
    ensures SettingsPassed(old(SettingsRows(dev)), SettingsRows(dev), Channels, csv)
  {
    ghost var dmux0, settings0 := DmuxRows(dev), SettingsRows(dev);
    e, c := Success, 0;
    while c < Channels
      invariant dev.Valid() && c <= Channels && e == Success
      invariant DmuxPassed(dmux0, DmuxRows(dev), c, csv.reference)
      invariant SettingsPassed(settings0, SettingsRows(dev), c, csv)
    {
      ghost var dmux, settings := DmuxRows(dev), SettingsRows(dev);
      ghost var k, l := ChannelChain(c), ChannelLocal(c);
      DmuxStep(dmux0, dmux, c, csv.reference);
      SettingsStep(settings0, settings, c, csv);
      if IsActive(c) {
        e := ApplyChannelRow(dev, csv, c);
        if e != Success { break; }
        assert DmuxRows(dev) == dmux[k := dmux[k][l := dmux[k][l].(refSel := RefSelOfCode(csv.reference[c]))]];
        assert SettingsRows(dev) == settings[k := settings[k][l := RowSettings(settings[k][l], csv.Channel(c))]];
      }
      c := c + 1;
    }
  }

  /**
   * The test-mode branch of NSK_Configure: with testMode, the freqGlobal
   * switch is turned on and the testing flag set; otherwise both stay.
   */
  method SetTestMode(gc: GC.GeneralConfiguration, testMode: bool, testing: bool) returns (gec: GC.ErrorCode, testing': bool)
    requires gc.Valid()
    modifies gc
    ensures gc.Valid() && gec == GC.Success
    ensures testing' == (testMode || testing)
    ensures gc.State() == if testMode then old(gc.State()).(switches := old(gc.switches).(freqGlobal := true)) else old(gc.State())
  {
    gec, testing' := GC.Success, testing;
    if testMode {
      gec := gc.SetTestInputEnBit(true);
      testing' := true;
    }
  }

  /**
   * The test-mode branch of NSK_Close: when testing, the freqGlobal switch is
   * turned off again and the testing flag cleared.
   */
  method StopTestMode(gc: GC.GeneralConfiguration, testing: bool) returns (gec: GC.ErrorCode, testing': bool)
    requires gc.Valid()
    modifies gc
    ensures gc.Valid() && gec == GC.Success && !testing'
    ensures gc.State() == if testing then old(gc.State()).(switches := old(gc.switches).(freqGlobal := false)) else old(gc.State())
  {
    gec, testing' := GC.Success, testing;
    if testing {
      gec := gc.SetTestInputEnBit(false);
      testing' := false;
    }
  }

  /**
   * Test mode switched on by NSK_Configure and off by NSK_Close, whatever the
   * testing flag was before: freqGlobal ends off, every other member is as it
   * was, and the testing flag ends cleared.
   */
  method TestModeCycle(gc: GC.GeneralConfiguration, testing: bool) returns (gec: GC.ErrorCode, testing': bool)
    requires gc.Valid()
    modifies gc
    ensures gc.Valid() && gec == GC.Success && !testing'
    ensures gc.State() == old(gc.State()).(switches := old(gc.switches).(freqGlobal := false))
  {
    var configured;
    gec, configured := SetTestMode(gc, true, testing);
    gec, testing' := StopTestMode(gc, configured);
  }

  // ---------------------------------------------------------------------
  // NSK_Read, NSK_Read_File

  /** Where sample i of channel c is stored: all samples of channel 0, then of channel 1, and so on. */
  function SampleIndex(c: nat, i: nat, nSamples: nat): nat
  {
    Flat.Index(c, i, nSamples)
  }

  /** The channel and the sample that place j of the buffer holds. */
  function ChannelAt(j: nat, nSamples: nat): nat
    requires nSamples > 0
  {
    j / nSamples
  }

  function SampleAt(j: nat, nSamples: nat): nat
    requires nSamples > 0
  {
    j % nSamples
  }

  /**
   * Every sample lies inside the n_channels * n_samples buffer, no two
   * samples share a place, and every place holds a sample.
   */
  lemma SampleIndexBijective(nSamples: nat)
    ensures forall c: nat, i: nat :: c < NChannels && i < nSamples ==> SampleIndex(c, i, nSamples) < NChannels * nSamples
    ensures forall c: nat, i: nat, c': nat, i': nat :: i < nSamples && i' < nSamples && SampleIndex(c, i, nSamples) == SampleIndex(c', i', nSamples) ==> c == c' && i == i'
    ensures forall j: nat :: nSamples > 0 && j < NChannels * nSamples ==>
      ChannelAt(j, nSamples) < NChannels && SampleAt(j, nSamples) < nSamples && SampleIndex(ChannelAt(j, nSamples), SampleAt(j, nSamples), nSamples) == j
  {
    forall c: nat, i: nat | c < NChannels && i < nSamples ensures SampleIndex(c, i, nSamples) < NChannels * nSamples {
      Flat.IndexInRange(c, i, NChannels, nSamples);
    }
    forall c: nat, i: nat, c': nat, i': nat | i < nSamples && i' < nSamples && SampleIndex(c, i, nSamples) == SampleIndex(c', i', nSamples)
      ensures c == c' && i == i'
    {
      Flat.IndexInjective(c, i, c', i', nSamples);
    }
    forall j: nat | nSamples > 0 && j < NChannels * nSamples
      ensures ChannelAt(j, nSamples) < NChannels && SampleAt(j, nSamples) < nSamples && SampleIndex(ChannelAt(j, nSamples), SampleAt(j, nSamples), nSamples) == j
    {
      Flat.IndexOnto(j, NChannels, nSamples);
    }
  }

  /**
   * data_matrix with n_samples, as NSK_Start and NSK_Open_File allocate
   * it: room for n_channels * n_samples samples. Sample values are copied,
   * never computed, so they are kept as reals.
   */
  class DataMatrix {
    const nSamples: nat
    const data: array<real>

    ghost predicate Valid()
      reads this
    {
      data.Length == NChannels * nSamples
    }

    constructor (bufferSize: nat)
      ensures Valid() && nSamples == bufferSize && fresh(data)
    {
      nSamples := bufferSize;
      data := new real[NChannels * bufferSize];
    }

    /**
     * The sample loop of NSK_Read and NSK_Read_File: packets[i] is the
     * i-th packet read, and channel c of it is stored at c * n_samples + i.
     */
    method Read(packets: seq<seq<real>>)
      requires Valid() && |packets| == nSamples
      requires forall i :: 0 <= i < |packets| ==> |packets[i]| >= NChannels
      modifies data
      ensures forall c, i :: 0 <= c < NChannels && 0 <= i < nSamples ==>
        SampleIndex(c, i, nSamples) < data.Length && data[SampleIndex(c, i, nSamples)] == packets[i][c]
    {
      for i := 0 to nSamples
        invariant forall c, i' :: 0 <= c < NChannels && 0 <= i' < i ==>
          SampleIndex(c, i', nSamples) < data.Length && data[SampleIndex(c, i', nSamples)] == packets[i'][c]
      {
        for c := 0 to NChannels
          invariant forall c', i' :: 0 <= c' < NChannels && 0 <= i' < i ==>
            SampleIndex(c', i', nSamples) < data.Length && data[SampleIndex(c', i', nSamples)] == packets[i'][c']
          invariant forall c' :: 0 <= c' < c ==>
            SampleIndex(c', i, nSamples) < data.Length && data[SampleIndex(c', i, nSamples)] == packets[i][c']
        {
          Flat.IndexInRange(c, i, NChannels, nSamples);
          var j := c * nSamples + i;
          data[j] := packets[i][c];
          forall c', i' | 0 <= c' < NChannels && 0 <= i' < nSamples && SampleIndex(c', i', nSamples) == j
            ensures c' == c && i' == i
          {
            Flat.IndexInjective(c', i', c, i, nSamples);
          }
        }
      }
    }
  }
}
