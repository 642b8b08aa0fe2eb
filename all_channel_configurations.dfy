/**
 * The six channel-configuration shift registers of the probe
 * (AllChannelConfigurations.h): device-wide channel, ADC and ADC-pair
 * numbers are routed to one of the owned ChannelConfiguration objects.
 *
 * The routing functions are private in the header and their bodies are not
 * given; the model assumes the natural blocked layout (global number
 * n = chain * perChain + local) and proves it a bijection. The accessors
 * below unfold ChainOf and LocalOf directly for their index checks.
 */
module AllChannelConfig {
  import opened Wrappers
  import opened ChannelConfig

  /** NUMBER_OF_CHANNELCONFIGS, NUMBER_OF_CHANNELS, NUMBER_OF_ADCS, NUMBER_OF_ADCPAIRS. */
  const Chains: nat := 6
  const Channels: nat := 1440
  const Adcs: nat := 72
  const AdcPairs: nat := Adcs / 2

  /** The three layouts of the device: channels, ADCs and ADC pairs per chain. */
  predicate IsLayout(perChain: nat)
  {
    perChain == ChannelsPerChain || perChain == AdcsPerChain || perChain == AdcPairsPerChain
  }

  /** The chain that holds global number n when each chain holds perChain entries. */
  function ChainOf(n: nat, perChain: nat): nat
    requires perChain > 0
  {
    n / perChain
  }

  /** The number of global entry n within its chain. */
  function LocalOf(n: nat, perChain: nat): (l: nat)
    requires perChain > 0
    ensures l < perChain
  {
    n % perChain
  }

  /** The global number of entry l of the given chain. */
  function GlobalOf(chain: nat, l: nat, perChain: nat): nat
  {
    chain * perChain + l
  }

  /** Routing a global number and composing it back gives the same number. */
  lemma RoutingLeftInverse(n: nat, perChain: nat)
    requires IsLayout(perChain)
    ensures GlobalOf(ChainOf(n, perChain), LocalOf(n, perChain), perChain) == n
  {
  }

  /** Composing a (chain, local) pair and routing it gives the same pair. */
  lemma RoutingRightInverse(chain: nat, l: nat, perChain: nat)
    requires IsLayout(perChain) && l < perChain
    ensures ChainOf(GlobalOf(chain, l, perChain), perChain) == chain
    ensures LocalOf(GlobalOf(chain, l, perChain), perChain) == l
  {
  }

  /** The global numbers below six chains' worth are those routed to chains 0..5. */
  lemma RoutingInRange(n: nat, perChain: nat)
    requires IsLayout(perChain)
    ensures n < Chains * perChain <==> ChainOf(n, perChain) < Chains
  {
  }

  /** The routing is injective: two global numbers with the same route are equal. */
  lemma RoutingInjective(n: nat, m: nat, perChain: nat)
    requires IsLayout(perChain)
    requires ChainOf(n, perChain) == ChainOf(m, perChain) && LocalOf(n, perChain) == LocalOf(m, perChain)
    ensures n == m
  {
    RoutingLeftInverse(n, perChain);
    RoutingLeftInverse(m, perChain);
  }

  function ChannelChain(n: nat): nat { ChainOf(n, ChannelsPerChain) }
  function ChannelLocal(n: nat): nat { LocalOf(n, ChannelsPerChain) }
  function AdcChain(n: nat): nat { ChainOf(n, AdcsPerChain) }
  function AdcLocal(n: nat): nat { LocalOf(n, AdcsPerChain) }
  function PairChain(n: nat): nat { ChainOf(n, AdcPairsPerChain) }
  function PairLocal(n: nat): nat { LocalOf(n, AdcPairsPerChain) }

  /**
   * Chain k is the first of the six that cannot be loaded: every earlier
   * chain reads and decodes, and chain k has a shift-register error or does
   * not decode.
   */
  predicate FirstFailure(chains: seq<seq<bool>>, srFailure: seq<bool>, decode: seq<bool> -> Option<ChainState>, k: nat)
    requires k < |chains| == |srFailure|
  {
    && (srFailure[k] || decode(chains[k]).None?)
    && forall j :: 0 <= j < k ==> !srFailure[j] && decode(chains[j]).Some?
  }

  /** The first failing chain is unique, so the failure contract names one chain. */
  lemma FirstFailureUnique(chains: seq<seq<bool>>, srFailure: seq<bool>, decode: seq<bool> -> Option<ChainState>, k: nat, k': nat)
    requires k < |chains| == |srFailure| && k' < |chains|
    requires FirstFailure(chains, srFailure, decode, k) && FirstFailure(chains, srFailure, decode, k')
    ensures k == k'
  {
  }

  class AllChannelConfigurations {
    /** channelConfigs_: six owned configurations, never replaced. */
    const configs: seq<ChannelConfiguration>
    ghost const Repr: set<object>

    ghost predicate Valid()
      reads this, Repr
    {
      && |configs| == Chains
      && (forall k :: 0 <= k < Chains ==> configs[k].Repr() <= Repr)
      && (forall k, k' :: 0 <= k < k' < Chains ==> configs[k].Repr() !! configs[k'].Repr())
      && (forall k :: 0 <= k < Chains ==> configs[k].Valid())
    }

    /** Six configurations, each in the state that reset() installs. */
    constructor (hasExternalReferences: bool, referenceChannels: set<nat>, defaults: ChainState)
      requires ValidState(defaults)
      ensures Valid() && fresh(Repr)
      ensures forall k :: 0 <= k < Chains ==> configs[k].State() == defaults
    {
      var cs: seq<ChannelConfiguration> := [];
      ghost var rep: set<object> := {};
      while |cs| < Chains
        invariant |cs| <= Chains && fresh(rep)
        invariant forall k :: 0 <= k < |cs| ==> cs[k].Repr() <= rep && cs[k].Valid() && cs[k].State() == defaults
        invariant forall k, k' :: 0 <= k < k' < |cs| ==> cs[k].Repr() !! cs[k'].Repr()
      {
        var c := new ChannelConfiguration(hasExternalReferences, referenceChannels, defaults);
        cs, rep := cs + [c], rep + c.Repr();
      }
      configs, Repr := cs, rep;
    }

    /** The multiplexer entry of global channel n. */
    function ChannelDmux(n: nat): Dmux
      requires Valid() && n < Channels
      reads this, Repr
    {
      configs[ChannelChain(n)].dmux[ChannelLocal(n)]
    }

    /** The amplifier settings of global channel n. */
    function ChannelSettingsAt(n: nat): ChannelSettings
      requires Valid() && n < Channels
      reads this, Repr
    {
      configs[ChannelChain(n)].channelSettings[ChannelLocal(n)]
    }

    // ----- per-channel accessors, global channel number 0..1439 -----

    method GetRefSel(n: nat) returns (e: ErrorCode, refSel: RefSel)
      requires Valid()
      ensures e == (if n < Channels then Success else ChannelOutOfRange)
      ensures e == Success ==> refSel == configs[ChannelChain(n)].dmux[ChannelLocal(n)].refSel
    {
      if n >= Channels {
        return ChannelOutOfRange, RefSelNone;
      }
      e, refSel := configs[ChannelChain(n)].GetRefSel(ChannelLocal(n));
    }

    method SetRefSel(n: nat, refSel: RefSel) returns (e: ErrorCode)
      requires Valid()
      modifies if n < Channels then {configs[ChannelChain(n)].dmux} else {}
      ensures Valid()
      ensures e == (if n < Channels then Success else ChannelOutOfRange)
      ensures e == Success ==> var c, l := ChannelChain(n), ChannelLocal(n);
        configs[c].dmux[..] == old(configs[c].dmux[..])[l := old(configs[c].dmux[l]).(refSel := refSel)]
      ensures e != Success ==> forall k :: 0 <= k < Chains ==> configs[k].State() == old(configs[k].State())
      ensures forall k :: 0 <= k < Chains && k != ChannelChain(n) ==> configs[k].State() == old(configs[k].State())
    {
      if n >= Channels {
        return ChannelOutOfRange;
      }
      e := configs[ChannelChain(n)].SetRefSel(ChannelLocal(n), refSel);
    }

    method GetDmuxSel(n: nat) returns (e: ErrorCode, dmuxSel: DmuxSel)
      requires Valid()
      ensures e == (if n < Channels then Success else ChannelOutOfRange)
      ensures e == Success ==> dmuxSel == configs[ChannelChain(n)].dmux[ChannelLocal(n)].dmuxSel
    {
      if n >= Channels {
        return ChannelOutOfRange, DmuxNone;
      }
      e, dmuxSel := configs[ChannelChain(n)].GetDmuxSel(ChannelLocal(n));
    }

    method SetDmuxSel(n: nat, dmuxSel: DmuxSel) returns (e: ErrorCode)
      requires Valid()
      modifies if n < Channels then {configs[ChannelChain(n)].dmux} else {}
      ensures Valid()
      ensures e == (if n < Channels then Success else ChannelOutOfRange)
      ensures e == Success ==> var c, l := ChannelChain(n), ChannelLocal(n);
        configs[c].dmux[..] == old(configs[c].dmux[..])[l := old(configs[c].dmux[l]).(dmuxSel := dmuxSel)]
      ensures e != Success ==> forall k :: 0 <= k < Chains ==> configs[k].State() == old(configs[k].State())
      ensures forall k :: 0 <= k < Chains && k != ChannelChain(n) ==> configs[k].State() == old(configs[k].State())
    {
      if n >= Channels {
        return ChannelOutOfRange;
      }
      e := configs[ChannelChain(n)].SetDmuxSel(ChannelLocal(n), dmuxSel);
    }

    method GetBw(n: nat) returns (e: ErrorCode, bw: uint8)
      requires Valid()
      ensures e == (if n < Channels then Success else ChannelOutOfRange)
      ensures e == Success ==> bw == configs[ChannelChain(n)].channelSettings[ChannelLocal(n)].bw && bw <= MaxBw
    {
      if n >= Channels {
        return ChannelOutOfRange, 0;
      }
      e, bw := configs[ChannelChain(n)].GetBw(ChannelLocal(n));
    }

    method SetBw(n: nat, bw: uint8) returns (e: ErrorCode)
      requires Valid()
      modifies if n < Channels then {configs[ChannelChain(n)].channelSettings} else {}
      ensures Valid()
      ensures WriteOutcome(n < Channels, ChannelOutOfRange, bw <= MaxBw, e)
      ensures e == Success ==> var c, l := ChannelChain(n), ChannelLocal(n);
        configs[c].channelSettings[..] == old(configs[c].channelSettings[..])[l := old(configs[c].channelSettings[l]).(bw := bw)]
      ensures e != Success ==> forall k :: 0 <= k < Chains ==> configs[k].State() == old(configs[k].State())
      ensures forall k :: 0 <= k < Chains && k != ChannelChain(n) ==> configs[k].State() == old(configs[k].State())
    {
      if n >= Channels {
        return ChannelOutOfRange;
      }
      e := configs[ChannelChain(n)].SetBw(ChannelLocal(n), bw);
    }

    method GetMode(n: nat) returns (e: ErrorCode, mode: bool)
      requires Valid()
      ensures e == (if n < Channels then Success else ChannelOutOfRange)
      ensures e == Success ==> mode == configs[ChannelChain(n)].channelSettings[ChannelLocal(n)].mode
    {
      if n >= Channels {
        return ChannelOutOfRange, false;
      }
      e, mode := configs[ChannelChain(n)].GetMode(ChannelLocal(n));
    }

    method SetMode(n: nat, mode: bool) returns (e: ErrorCode)
      requires Valid()
      modifies if n < Channels then {configs[ChannelChain(n)].channelSettings} else {}
      ensures Valid()
      ensures e == (if n < Channels then Success else ChannelOutOfRange)
      ensures e == Success ==> var c, l := ChannelChain(n), ChannelLocal(n);
        configs[c].channelSettings[..] == old(configs[c].channelSettings[..])[l := old(configs[c].channelSettings[l]).(mode := mode)]
      ensures e != Success ==> forall k :: 0 <= k < Chains ==> configs[k].State() == old(configs[k].State())
      ensures forall k :: 0 <= k < Chains && k != ChannelChain(n) ==> configs[k].State() == old(configs[k].State())
    {
      if n >= Channels {
        return ChannelOutOfRange;
      }
      e := configs[ChannelChain(n)].SetMode(ChannelLocal(n), mode);
    }

    method GetGain(n: nat) returns (e: ErrorCode, gain: uint8)
      requires Valid()
      ensures e == (if n < Channels then Success else ChannelOutOfRange)
      ensures e == Success ==> gain == configs[ChannelChain(n)].channelSettings[ChannelLocal(n)].gain && gain <= MaxGain
    {
      if n >= Channels {
        return ChannelOutOfRange, 0;
      }
      e, gain := configs[ChannelChain(n)].GetGain(ChannelLocal(n));
    }

    method SetGain(n: nat, gain: uint8) returns (e: ErrorCode)
      requires Valid()
      modifies if n < Channels then {configs[ChannelChain(n)].channelSettings} else {}
      ensures Valid()
      ensures WriteOutcome(n < Channels, ChannelOutOfRange, gain <= MaxGain, e)
      ensures e == Success ==> var c, l := ChannelChain(n), ChannelLocal(n);
        configs[c].channelSettings[..] == old(configs[c].channelSettings[..])[l := old(configs[c].channelSettings[l]).(gain := gain)]
      ensures e != Success ==> forall k :: 0 <= k < Chains ==> configs[k].State() == old(configs[k].State())
      ensures forall k :: 0 <= k < Chains && k != ChannelChain(n) ==> configs[k].State() == old(configs[k].State())
    {
      if n >= Channels {
        return ChannelOutOfRange;
      }
      e := configs[ChannelChain(n)].SetGain(ChannelLocal(n), gain);
    }

    method GetStdb(n: nat) returns (e: ErrorCode, stdb: bool)
      requires Valid()
      ensures e == (if n < Channels then Success else ChannelOutOfRange)
      ensures e == Success ==> stdb == configs[ChannelChain(n)].channelSettings[ChannelLocal(n)].stdb
    {
      if n >= Channels {
        return ChannelOutOfRange, false;
      }
      e, stdb := configs[ChannelChain(n)].GetStdb(ChannelLocal(n));
    }

    method SetStdb(n: nat, stdb: bool) returns (e: ErrorCode)
      requires Valid()
      modifies if n < Channels then {configs[ChannelChain(n)].channelSettings} else {}
      ensures Valid()
      ensures e == (if n < Channels then Success else ChannelOutOfRange)
      ensures e == Success ==> var c, l := ChannelChain(n), ChannelLocal(n);
        configs[c].channelSettings[..] == old(configs[c].channelSettings[..])[l := old(configs[c].channelSettings[l]).(stdb := stdb)]
      ensures e != Success ==> forall k :: 0 <= k < Chains ==> configs[k].State() == old(configs[k].State())
      ensures forall k :: 0 <= k < Chains && k != ChannelChain(n) ==> configs[k].State() == old(configs[k].State())
    {
      if n >= Channels {
        return ChannelOutOfRange;
      }
      e := configs[ChannelChain(n)].SetStdb(ChannelLocal(n), stdb);
    }

    // ----- ADC comparator offsets, global ADC number 0..71 -----

    method GetCompP(n: nat) returns (e: ErrorCode, compP: uint8)
      requires Valid()
      ensures e == (if n < Adcs then Success else AdcOutOfRange)
      ensures e == Success ==> compP == configs[AdcChain(n)].adcComp[AdcLocal(n)].compP && compP <= MaxComp
    {
      if n >= Adcs {
        return AdcOutOfRange, 0;
      }
      e, compP := configs[AdcChain(n)].GetCompP(AdcLocal(n));
    }

    method SetCompP(n: nat, compP: uint8) returns (e: ErrorCode)
      requires Valid()
      modifies if n < Adcs then {configs[AdcChain(n)].adcComp} else {}
      ensures Valid()
      ensures WriteOutcome(n < Adcs, AdcOutOfRange, compP <= MaxComp, e)
      ensures e == Success ==> var c, l := AdcChain(n), AdcLocal(n);
        configs[c].adcComp[..] == old(configs[c].adcComp[..])[l := old(configs[c].adcComp[l]).(compP := compP)]
      ensures e != Success ==> forall k :: 0 <= k < Chains ==> configs[k].State() == old(configs[k].State())
      ensures forall k :: 0 <= k < Chains && k != AdcChain(n) ==> configs[k].State() == old(configs[k].State())
    {
      if n >= Adcs {
        return AdcOutOfRange;
      }
      e := configs[AdcChain(n)].SetCompP(AdcLocal(n), compP);
    }

    method GetCompN(n: nat) returns (e: ErrorCode, compN: uint8)
      requires Valid()
      ensures e == (if n < Adcs then Success else AdcOutOfRange)
      ensures e == Success ==> compN == configs[AdcChain(n)].adcComp[AdcLocal(n)].compN && compN <= MaxComp
    {
      if n >= Adcs {
        return AdcOutOfRange, 0;
      }
      e, compN := configs[AdcChain(n)].GetCompN(AdcLocal(n));
    }

    method SetCompN(n: nat, compN: uint8) returns (e: ErrorCode)
      requires Valid()
      modifies if n < Adcs then {configs[AdcChain(n)].adcComp} else {}
      ensures Valid()
      ensures WriteOutcome(n < Adcs, AdcOutOfRange, compN <= MaxComp, e)
      ensures e == Success ==> var c, l := AdcChain(n), AdcLocal(n);
        configs[c].adcComp[..] == old(configs[c].adcComp[..])[l := old(configs[c].adcComp[l]).(compN := compN)]
      ensures e != Success ==> forall k :: 0 <= k < Chains ==> configs[k].State() == old(configs[k].State())
      ensures forall k :: 0 <= k < Chains && k != AdcChain(n) ==> configs[k].State() == old(configs[k].State())
    {
      if n >= Adcs {
        return AdcOutOfRange;
      }
      e := configs[AdcChain(n)].SetCompN(AdcLocal(n), compN);
    }

    // ----- ADC-pair calibration, global pair number 0..35 -----

    method GetSlope(n: nat) returns (e: ErrorCode, slope: uint8)
      requires Valid()
      ensures e == (if n < AdcPairs then Success else AdcOutOfRange)
      ensures e == Success ==> slope == configs[PairChain(n)].adcCommon[PairLocal(n)].slope && slope <= MaxPairField
    {
      if n >= AdcPairs {
        return AdcOutOfRange, 0;
      }
      e, slope := configs[PairChain(n)].GetSlope(PairLocal(n));
    }

    method SetSlope(n: nat, slope: uint8) returns (e: ErrorCode)
      requires Valid()
      modifies if n < AdcPairs then {configs[PairChain(n)].adcCommon} else {}
      ensures Valid()
      ensures WriteOutcome(n < AdcPairs, AdcOutOfRange, slope <= MaxPairField, e)
      ensures e == Success ==> var c, l := PairChain(n), PairLocal(n);
        configs[c].adcCommon[..] == old(configs[c].adcCommon[..])[l := old(configs[c].adcCommon[l]).(slope := slope)]
      ensures e != Success ==> forall k :: 0 <= k < Chains ==> configs[k].State() == old(configs[k].State())
      ensures forall k :: 0 <= k < Chains && k != PairChain(n) ==> configs[k].State() == old(configs[k].State())
    {
      if n >= AdcPairs {
        return AdcOutOfRange;
      }
      e := configs[PairChain(n)].SetSlope(PairLocal(n), slope);
    }

    method GetFine(n: nat) returns (e: ErrorCode, fine: uint8)
      requires Valid()
      ensures e == (if n < AdcPairs then Success else AdcOutOfRange)
      ensures e == Success ==> fine == configs[PairChain(n)].adcCommon[PairLocal(n)].fine && fine <= MaxPairField
    {
      if n >= AdcPairs {
        return AdcOutOfRange, 0;
      }
      e, fine := configs[PairChain(n)].GetFine(PairLocal(n));
    }

    method SetFine(n: nat, fine: uint8) returns (e: ErrorCode)
      requires Valid()
      modifies if n < AdcPairs then {configs[PairChain(n)].adcCommon} else {}
      ensures Valid()
      ensures WriteOutcome(n < AdcPairs, AdcOutOfRange, fine <= MaxPairField, e)
      ensures e == Success ==> var c, l := PairChain(n), PairLocal(n);
        configs[c].adcCommon[..] == old(configs[c].adcCommon[..])[l := old(configs[c].adcCommon[l]).(fine := fine)]
      ensures e != Success ==> forall k :: 0 <= k < Chains ==> configs[k].State() == old(configs[k].State())
      ensures forall k :: 0 <= k < Chains && k != PairChain(n) ==> configs[k].State() == old(configs[k].State())
    {
      if n >= AdcPairs {
        return AdcOutOfRange;
      }
      e := configs[PairChain(n)].SetFine(PairLocal(n), fine);
    }

    method GetCoarse(n: nat) returns (e: ErrorCode, coarse: uint8)
      requires Valid()
      ensures e == (if n < AdcPairs then Success else AdcOutOfRange)
      ensures e == Success ==> coarse == configs[PairChain(n)].adcCommon[PairLocal(n)].coarse && coarse <= MaxPairField
    {
      if n >= AdcPairs {
        return AdcOutOfRange, 0;
      }
      e, coarse := configs[PairChain(n)].GetCoarse(PairLocal(n));
    }

    method SetCoarse(n: nat, coarse: uint8) returns (e: ErrorCode)
      requires Valid()
      modifies if n < AdcPairs then {configs[PairChain(n)].adcCommon} else {}
      ensures Valid()
      ensures WriteOutcome(n < AdcPairs, AdcOutOfRange, coarse <= MaxPairField, e)
      ensures e == Success ==> var c, l := PairChain(n), PairLocal(n);
        configs[c].adcCommon[..] == old(configs[c].adcCommon[..])[l := old(configs[c].adcCommon[l]).(coarse := coarse)]
      ensures e != Success ==> forall k :: 0 <= k < Chains ==> configs[k].State() == old(configs[k].State())
      ensures forall k :: 0 <= k < Chains && k != PairChain(n) ==> configs[k].State() == old(configs[k].State())
    {
      if n >= AdcPairs {
        return AdcOutOfRange;
      }
      e := configs[PairChain(n)].SetCoarse(PairLocal(n), coarse);
    }

    method GetCfix(n: nat) returns (e: ErrorCode, cfix: uint8)
      requires Valid()
      ensures e == (if n < AdcPairs then Success else AdcOutOfRange)
      ensures e == Success ==> cfix == configs[PairChain(n)].adcCommon[PairLocal(n)].cfix && cfix <= MaxPairField
    {
      if n >= AdcPairs {
        return AdcOutOfRange, 0;
      }
      e, cfix := configs[PairChain(n)].GetCfix(PairLocal(n));
    }

    method SetCfix(n: nat, cfix: uint8) returns (e: ErrorCode)
      requires Valid()
      modifies if n < AdcPairs then {configs[PairChain(n)].adcCommon} else {}
      ensures Valid()
      ensures WriteOutcome(n < AdcPairs, AdcOutOfRange, cfix <= MaxPairField, e)
      ensures e == Success ==> var c, l := PairChain(n), PairLocal(n);
        configs[c].adcCommon[..] == old(configs[c].adcCommon[..])[l := old(configs[c].adcCommon[l]).(cfix := cfix)]
      ensures e != Success ==> forall k :: 0 <= k < Chains ==> configs[k].State() == old(configs[k].State())
      ensures forall k :: 0 <= k < Chains && k != PairChain(n) ==> configs[k].State() == old(configs[k].State())
    {
      if n >= AdcPairs {
        return AdcOutOfRange;
      }
      e := configs[PairChain(n)].SetCfix(PairLocal(n), cfix);
    }

    // ----- DMUX_EXT of one chain, chain number 0..5 -----

    method GetAvgL1(k: nat) returns (e: ErrorCode, avgL1: bool)
      requires Valid()
      ensures e == (if k < Chains then Success else IllegalChannelConfig)
      ensures e == Success ==> avgL1 == configs[k].dmuxExt.avgL1
    {
      if k >= Chains {
        return IllegalChannelConfig, false;
      }
      e, avgL1 := Success, configs[k].dmuxExt.avgL1;
    }

    method SetAvgL1(k: nat, avgL1: bool) returns (e: ErrorCode)
      requires Valid()
      modifies if k < Chains then {configs[k]} else {}
      ensures Valid()
      ensures e == (if k < Chains then Success else IllegalChannelConfig)
      ensures e == Success ==> configs[k].State() == old(configs[k].State()).(dmuxExt := old(configs[k].dmuxExt).(avgL1 := avgL1))
      ensures forall j :: 0 <= j < Chains && j != k ==> configs[j].State() == old(configs[j].State())
    {
      if k >= Chains {
        return IllegalChannelConfig;
      }
      configs[k].dmuxExt := configs[k].dmuxExt.(avgL1 := avgL1);
      e := Success;
    }

    method GetAvgL2(k: nat) returns (e: ErrorCode, avgL2: bool)
      requires Valid()
      ensures e == (if k < Chains then Success else IllegalChannelConfig)
      ensures e == Success ==> avgL2 == configs[k].dmuxExt.avgL2
    {
      if k >= Chains {
        return IllegalChannelConfig, false;
      }
      e, avgL2 := Success, configs[k].dmuxExt.avgL2;
    }

    method SetAvgL2(k: nat, avgL2: bool) returns (e: ErrorCode)
      requires Valid()
      modifies if k < Chains then {configs[k]} else {}
      ensures Valid()
      ensures e == (if k < Chains then Success else IllegalChannelConfig)
      ensures e == Success ==> configs[k].State() == old(configs[k].State()).(dmuxExt := old(configs[k].dmuxExt).(avgL2 := avgL2))
      ensures forall j :: 0 <= j < Chains && j != k ==> configs[j].State() == old(configs[j].State())
    {
      if k >= Chains {
        return IllegalChannelConfig;
      }
      configs[k].dmuxExt := configs[k].dmuxExt.(avgL2 := avgL2);
      e := Success;
    }

    method GetBypassSc(k: nat) returns (e: ErrorCode, bypassSc: bool)
      requires Valid()
      ensures e == (if k < Chains then Success else IllegalChannelConfig)
      ensures e == Success ==> bypassSc == configs[k].dmuxExt.bypassSc
    {
      if k >= Chains {
        return IllegalChannelConfig, false;
      }
      e, bypassSc := Success, configs[k].dmuxExt.bypassSc;
    }

    method SetBypassSc(k: nat, bypassSc: bool) returns (e: ErrorCode)
      requires Valid()
      modifies if k < Chains then {configs[k]} else {}
      ensures Valid()
      ensures e == (if k < Chains then Success else IllegalChannelConfig)
      ensures e == Success ==> configs[k].State() == old(configs[k].State()).(dmuxExt := old(configs[k].dmuxExt).(bypassSc := bypassSc))
      ensures forall j :: 0 <= j < Chains && j != k ==> configs[j].State() == old(configs[j].State())
    {
      if k >= Chains {
        return IllegalChannelConfig;
      }
      configs[k].dmuxExt := configs[k].dmuxExt.(bypassSc := bypassSc);
      e := Success;
    }

    // ----- broadcasts over one chain and over the device -----

    method SetAllBwOfChannelConfig(k: nat, bw: uint8) returns (e: ErrorCode)
      requires Valid()
      modifies if k < Chains then {configs[k].channelSettings} else {}
      ensures Valid()
      ensures WriteOutcome(k < Chains, IllegalChannelConfig, bw <= MaxBw, e)
      ensures e == Success ==> forall i :: 0 <= i < ChannelsPerChain ==>
        configs[k].channelSettings[i] == old(configs[k].channelSettings[i]).(bw := bw)
      ensures e != Success ==> forall j :: 0 <= j < Chains ==> configs[j].State() == old(configs[j].State())
      ensures forall j :: 0 <= j < Chains && j != k ==> configs[j].State() == old(configs[j].State())
    {
      if k >= Chains {
        return IllegalChannelConfig;
      }
      e := configs[k].SetAllBw(bw);
    }

    method SetAllBw(bw: uint8) returns (e: ErrorCode)
      requires Valid()
      modifies set k | 0 <= k < |configs| :: configs[k].channelSettings
      ensures Valid()
      ensures e == (if bw <= MaxBw then Success else IllegalWriteValue)
      ensures e == Success ==> forall k, i :: 0 <= k < Chains && 0 <= i < ChannelsPerChain ==>
        configs[k].channelSettings[i] == old(configs[k].channelSettings[i]).(bw := bw)
      ensures e != Success ==> forall k :: 0 <= k < Chains ==> configs[k].State() == old(configs[k].State())
    {
      if bw > MaxBw {
        return IllegalWriteValue;
      }
      for k := 0 to Chains
        invariant Valid()
        invariant forall j, i :: 0 <= j < k && 0 <= i < ChannelsPerChain ==>
          configs[j].channelSettings[i] == old(configs[j].channelSettings[i]).(bw := bw)
        invariant forall j :: k <= j < Chains ==> configs[j].State() == old(configs[j].State())
      {
        var _ := SetAllBwOfChannelConfig(k, bw);
      }
      e := Success;
    }

    method SetAllModeOfChannelConfig(k: nat, mode: bool) returns (e: ErrorCode)
      requires Valid()
      modifies if k < Chains then {configs[k].channelSettings} else {}
      ensures Valid()
      ensures e == (if k < Chains then Success else IllegalChannelConfig)
      ensures e == Success ==> forall i :: 0 <= i < ChannelsPerChain ==>
        configs[k].channelSettings[i] == old(configs[k].channelSettings[i]).(mode := mode)
      ensures e != Success ==> forall j :: 0 <= j < Chains ==> configs[j].State() == old(configs[j].State())
      ensures forall j :: 0 <= j < Chains && j != k ==> configs[j].State() == old(configs[j].State())
    {
      if k >= Chains {
        return IllegalChannelConfig;
      }
      e := configs[k].SetAllMode(mode);
    }

    method SetAllMode(mode: bool) returns (e: ErrorCode)
      requires Valid()
      modifies set k | 0 <= k < |configs| :: configs[k].channelSettings
      ensures Valid()
      ensures e == Success
      ensures forall k, i :: 0 <= k < Chains && 0 <= i < ChannelsPerChain ==>
        configs[k].channelSettings[i] == old(configs[k].channelSettings[i]).(mode := mode)
    {
      for k := 0 to Chains
        invariant Valid()
        invariant forall j, i :: 0 <= j < k && 0 <= i < ChannelsPerChain ==>
          configs[j].channelSettings[i] == old(configs[j].channelSettings[i]).(mode := mode)
        invariant forall j :: k <= j < Chains ==> configs[j].State() == old(configs[j].State())
      {
        var _ := SetAllModeOfChannelConfig(k, mode);
      }
      e := Success;
    }

    method SetAllGainOfChannelConfig(k: nat, gain: uint8) returns (e: ErrorCode)
      requires Valid()
      modifies if k < Chains then {configs[k].channelSettings} else {}
      ensures Valid()
      ensures WriteOutcome(k < Chains, IllegalChannelConfig, gain <= MaxGain, e)
      ensures e == Success ==> forall i :: 0 <= i < ChannelsPerChain ==>
        configs[k].channelSettings[i] == old(configs[k].channelSettings[i]).(gain := gain)
      ensures e != Success ==> forall j :: 0 <= j < Chains ==> configs[j].State() == old(configs[j].State())
      ensures forall j :: 0 <= j < Chains && j != k ==> configs[j].State() == old(configs[j].State())
    {
      if k >= Chains {
        return IllegalChannelConfig;
      }
      e := configs[k].SetAllGain(gain);
    }

    method SetAllGain(gain: uint8) returns (e: ErrorCode)
      requires Valid()
      modifies set k | 0 <= k < |configs| :: configs[k].channelSettings
      ensures Valid()
      ensures e == (if gain <= MaxGain then Success else IllegalWriteValue)
      ensures e == Success ==> forall k, i :: 0 <= k < Chains && 0 <= i < ChannelsPerChain ==>
        configs[k].channelSettings[i] == old(configs[k].channelSettings[i]).(gain := gain)
      ensures e != Success ==> forall k :: 0 <= k < Chains ==> configs[k].State() == old(configs[k].State())
    {
      if gain > MaxGain {
        return IllegalWriteValue;
      }
      for k := 0 to Chains
        invariant Valid()
        invariant forall j, i :: 0 <= j < k && 0 <= i < ChannelsPerChain ==>
          configs[j].channelSettings[i] == old(configs[j].channelSettings[i]).(gain := gain)
        invariant forall j :: k <= j < Chains ==> configs[j].State() == old(configs[j].State())
      {
        var _ := SetAllGainOfChannelConfig(k, gain);
      }
      e := Success;
    }

    method SetAllStdbOfChannelConfig(k: nat, stdb: bool) returns (e: ErrorCode)
      requires Valid()
      modifies if k < Chains then {configs[k].channelSettings} else {}
      ensures Valid()
      ensures e == (if k < Chains then Success else IllegalChannelConfig)
      ensures e == Success ==> forall i :: 0 <= i < ChannelsPerChain ==>
        configs[k].channelSettings[i] == old(configs[k].channelSettings[i]).(stdb := stdb)
      ensures e != Success ==> forall j :: 0 <= j < Chains ==> configs[j].State() == old(configs[j].State())
      ensures forall j :: 0 <= j < Chains && j != k ==> configs[j].State() == old(configs[j].State())
    {
      if k >= Chains {
        return IllegalChannelConfig;
      }
      e := configs[k].SetAllStdb(stdb);
    }

    method SetAllStdb(stdb: bool) returns (e: ErrorCode)
      requires Valid()
      modifies set k | 0 <= k < |configs| :: configs[k].channelSettings
      ensures Valid()
      ensures e == Success
      ensures forall k, i :: 0 <= k < Chains && 0 <= i < ChannelsPerChain ==>
        configs[k].channelSettings[i] == old(configs[k].channelSettings[i]).(stdb := stdb)
    {
      for k := 0 to Chains
        invariant Valid()
        invariant forall j, i :: 0 <= j < k && 0 <= i < ChannelsPerChain ==>
          configs[j].channelSettings[i] == old(configs[j].channelSettings[i]).(stdb := stdb)
        invariant forall j :: k <= j < Chains ==> configs[j].State() == old(configs[j].State())
      {
        var _ := SetAllStdbOfChannelConfig(k, stdb);
      }
      e := Success;
    }

    /** Skips the reference channels of the chain. */
    method SetAllRefSelOfChannelConfig(k: nat, refSel: RefSel) returns (e: ErrorCode)
      requires Valid()
      modifies if k < Chains then {configs[k].dmux} else {}
      ensures Valid()
      ensures e == (if k < Chains then Success else IllegalChannelConfig)
      ensures e == Success ==> forall i :: 0 <= i < ChannelsPerChain ==>
        configs[k].dmux[i] == if configs[k].IsReferenceChannel(i) then old(configs[k].dmux[i]) else old(configs[k].dmux[i]).(refSel := refSel)
      ensures e != Success ==> forall j :: 0 <= j < Chains ==> configs[j].State() == old(configs[j].State())
      ensures forall j :: 0 <= j < Chains && j != k ==> configs[j].State() == old(configs[j].State())
    {
      if k >= Chains {
        return IllegalChannelConfig;
      }
      e := configs[k].SetAllRefSel(refSel);
    }

    /** Skips the reference channels of every chain. */
    method SetAllRefSel(refSel: RefSel) returns (e: ErrorCode)
      requires Valid()
      modifies set k | 0 <= k < |configs| :: configs[k].dmux
      ensures Valid()
      ensures e == Success
      ensures forall k, i :: 0 <= k < Chains && 0 <= i < ChannelsPerChain ==>
        configs[k].dmux[i] == if configs[k].IsReferenceChannel(i) then old(configs[k].dmux[i]) else old(configs[k].dmux[i]).(refSel := refSel)
    {
      for k := 0 to Chains
        invariant Valid()
        invariant forall j, i :: 0 <= j < k && 0 <= i < ChannelsPerChain ==>
          configs[j].dmux[i] == if configs[j].IsReferenceChannel(i) then old(configs[j].dmux[i]) else old(configs[j].dmux[i]).(refSel := refSel)
        invariant forall j :: k <= j < Chains ==> configs[j].State() == old(configs[j].State())
      {
        var _ := SetAllRefSelOfChannelConfig(k, refSel);
      }
      e := Success;
    }

    method SetAllDmuxSelOfChannelConfig(k: nat, dmuxSel: DmuxSel) returns (e: ErrorCode)
      requires Valid()
      modifies if k < Chains then {configs[k].dmux} else {}
      ensures Valid()
      ensures e == (if k < Chains then Success else IllegalChannelConfig)
      ensures e == Success ==> forall i :: 0 <= i < ChannelsPerChain ==>
        configs[k].dmux[i] == old(configs[k].dmux[i]).(dmuxSel := dmuxSel)
      ensures e != Success ==> forall j :: 0 <= j < Chains ==> configs[j].State() == old(configs[j].State())
      ensures forall j :: 0 <= j < Chains && j != k ==> configs[j].State() == old(configs[j].State())
    {
      if k >= Chains {
        return IllegalChannelConfig;
      }
      e := configs[k].SetAllDmuxSel(dmuxSel);
    }

    method SetAllDmuxSel(dmuxSel: DmuxSel) returns (e: ErrorCode)
      requires Valid()
      modifies set k | 0 <= k < |configs| :: configs[k].dmux
      ensures Valid()
      ensures e == Success
      ensures forall k, i :: 0 <= k < Chains && 0 <= i < ChannelsPerChain ==>
        configs[k].dmux[i] == old(configs[k].dmux[i]).(dmuxSel := dmuxSel)
    {
      for k := 0 to Chains
        invariant Valid()
        invariant forall j, i :: 0 <= j < k && 0 <= i < ChannelsPerChain ==>
          configs[j].dmux[i] == old(configs[j].dmux[i]).(dmuxSel := dmuxSel)
        invariant forall j :: k <= j < Chains ==> configs[j].State() == old(configs[j].State())
      {
        var _ := SetAllDmuxSelOfChannelConfig(k, dmuxSel);
      }
      e := Success;
    }

    /** A step that changes chain k alone, and keeps it valid, keeps the whole valid. */
    twostate lemma OnlyChainChanged(k: nat)
      requires old(Valid()) && k < Chains
      requires configs[k].Valid()
      requires forall j :: 0 <= j < Chains && j != k ==> unchanged(configs[j].Repr())
      ensures Valid()
      ensures forall j :: 0 <= j < Chains && j != k ==> configs[j].State() == old(configs[j].State())
    {
    }

    // ----- ADC calibration broadcasts over the device -----

    method SetAllCompP(compP: uint8) returns (e: ErrorCode)
      requires Valid()
      modifies set k | 0 <= k < |configs| :: configs[k].adcComp
      ensures Valid()
      ensures e == (if compP <= MaxComp then Success else IllegalWriteValue)
      ensures e == Success ==> forall k, i :: 0 <= k < Chains && 0 <= i < AdcsPerChain ==>
        configs[k].adcComp[i] == old(configs[k].adcComp[i]).(compP := compP)
      ensures e != Success ==> forall k :: 0 <= k < Chains ==> configs[k].State() == old(configs[k].State())
    {
      if compP > MaxComp {
        return IllegalWriteValue;
      }
      for k := 0 to Chains
        invariant Valid()
        invariant forall j, i :: 0 <= j < k && 0 <= i < AdcsPerChain ==>
          configs[j].adcComp[i] == old(configs[j].adcComp[i]).(compP := compP)
        invariant forall j :: k <= j < Chains ==> configs[j].State() == old(configs[j].State())
      {
        label before:
        var _ := configs[k].SetAllCompP(compP);
        OnlyChainChanged@before(k);
      }
      e := Success;
    }

    method SetAllCompN(compN: uint8) returns (e: ErrorCode)
      requires Valid()
      modifies set k | 0 <= k < |configs| :: configs[k].adcComp
      ensures Valid()
      ensures e == (if compN <= MaxComp then Success else IllegalWriteValue)
      ensures e == Success ==> forall k, i :: 0 <= k < Chains && 0 <= i < AdcsPerChain ==>
        configs[k].adcComp[i] == old(configs[k].adcComp[i]).(compN := compN)
      ensures e != Success ==> forall k :: 0 <= k < Chains ==> configs[k].State() == old(configs[k].State())
    {
      if compN > MaxComp {
        return IllegalWriteValue;
      }
      for k := 0 to Chains
        invariant Valid()
        invariant forall j, i :: 0 <= j < k && 0 <= i < AdcsPerChain ==>
          configs[j].adcComp[i] == old(configs[j].adcComp[i]).(compN := compN)
        invariant forall j :: k <= j < Chains ==> configs[j].State() == old(configs[j].State())
      {
        label before:
        var _ := configs[k].SetAllCompN(compN);
        OnlyChainChanged@before(k);
      }
      e := Success;
    }

    method SetAllSlopeCal(slope: uint8, fine: uint8, coarse: uint8) returns (e: ErrorCode)
      requires Valid()
      modifies set k | 0 <= k < |configs| :: configs[k].adcCommon
      ensures Valid()
      ensures e == (if slope <= MaxPairField && fine <= MaxPairField && coarse <= MaxPairField then Success else IllegalWriteValue)
      ensures e == Success ==> forall k, i :: 0 <= k < Chains && 0 <= i < AdcPairsPerChain ==>
        configs[k].adcCommon[i] == WithSlopeCal(old(configs[k].adcCommon[i]), slope, fine, coarse)
      ensures e != Success ==> forall k, i :: 0 <= k < Chains && 0 <= i < AdcPairsPerChain ==>
        PairAfterFailure(old(configs[k].adcCommon[i]), WithSlopeCal(old(configs[k].adcCommon[i]), slope, fine, coarse), configs[k].adcCommon[i])
    {
      if slope > MaxPairField || fine > MaxPairField || coarse > MaxPairField {
        return IllegalWriteValue;
      }
      for k := 0 to Chains
        invariant Valid()
        invariant forall j, i :: 0 <= j < k && 0 <= i < AdcPairsPerChain ==>
          configs[j].adcCommon[i] == WithSlopeCal(old(configs[j].adcCommon[i]), slope, fine, coarse)
        invariant forall j :: k <= j < Chains ==> configs[j].State() == old(configs[j].State())
      {
        label before:
        var _ := configs[k].SetAllSlopeCal(slope, fine, coarse);
        OnlyChainChanged@before(k);
      }
      e := Success;
    }

    method SetAllCfix(cfix: uint8) returns (e: ErrorCode)
      requires Valid()
      modifies set k | 0 <= k < |configs| :: configs[k].adcCommon
      ensures Valid()
      ensures e == (if cfix <= MaxPairField then Success else IllegalWriteValue)
      ensures e == Success ==> forall k, i :: 0 <= k < Chains && 0 <= i < AdcPairsPerChain ==>
        configs[k].adcCommon[i] == old(configs[k].adcCommon[i]).(cfix := cfix)
      ensures e != Success ==> forall k :: 0 <= k < Chains ==> configs[k].State() == old(configs[k].State())
    {
      if cfix > MaxPairField {
        return IllegalWriteValue;
      }
      for k := 0 to Chains
        invariant Valid()
        invariant forall j, i :: 0 <= j < k && 0 <= i < AdcPairsPerChain ==>
          configs[j].adcCommon[i] == old(configs[j].adcCommon[i]).(cfix := cfix)
        invariant forall j :: k <= j < Chains ==> configs[j].State() == old(configs[j].State())
      {
        label before:
        var _ := configs[k].SetAllCfix(cfix);
        OnlyChainChanged@before(k);
      }
      e := Success;
    }

    // ----- whole calibration records -----

    method SetSlopeCal(n: nat, slope: uint8, fine: uint8, coarse: uint8) returns (e: ErrorCode)
      requires Valid()
      modifies if n < AdcPairs then {configs[PairChain(n)].adcCommon} else {}
      ensures Valid()
      ensures WriteOutcome(n < AdcPairs, AdcOutOfRange,
                           slope <= MaxPairField && fine <= MaxPairField && coarse <= MaxPairField, e)
      ensures e == Success ==> var c, l := PairChain(n), PairLocal(n);
        configs[c].adcCommon[..] == old(configs[c].adcCommon[..])[l := WithSlopeCal(old(configs[c].adcCommon[l]), slope, fine, coarse)]
      ensures e != Success && n < AdcPairs ==> var c, l := PairChain(n), PairLocal(n);
        && (forall i :: 0 <= i < AdcPairsPerChain && i != l ==> configs[c].adcCommon[i] == old(configs[c].adcCommon[i]))
        && PairAfterFailure(old(configs[c].adcCommon[l]), WithSlopeCal(old(configs[c].adcCommon[l]), slope, fine, coarse), configs[c].adcCommon[l])
      ensures forall k :: 0 <= k < Chains && k != PairChain(n) ==> configs[k].State() == old(configs[k].State())
    {
      if n >= AdcPairs {
        return AdcOutOfRange;
      }
      e := configs[PairChain(n)].SetSlopeCal(PairLocal(n), slope, fine, coarse);
    }

    method GetAdcPair(n: nat) returns (e: ErrorCode, pair: AdcPairCommon)
      requires Valid()
      ensures e == (if n < AdcPairs then Success else AdcOutOfRange)
      ensures e == Success ==> pair == configs[PairChain(n)].adcCommon[PairLocal(n)] && ValidPair(pair)
    {
      if n >= AdcPairs {
        return AdcOutOfRange, AdcPairCommon(0, 0, 0, 0);
      }
      e, pair := configs[PairChain(n)].GetAdcPair(PairLocal(n));
    }

    method SetAdcPair(n: nat, pair: AdcPairCommon) returns (e: ErrorCode)
      requires Valid()
      modifies if n < AdcPairs then {configs[PairChain(n)].adcCommon} else {}
      ensures Valid()
      ensures WriteOutcome(n < AdcPairs, AdcOutOfRange, ValidPair(pair), e)
      ensures e == Success ==> var c, l := PairChain(n), PairLocal(n);
        configs[c].adcCommon[..] == old(configs[c].adcCommon[..])[l := pair]
      ensures e != Success && n < AdcPairs ==> var c, l := PairChain(n), PairLocal(n);
        && (forall i :: 0 <= i < AdcPairsPerChain && i != l ==> configs[c].adcCommon[i] == old(configs[c].adcCommon[i]))
        && PairAfterFailure(old(configs[c].adcCommon[l]), pair, configs[c].adcCommon[l])
      ensures forall k :: 0 <= k < Chains && k != PairChain(n) ==> configs[k].State() == old(configs[k].State())
    {
      if n >= AdcPairs {
        return AdcOutOfRange;
      }
      e := configs[PairChain(n)].SetAdcPair(PairLocal(n), pair);
    }

    method GetAdcComp(n: nat) returns (e: ErrorCode, comp: AdcComp)
      requires Valid()
      ensures e == (if n < Adcs then Success else AdcOutOfRange)
      ensures e == Success ==> comp == configs[AdcChain(n)].adcComp[AdcLocal(n)] && ValidComp(comp)
    {
      if n >= Adcs {
        return AdcOutOfRange, AdcComp(0, 0);
      }
      e, comp := configs[AdcChain(n)].GetAdcComp(AdcLocal(n));
    }

    method SetAdcComp(n: nat, comp: AdcComp) returns (e: ErrorCode)
      requires Valid()
      modifies if n < Adcs then {configs[AdcChain(n)].adcComp} else {}
      ensures Valid()
      ensures WriteOutcome(n < Adcs, AdcOutOfRange, ValidComp(comp), e)
      ensures e == Success ==> var c, l := AdcChain(n), AdcLocal(n);
        configs[c].adcComp[..] == old(configs[c].adcComp[..])[l := comp]
      ensures e != Success && n < Adcs ==> var c, l := AdcChain(n), AdcLocal(n);
        && (forall i :: 0 <= i < AdcsPerChain && i != l ==> configs[c].adcComp[i] == old(configs[c].adcComp[i]))
        && CompAfterFailure(old(configs[c].adcComp[l]), comp, configs[c].adcComp[l])
      ensures forall k :: 0 <= k < Chains && k != AdcChain(n) ==> configs[k].State() == old(configs[k].State())
    {
      if n >= Adcs {
        return AdcOutOfRange;
      }
      e := configs[AdcChain(n)].SetAdcComp(AdcLocal(n), comp);
    }

    /** getAllAdcPairs: the 36 pairs in global pair order. */
    method GetAllAdcPairs() returns (e: ErrorCode, pairs: seq<AdcPairCommon>)
      requires Valid()
      ensures e == Success && |pairs| == AdcPairs
      ensures forall n :: 0 <= n < AdcPairs ==> pairs[n] == configs[PairChain(n)].adcCommon[PairLocal(n)]
    {
      pairs := [];
      for n := 0 to AdcPairs
        invariant |pairs| == n
        invariant forall m :: 0 <= m < n ==> pairs[m] == configs[PairChain(m)].adcCommon[PairLocal(m)]
      {
        var _, pair := GetAdcPair(n);
        pairs := pairs + [pair];
      }
      e := Success;
    }

    /** getAllAdcComps: the 72 comparator offsets in global ADC order. */
    method GetAllAdcComps() returns (e: ErrorCode, comps: seq<AdcComp>)
      requires Valid()
      ensures e == Success && |comps| == Adcs
      ensures forall n :: 0 <= n < Adcs ==> comps[n] == configs[AdcChain(n)].adcComp[AdcLocal(n)]
    {
      comps := [];
      for n := 0 to Adcs
        invariant |comps| == n
        invariant forall m :: 0 <= m < n ==> comps[m] == configs[AdcChain(m)].adcComp[AdcLocal(m)]
      {
        var _, comp := GetAdcComp(n);
        comps := comps + [comp];
      }
      e := Success;
    }

    /**
     * setAllAdcPairs: the 36 pairs in global pair order. An out-of-range value
     * fails with ILLEGAL_WRITE_VALUE; whether earlier pairs are written by then
     * is not documented, so a failure leaves each pair old or written.
     */
    method SetAllAdcPairs(pairs: seq<AdcPairCommon>) returns (e: ErrorCode)
      requires Valid() && |pairs| == AdcPairs
      modifies set k | 0 <= k < |configs| :: configs[k].adcCommon
      ensures Valid()
      ensures e == (if forall n :: 0 <= n < AdcPairs ==> ValidPair(pairs[n]) then Success else IllegalWriteValue)
      ensures e == Success ==> forall n :: 0 <= n < AdcPairs ==> configs[PairChain(n)].adcCommon[PairLocal(n)] == pairs[n]
      ensures e != Success ==> forall n :: 0 <= n < AdcPairs ==>
        PairAfterFailure(old(configs[PairChain(n)].adcCommon[PairLocal(n)]), pairs[n], configs[PairChain(n)].adcCommon[PairLocal(n)])
    {
      if !forall n | 0 <= n < AdcPairs :: ValidPair(pairs[n]) {
        return IllegalWriteValue;
      }
      for n := 0 to AdcPairs
        invariant Valid()
        invariant forall k, i :: 0 <= k < Chains && 0 <= i < AdcPairsPerChain ==>
          configs[k].adcCommon[i] == if GlobalOf(k, i, AdcPairsPerChain) < n then pairs[GlobalOf(k, i, AdcPairsPerChain)] else old(configs[k].adcCommon[i])
      {
        var _ := SetAdcPair(n, pairs[n]);
      }
      forall n | 0 <= n < AdcPairs
        ensures configs[PairChain(n)].adcCommon[PairLocal(n)] == pairs[n]
      {
        RoutingLeftInverse(n, AdcPairsPerChain);
      }
      e := Success;
    }

    /**
     * setAllAdcComps: the 72 comparator offsets in global ADC order. Its
     * documentation names only SUCCESS; the model rejects an out-of-range
     * offset with ILLEGAL_WRITE_VALUE, as setAdcComp does.
     */
    method SetAllAdcComps(comps: seq<AdcComp>) returns (e: ErrorCode)
      requires Valid() && |comps| == Adcs
      modifies set k | 0 <= k < |configs| :: configs[k].adcComp
      ensures Valid()
      ensures e == (if forall n :: 0 <= n < Adcs ==> ValidComp(comps[n]) then Success else IllegalWriteValue)
      ensures e == Success ==> forall n :: 0 <= n < Adcs ==> configs[AdcChain(n)].adcComp[AdcLocal(n)] == comps[n]
      ensures e != Success ==> forall n :: 0 <= n < Adcs ==>
        CompAfterFailure(old(configs[AdcChain(n)].adcComp[AdcLocal(n)]), comps[n], configs[AdcChain(n)].adcComp[AdcLocal(n)])
    {
      if !forall n | 0 <= n < Adcs :: ValidComp(comps[n]) {
        return IllegalWriteValue;
      }
      for n := 0 to Adcs
        invariant Valid()
        invariant forall k, i :: 0 <= k < Chains && 0 <= i < AdcsPerChain ==>
          configs[k].adcComp[i] == if GlobalOf(k, i, AdcsPerChain) < n then comps[GlobalOf(k, i, AdcsPerChain)] else old(configs[k].adcComp[i])
      {
        var _ := SetAdcComp(n, comps[n]);
      }
      forall n | 0 <= n < Adcs
        ensures configs[AdcChain(n)].adcComp[AdcLocal(n)] == comps[n]
      {
        RoutingLeftInverse(n, AdcsPerChain);
      }
      e := Success;
    }

    /** Writing all pairs and reading them back gives the same 36 records. */
    method AdcPairsRoundTrip(pairs: seq<AdcPairCommon>) returns (e: ErrorCode, read: seq<AdcPairCommon>)
      requires Valid() && |pairs| == AdcPairs
      modifies set k | 0 <= k < |configs| :: configs[k].adcCommon
      ensures Valid()
      ensures e == Success <==> forall n :: 0 <= n < AdcPairs ==> ValidPair(pairs[n])
      ensures e == Success ==> read == pairs
    {
      e := SetAllAdcPairs(pairs);
      var _, r := GetAllAdcPairs();
      read := r;
    }

    /** Writing all comparator offsets and reading them back gives the same 72 records. */
    method AdcCompsRoundTrip(comps: seq<AdcComp>) returns (e: ErrorCode, read: seq<AdcComp>)
      requires Valid() && |comps| == Adcs
      modifies set k | 0 <= k < |configs| :: configs[k].adcComp
      ensures Valid()
      ensures e == Success <==> forall n :: 0 <= n < Adcs ==> ValidComp(comps[n])
      ensures e == Success ==> read == comps
    {
      e := SetAllAdcComps(comps);
      var _, r := GetAllAdcComps();
      read := r;
    }

    /** A write at a global channel number is what a read at that number returns. */
    method BwRoundTrip(n: nat, bw: uint8) returns (e: ErrorCode, read: uint8)
      requires Valid()
      modifies if n < Channels then {configs[ChannelChain(n)].channelSettings} else {}
      ensures Valid()
      ensures WriteOutcome(n < Channels, ChannelOutOfRange, bw <= MaxBw, e)
      ensures e == Success ==> read == bw
    {
      e := SetBw(n, bw);
      var _, r := GetBw(n);
      read := r;
    }

    // ----- reset, chains, comparison -----

    /** reset(): every chain back to its defaults. */
    method Reset(defaults: ChainState)
      requires Valid() && ValidState(defaults)
      modifies Repr
      ensures Valid()
      ensures forall k :: 0 <= k < Chains ==> configs[k].State() == defaults
    {
      for k := 0 to Chains
        invariant Valid()
        invariant forall j :: 0 <= j < k ==> configs[j].State() == defaults
      {
        label before:
        configs[k].Reset(defaults);
        OnlyChainChanged@before(k);
      }
    }

    /**
     * getChains: the six chains, each as ChannelConfiguration's getChain
     * yields it; `srFailure[k]` stands for a shift-register error on chain k.
     */
    method GetChains(srFailure: seq<bool>, encode: ChainState -> seq<bool>) returns (e: ErrorCode, chains: seq<seq<bool>>)
      requires Valid() && |srFailure| == Chains
      requires forall k :: 0 <= k < Chains ==> |encode(configs[k].State())| == BitSize
      ensures e == Success || e == SrError
      ensures e == SrError <==> exists k :: 0 <= k < Chains && srFailure[k]
      ensures e == Success ==> |chains| == Chains
      ensures e == Success ==> forall k :: 0 <= k < Chains ==> |chains[k]| == BitSize && chains[k] == encode(configs[k].State())
    {
      chains := [];
      for k := 0 to Chains
        invariant |chains| == k
        invariant forall j :: 0 <= j < k ==> !srFailure[j] && chains[j] == encode(configs[j].State())
      {
        var r, chain := configs[k].GetChain(srFailure[k], encode);
        if r != Success {
          return r, [];
        }
        chains := chains + [chain];
      }
      e := Success;
    }

    /**
     * getAllChannelConfigsFromChains: decodes each of the six chains into its
     * configuration, stopping at the first chain that fails.
     */
    method GetAllChannelConfigsFromChains(chains: seq<seq<bool>>, srFailure: seq<bool>, decode: seq<bool> -> Option<ChainState>)
      returns (e: ErrorCode)
      requires Valid() && |chains| == Chains && |srFailure| == Chains
      requires forall k :: 0 <= k < Chains && decode(chains[k]).Some? ==> ValidState(decode(chains[k]).value)
      modifies Repr
      ensures Valid()
      ensures e == Success || e == SrError || e == IllegalChainValue
      ensures e == Success <==> forall k :: 0 <= k < Chains ==> !srFailure[k] && decode(chains[k]).Some?
      ensures e == Success ==> forall k :: 0 <= k < Chains ==> configs[k].State() == decode(chains[k]).value
      ensures e == SrError ==> exists k :: 0 <= k < Chains && srFailure[k]
      ensures e == IllegalChainValue ==> exists k :: 0 <= k < Chains && decode(chains[k]).None?
      ensures e != Success ==> exists k :: (
        && 0 <= k < Chains && FirstFailure(chains, srFailure, decode, k)
        && (e == SrError <==> srFailure[k])
        && (forall j :: 0 <= j < k ==> configs[j].State() == decode(chains[j]).value)
        && (forall j :: k <= j < Chains ==> configs[j].State() == old(configs[j].State())))
    {
      for k := 0 to Chains
        invariant Valid()
        invariant forall j :: 0 <= j < k ==> !srFailure[j] && decode(chains[j]).Some? && configs[j].State() == decode(chains[j]).value
        invariant forall j :: k <= j < Chains ==> configs[j].State() == old(configs[j].State())
      {
        label before:
        var r := configs[k].GetChannelConfigFromChain(chains[k], srFailure[k], decode);
        OnlyChainChanged@before(k);
        if r != Success {
          assert FirstFailure(chains, srFailure, decode, k);
          return r;
        }
      }
      e := Success;
    }

    /** operator==: the six configurations compare equal pairwise. */
    predicate Equals(other: AllChannelConfigurations)
      requires Valid() && other.Valid()
      reads this, Repr, other, other.Repr
      ensures Equals(other) <==> forall k :: 0 <= k < Chains ==>
        configs[k].State() == other.configs[k].State() && configs[k].hasExternalReferences == other.configs[k].hasExternalReferences
    {
      forall k | 0 <= k < Chains :: configs[k].Equals(other.configs[k])
    }

    /** operator!=: the negation of operator==. */
    predicate NotEquals(other: AllChannelConfigurations)
      requires Valid() && other.Valid()
      reads this, Repr, other, other.Repr
      ensures NotEquals(other) <==> !Equals(other)
    {
      exists k | 0 <= k < Chains :: configs[k].NotEquals(other.configs[k])
    }
  }

  /** Device-wide equality is an equivalence relation. */
  lemma AllEqualsIsEquivalence(a: AllChannelConfigurations, b: AllChannelConfigurations, c: AllChannelConfigurations)
    requires a.Valid() && b.Valid() && c.Valid()
    ensures a.Equals(a)
    ensures a.Equals(b) ==> b.Equals(a)
    ensures a.Equals(b) && b.Equals(c) ==> a.Equals(c)
  {
  }
}
