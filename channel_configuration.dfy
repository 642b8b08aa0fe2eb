/**
 * One channel-configuration shift register of the NeuroSeeker probe
 * (ChannelConfiguration.h): the 240 channel multiplexer and settings entries,
 * the 12 ADC comparator offsets and the 6 ADC-pair calibrations of one chain,
 * together with the accessors that check indices and values and report a
 * ChannelConfigErrorCode.
 *
 * The header declares the class without bodies; the model implements each
 * accessor as its documentation describes. Where the documentation leaves a
 * choice open (which error wins when both the index and the value are bad,
 * whether a multi-field write is atomic) the contract admits every choice.
 */
module ChannelConfig {
  import opened Wrappers

  /** `unsigned char`. */
  type uint8 = x: int | 0 <= x < 256

  const ChannelsPerChain: nat := 240
  const AdcsPerChain: nat := 12
  const AdcPairsPerChain: nat := 6

  /** ChannelConfiguration::bitsize, the length of the shift-register chain. */
  const BitSize: nat := 3106

  /** Largest legal write values, from the setters' documented ranges. */
  const MaxBw: uint8 := 3
  const MaxGain: uint8 := 7
  const MaxComp: uint8 := 63
  const MaxPairField: uint8 := 7  // slope, fine, coarse and cfix

  /**
   * Field widths as the struct comments give them. Some disagree with the
   * documented setter ranges (a 5-bit comp cannot hold 63, a 2-bit fine
   * cannot hold 7), so they are kept as names only and the ranges are checked.
   */
  const BwBits: nat := 2
  const GainBits: nat := 3
  const CompBits: nat := 5
  const SlopeBits: nat := 3
  const FineBits: nat := 2
  const CoarseBits: nat := 2
  const CfixBits: nat := 4

  datatype ErrorCode =
    | Success
    | SrError
    | ChannelOutOfRange
    | AdcOutOfRange
    | IllegalWriteValue
    | IllegalChannelConfig
    | IllegalChainValue
  {
    /** The numeric value of the C enumerator. */
    function Code(): (c: nat)
      ensures c <= 6
      ensures c == 0 <==> this == Success
    {
      match this
      case Success => 0
      case SrError => 1
      case ChannelOutOfRange => 2
      case AdcOutOfRange => 3
      case IllegalWriteValue => 4
      case IllegalChannelConfig => 5
      case IllegalChainValue => 6
    }
  }

  datatype DmuxExt = DmuxExt(avgL1: bool, avgL2: bool, bypassSc: bool)

  datatype RefSel = RefSelNone | RefSelExt | RefSelL1 | RefSelL2
  {
    /** The numeric value of the C enumerator (REF_SEL_NONE = 0 … REF_SEL_L2 = 3). */
    function Code(): (c: nat)
      ensures c < 4
      ensures c == 0 <==> this == RefSelNone
    {
      match this
      case RefSelNone => 0
      case RefSelExt => 1
      case RefSelL1 => 2
      case RefSelL2 => 3
    }
  }

  /** The cast `RefSel(code)` of an enumerator value back to the enumeration. */
  function RefSelOfCode(code: nat): (r: RefSel)
    requires code < 4
    ensures r.Code() == code
  {
    if code == 0 then RefSelNone
    else if code == 1 then RefSelExt
    else if code == 2 then RefSelL1
    else RefSelL2
  }

  /** Casting an enumerator to its value and back gives it again. */
  lemma RefSelCodeRoundTrip(r: RefSel)
    ensures RefSelOfCode(r.Code()) == r
  {
  }

  datatype DmuxSel = DmuxNone | ImpDmux | ResDmux

  datatype Dmux = Dmux(refSel: RefSel, dmuxSel: DmuxSel)

  datatype ChannelSettings = ChannelSettings(bw: uint8, mode: bool, gain: uint8, stdb: bool)

  datatype AdcComp = AdcComp(compP: uint8, compN: uint8)

  datatype AdcPairCommon = AdcPairCommon(slope: uint8, fine: uint8, coarse: uint8, cfix: uint8)

  predicate ValidSettings(s: ChannelSettings) { s.bw <= MaxBw && s.gain <= MaxGain }

  predicate ValidComp(c: AdcComp) { c.compP <= MaxComp && c.compN <= MaxComp }

  predicate ValidPair(p: AdcPairCommon)
  {
    p.slope <= MaxPairField && p.fine <= MaxPairField && p.coarse <= MaxPairField && p.cfix <= MaxPairField
  }

  /** Every member of a channel configuration, as one value. */
  datatype ChainState = ChainState(
    dmux: seq<Dmux>,
    settings: seq<ChannelSettings>,
    comps: seq<AdcComp>,
    pairs: seq<AdcPairCommon>,
    dmuxExt: DmuxExt)

  /** The array sizes of the header and the documented value ranges. */
  predicate ValidState(s: ChainState)
  {
    && |s.dmux| == ChannelsPerChain
    && |s.settings| == ChannelsPerChain
    && |s.comps| == AdcsPerChain
    && |s.pairs| == AdcPairsPerChain
    && (forall i :: 0 <= i < |s.settings| ==> ValidSettings(s.settings[i]))
    && (forall i :: 0 <= i < |s.comps| ==> ValidComp(s.comps[i]))
    && (forall i :: 0 <= i < |s.pairs| ==> ValidPair(s.pairs[i]))
  }

  /**
   * The documented result of a write: success exactly when index and value
   * are both good; otherwise the error of whichever is bad, and either one
   * when both are.
   */
  predicate WriteOutcome(indexOk: bool, indexError: ErrorCode, valueOk: bool, e: ErrorCode)
  {
    && (e == Success <==> indexOk && valueOk)
    && (!indexOk && valueOk ==> e == indexError)
    && (indexOk && !valueOk ==> e == IllegalWriteValue)
    && (!indexOk && !valueOk ==> e == indexError || e == IllegalWriteValue)
  }

  /**
   * A field of a multi-field write after a failed call: it keeps its old value
   * or, if the implementation is not atomic, holds the new value when that one
   * is in range.
   */
  predicate OldOrWritten(old_: uint8, new_: uint8, max: uint8, now: uint8)
  {
    now == old_ || (now == new_ && new_ <= max)
  }

  predicate PairAfterFailure(old_: AdcPairCommon, new_: AdcPairCommon, now: AdcPairCommon)
  {
    && OldOrWritten(old_.slope, new_.slope, MaxPairField, now.slope)
    && OldOrWritten(old_.fine, new_.fine, MaxPairField, now.fine)
    && OldOrWritten(old_.coarse, new_.coarse, MaxPairField, now.coarse)
    && OldOrWritten(old_.cfix, new_.cfix, MaxPairField, now.cfix)
  }

  predicate CompAfterFailure(old_: AdcComp, new_: AdcComp, now: AdcComp)
  {
    && OldOrWritten(old_.compP, new_.compP, MaxComp, now.compP)
    && OldOrWritten(old_.compN, new_.compN, MaxComp, now.compN)
  }

  /** Slope calibration: slope, fine and coarse, with cfix kept. */
  function WithSlopeCal(p: AdcPairCommon, slope: uint8, fine: uint8, coarse: uint8): (r: AdcPairCommon)
    ensures r.cfix == p.cfix
    ensures (r.slope, r.fine, r.coarse) == (slope, fine, coarse)
  {
    p.(slope := slope, fine := fine, coarse := coarse)
  }

  class ChannelConfiguration {
    const dmux: array<Dmux>
    const channelSettings: array<ChannelSettings>
    const adcComp: array<AdcComp>
    const adcCommon: array<AdcPairCommon>
    var dmuxExt: DmuxExt

    const hasExternalReferences: bool
    /**
     * The channels that the private isReferenceChannel reports as reference
     * channels. Its body is not given, so the set is a parameter of the model.
     */
    const referenceChannels: set<nat>

    predicate IsReferenceChannel(n: nat) { n in referenceChannels }

    /** The objects that hold this configuration's state. */
    ghost function Repr(): set<object>
    {
      {this, dmux, channelSettings, adcComp, adcCommon}
    }

    function State(): ChainState
      reads this, dmux, channelSettings, adcComp, adcCommon
    {
      ChainState(dmux[..], channelSettings[..], adcComp[..], adcCommon[..], dmuxExt)
    }

    ghost predicate Valid()
      reads this, dmux, channelSettings, adcComp, adcCommon
    {
      ValidState(State())
    }

    /**
     * A configuration in the state that reset() installs. The default values
     * are not stated in the header, so they are a parameter.
     */
    constructor (hasExternalReferences: bool, referenceChannels: set<nat>, defaults: ChainState)
      requires ValidState(defaults)
      ensures Valid() && State() == defaults
      ensures this.hasExternalReferences == hasExternalReferences
      ensures this.referenceChannels == referenceChannels
      ensures fresh(dmux) && fresh(channelSettings) && fresh(adcComp) && fresh(adcCommon)
    {
      this.hasExternalReferences := hasExternalReferences;
      this.referenceChannels := referenceChannels;
      dmux := new Dmux[ChannelsPerChain](i requires 0 <= i < ChannelsPerChain => defaults.dmux[i]);
      channelSettings := new ChannelSettings[ChannelsPerChain](i requires 0 <= i < ChannelsPerChain => defaults.settings[i]);
      adcComp := new AdcComp[AdcsPerChain](i requires 0 <= i < AdcsPerChain => defaults.comps[i]);
      adcCommon := new AdcPairCommon[AdcPairsPerChain](i requires 0 <= i < AdcPairsPerChain => defaults.pairs[i]);
      dmuxExt := defaults.dmuxExt;
      new;
      assert dmux[..] == defaults.dmux;
      assert channelSettings[..] == defaults.settings;
      assert adcComp[..] == defaults.comps;
      assert adcCommon[..] == defaults.pairs;
    }

    /** Writes every member from s, entry by entry. */
    method Load(s: ChainState)
      requires Valid() && ValidState(s)
      modifies this, dmux, channelSettings, adcComp, adcCommon
      ensures Valid() && State() == s
    {
      forall i | 0 <= i < ChannelsPerChain {
        dmux[i] := s.dmux[i];
      }
      forall i | 0 <= i < ChannelsPerChain {
        channelSettings[i] := s.settings[i];
      }
      forall i | 0 <= i < AdcsPerChain {
        adcComp[i] := s.comps[i];
      }
      forall i | 0 <= i < AdcPairsPerChain {
        adcCommon[i] := s.pairs[i];
      }
      dmuxExt := s.dmuxExt;
      assert dmux[..] == s.dmux;
      assert channelSettings[..] == s.settings;
      assert adcComp[..] == s.comps;
      assert adcCommon[..] == s.pairs;
    }

    /** reset(): every member back to its default value. */
    method Reset(defaults: ChainState)
      requires Valid() && ValidState(defaults)
      modifies this, dmux, channelSettings, adcComp, adcCommon
      ensures Valid() && State() == defaults
    {
      Load(defaults);
    }

    /**
     * getChannelConfigFromChain: decodes a chain into the members. The bit
     * layout is not given, so decoding is the parameter `decode`, which yields
     * None when several mutually exclusive bits are set; `srFailure` stands
     * for an error reported by the shift register.
     */
    method GetChannelConfigFromChain(chain: seq<bool>, srFailure: bool, decode: seq<bool> -> Option<ChainState>)
      returns (e: ErrorCode)
      requires Valid()
      requires decode(chain).Some? ==> ValidState(decode(chain).value)
      modifies this, dmux, channelSettings, adcComp, adcCommon
      ensures Valid()
      ensures e == Success || e == SrError || e == IllegalChainValue
      ensures e == SrError <==> srFailure
      ensures e == IllegalChainValue <==> !srFailure && decode(chain).None?
      ensures e == Success ==> State() == decode(chain).value
      ensures e != Success ==> State() == old(State())
    {
      if srFailure {
        return SrError;
      }
      var decoded := decode(chain);
      if decoded.None? {
        return IllegalChainValue;
      }
      Load(decoded.value);
      e := Success;
    }

    /**
     * getChain: encodes the members into a chain of BitSize bits; `encode`
     * stands for the layout, `srFailure` for a shift-register error.
     */
    method GetChain(srFailure: bool, encode: ChainState -> seq<bool>) returns (e: ErrorCode, chain: seq<bool>)
      requires Valid()
      requires |encode(State())| == BitSize
      ensures e == Success || e == SrError
      ensures e == SrError <==> srFailure
      ensures e == Success ==> |chain| == BitSize && chain == encode(State())
    {
      if srFailure {
        return SrError, [];
      }
      e, chain := Success, encode(State());
    }

    // ----- per-channel accessors, local channel number 0..239 -----

    method GetRefSel(n: nat) returns (e: ErrorCode, refSel: RefSel)
      requires Valid()
      ensures e == (if n < ChannelsPerChain then Success else ChannelOutOfRange)
      ensures e == Success ==> refSel == dmux[n].refSel
    {
      if n >= ChannelsPerChain {
        return ChannelOutOfRange, RefSelNone;
      }
      e, refSel := Success, dmux[n].refSel;
    }

    method SetRefSel(n: nat, refSel: RefSel) returns (e: ErrorCode)
      requires Valid()
      modifies dmux
      ensures Valid()
      ensures e == (if n < ChannelsPerChain then Success else ChannelOutOfRange)
      ensures e == Success ==> dmux[..] == old(dmux[..])[n := old(dmux[n]).(refSel := refSel)]
      ensures e != Success ==> dmux[..] == old(dmux[..])
    {
      if n >= ChannelsPerChain {
        return ChannelOutOfRange;
      }
      dmux[n] := dmux[n].(refSel := refSel);
      e := Success;
    }

    method GetDmuxSel(n: nat) returns (e: ErrorCode, dmuxSel: DmuxSel)
      requires Valid()
      ensures e == (if n < ChannelsPerChain then Success else ChannelOutOfRange)
      ensures e == Success ==> dmuxSel == dmux[n].dmuxSel
    {
      if n >= ChannelsPerChain {
        return ChannelOutOfRange, DmuxNone;
      }
      e, dmuxSel := Success, dmux[n].dmuxSel;
    }

    method SetDmuxSel(n: nat, dmuxSel: DmuxSel) returns (e: ErrorCode)
      requires Valid()
      modifies dmux
      ensures Valid()
      ensures e == (if n < ChannelsPerChain then Success else ChannelOutOfRange)
      ensures e == Success ==> dmux[..] == old(dmux[..])[n := old(dmux[n]).(dmuxSel := dmuxSel)]
      ensures e != Success ==> dmux[..] == old(dmux[..])
    {
      if n >= ChannelsPerChain {
        return ChannelOutOfRange;
      }
      dmux[n] := dmux[n].(dmuxSel := dmuxSel);
      e := Success;
    }

    method GetBw(n: nat) returns (e: ErrorCode, bw: uint8)
      requires Valid()
      ensures e == (if n < ChannelsPerChain then Success else ChannelOutOfRange)
      ensures e == Success ==> bw == channelSettings[n].bw && bw <= MaxBw
    {
      if n >= ChannelsPerChain {
        return ChannelOutOfRange, 0;
      }
      e, bw := Success, channelSettings[n].bw;
    }

    method SetBw(n: nat, bw: uint8) returns (e: ErrorCode)
      requires Valid()
      modifies channelSettings
      ensures Valid()
      ensures WriteOutcome(n < ChannelsPerChain, ChannelOutOfRange, bw <= MaxBw, e)
      ensures e == Success ==> channelSettings[..] == old(channelSettings[..])[n := old(channelSettings[n]).(bw := bw)]
      ensures e != Success ==> channelSettings[..] == old(channelSettings[..])
    {
      if n >= ChannelsPerChain {
        return ChannelOutOfRange;
      }
      if bw > MaxBw {
        return IllegalWriteValue;
      }
      channelSettings[n] := channelSettings[n].(bw := bw);
      e := Success;
    }

    method GetMode(n: nat) returns (e: ErrorCode, mode: bool)
      requires Valid()
      ensures e == (if n < ChannelsPerChain then Success else ChannelOutOfRange)
      ensures e == Success ==> mode == channelSettings[n].mode
    {
      if n >= ChannelsPerChain {
        return ChannelOutOfRange, false;
      }
      e, mode := Success, channelSettings[n].mode;
    }

    method SetMode(n: nat, mode: bool) returns (e: ErrorCode)
      requires Valid()
      modifies channelSettings
      ensures Valid()
      ensures e == (if n < ChannelsPerChain then Success else ChannelOutOfRange)
      ensures e == Success ==> channelSettings[..] == old(channelSettings[..])[n := old(channelSettings[n]).(mode := mode)]
      ensures e != Success ==> channelSettings[..] == old(channelSettings[..])
    {
      if n >= ChannelsPerChain {
        return ChannelOutOfRange;
      }
      channelSettings[n] := channelSettings[n].(mode := mode);
      e := Success;
    }

    method GetGain(n: nat) returns (e: ErrorCode, gain: uint8)
      requires Valid()
      ensures e == (if n < ChannelsPerChain then Success else ChannelOutOfRange)
      ensures e == Success ==> gain == channelSettings[n].gain && gain <= MaxGain
    {
      if n >= ChannelsPerChain {
        return ChannelOutOfRange, 0;
      }
      e, gain := Success, channelSettings[n].gain;
    }

    method SetGain(n: nat, gain: uint8) returns (e: ErrorCode)
      requires Valid()
      modifies channelSettings
      ensures Valid()
      ensures WriteOutcome(n < ChannelsPerChain, ChannelOutOfRange, gain <= MaxGain, e)
      ensures e == Success ==> channelSettings[..] == old(channelSettings[..])[n := old(channelSettings[n]).(gain := gain)]
      ensures e != Success ==> channelSettings[..] == old(channelSettings[..])
    {
      if n >= ChannelsPerChain {
        return ChannelOutOfRange;
      }
      if gain > MaxGain {
        return IllegalWriteValue;
      }
      channelSettings[n] := channelSettings[n].(gain := gain);
      e := Success;
    }

    method GetStdb(n: nat) returns (e: ErrorCode, stdb: bool)
      requires Valid()
      ensures e == (if n < ChannelsPerChain then Success else ChannelOutOfRange)
      ensures e == Success ==> stdb == channelSettings[n].stdb
    {
      if n >= ChannelsPerChain {
        return ChannelOutOfRange, false;
      }
      e, stdb := Success, channelSettings[n].stdb;
    }

    method SetStdb(n: nat, stdb: bool) returns (e: ErrorCode)
      requires Valid()
      modifies channelSettings
      ensures Valid()
      ensures e == (if n < ChannelsPerChain then Success else ChannelOutOfRange)
      ensures e == Success ==> channelSettings[..] == old(channelSettings[..])[n := old(channelSettings[n]).(stdb := stdb)]
      ensures e != Success ==> channelSettings[..] == old(channelSettings[..])
    {
      if n >= ChannelsPerChain {
        return ChannelOutOfRange;
      }
      channelSettings[n] := channelSettings[n].(stdb := stdb);
      e := Success;
    }

    // ----- ADC comparator offsets, ADC number 0..11 -----

    method GetCompP(n: nat) returns (e: ErrorCode, compP: uint8)
      requires Valid()
      ensures e == (if n < AdcsPerChain then Success else AdcOutOfRange)
      ensures e == Success ==> compP == adcComp[n].compP && compP <= MaxComp
    {
      if n >= AdcsPerChain {
        return AdcOutOfRange, 0;
      }
      e, compP := Success, adcComp[n].compP;
    }

    method SetCompP(n: nat, compP: uint8) returns (e: ErrorCode)
      requires Valid()
      modifies adcComp
      ensures Valid()
      ensures WriteOutcome(n < AdcsPerChain, AdcOutOfRange, compP <= MaxComp, e)
      ensures e == Success ==> adcComp[..] == old(adcComp[..])[n := old(adcComp[n]).(compP := compP)]
      ensures e != Success ==> adcComp[..] == old(adcComp[..])
    {
      if n >= AdcsPerChain {
        return AdcOutOfRange;
      }
      if compP > MaxComp {
        return IllegalWriteValue;
      }
      adcComp[n] := adcComp[n].(compP := compP);
      e := Success;
    }

    method SetAllCompP(compP: uint8) returns (e: ErrorCode)
      requires Valid()
      modifies adcComp
      ensures Valid()
      ensures e == (if compP <= MaxComp then Success else IllegalWriteValue)
      ensures e == Success ==> forall i :: 0 <= i < AdcsPerChain ==> adcComp[i] == old(adcComp[i]).(compP := compP)
      ensures e != Success ==> adcComp[..] == old(adcComp[..])
    {
      if compP > MaxComp {
        return IllegalWriteValue;
      }
      for i := 0 to AdcsPerChain
        invariant forall j :: 0 <= j < i ==> adcComp[j] == old(adcComp[j]).(compP := compP)
        invariant forall j :: i <= j < AdcsPerChain ==> adcComp[j] == old(adcComp[j])
      {
        adcComp[i] := adcComp[i].(compP := compP);
      }
      e := Success;
    }

    method GetCompN(n: nat) returns (e: ErrorCode, compN: uint8)
      requires Valid()
      ensures e == (if n < AdcsPerChain then Success else AdcOutOfRange)
      ensures e == Success ==> compN == adcComp[n].compN && compN <= MaxComp
    {
      if n >= AdcsPerChain {
        return AdcOutOfRange, 0;
      }
      e, compN := Success, adcComp[n].compN;
    }

    method SetCompN(n: nat, compN: uint8) returns (e: ErrorCode)
      requires Valid()
      modifies adcComp
      ensures Valid()
      ensures WriteOutcome(n < AdcsPerChain, AdcOutOfRange, compN <= MaxComp, e)
      ensures e == Success ==> adcComp[..] == old(adcComp[..])[n := old(adcComp[n]).(compN := compN)]
      ensures e != Success ==> adcComp[..] == old(adcComp[..])
    {
      if n >= AdcsPerChain {
        return AdcOutOfRange;
      }
      if compN > MaxComp {
        return IllegalWriteValue;
      }
      adcComp[n] := adcComp[n].(compN := compN);
      e := Success;
    }

    method SetAllCompN(compN: uint8) returns (e: ErrorCode)
      requires Valid()
      modifies adcComp
      ensures Valid()
      ensures e == (if compN <= MaxComp then Success else IllegalWriteValue)
      ensures e == Success ==> forall i :: 0 <= i < AdcsPerChain ==> adcComp[i] == old(adcComp[i]).(compN := compN)
      ensures e != Success ==> adcComp[..] == old(adcComp[..])
    {
      if compN > MaxComp {
        return IllegalWriteValue;
      }
      for i := 0 to AdcsPerChain
        invariant forall j :: 0 <= j < i ==> adcComp[j] == old(adcComp[j]).(compN := compN)
        invariant forall j :: i <= j < AdcsPerChain ==> adcComp[j] == old(adcComp[j])
      {
        adcComp[i] := adcComp[i].(compN := compN);
      }
      e := Success;
    }

    // ----- ADC-pair calibration, pair number 0..5 -----

    method GetSlope(n: nat) returns (e: ErrorCode, slope: uint8)
      requires Valid()
      ensures e == (if n < AdcPairsPerChain then Success else AdcOutOfRange)
      ensures e == Success ==> slope == adcCommon[n].slope && slope <= MaxPairField
    {
      if n >= AdcPairsPerChain {
        return AdcOutOfRange, 0;
      }
      e, slope := Success, adcCommon[n].slope;
    }

    method SetSlope(n: nat, slope: uint8) returns (e: ErrorCode)
      requires Valid()
      modifies adcCommon
      ensures Valid()
      ensures WriteOutcome(n < AdcPairsPerChain, AdcOutOfRange, slope <= MaxPairField, e)
      ensures e == Success ==> adcCommon[..] == old(adcCommon[..])[n := old(adcCommon[n]).(slope := slope)]
      ensures e != Success ==> adcCommon[..] == old(adcCommon[..])
    {
      if n >= AdcPairsPerChain {
        return AdcOutOfRange;
      }
      if slope > MaxPairField {
        return IllegalWriteValue;
      }
      adcCommon[n] := adcCommon[n].(slope := slope);
      e := Success;
    }

    method GetFine(n: nat) returns (e: ErrorCode, fine: uint8)
      requires Valid()
      ensures e == (if n < AdcPairsPerChain then Success else AdcOutOfRange)
      ensures e == Success ==> fine == adcCommon[n].fine && fine <= MaxPairField
    {
      if n >= AdcPairsPerChain {
        return AdcOutOfRange, 0;
      }
      e, fine := Success, adcCommon[n].fine;
    }

    method SetFine(n: nat, fine: uint8) returns (e: ErrorCode)
      requires Valid()
      modifies adcCommon
      ensures Valid()
      ensures WriteOutcome(n < AdcPairsPerChain, AdcOutOfRange, fine <= MaxPairField, e)
      ensures e == Success ==> adcCommon[..] == old(adcCommon[..])[n := old(adcCommon[n]).(fine := fine)]
      ensures e != Success ==> adcCommon[..] == old(adcCommon[..])
    {
      if n >= AdcPairsPerChain {
        return AdcOutOfRange;
      }
      if fine > MaxPairField {
        return IllegalWriteValue;
      }
      adcCommon[n] := adcCommon[n].(fine := fine);
      e := Success;
    }

    method GetCoarse(n: nat) returns (e: ErrorCode, coarse: uint8)
      requires Valid()
      ensures e == (if n < AdcPairsPerChain then Success else AdcOutOfRange)
      ensures e == Success ==> coarse == adcCommon[n].coarse && coarse <= MaxPairField
    {
      if n >= AdcPairsPerChain {
        return AdcOutOfRange, 0;
      }
      e, coarse := Success, adcCommon[n].coarse;
    }

    method SetCoarse(n: nat, coarse: uint8) returns (e: ErrorCode)
      requires Valid()
      modifies adcCommon
      ensures Valid()
      ensures WriteOutcome(n < AdcPairsPerChain, AdcOutOfRange, coarse <= MaxPairField, e)
      ensures e == Success ==> adcCommon[..] == old(adcCommon[..])[n := old(adcCommon[n]).(coarse := coarse)]
      ensures e != Success ==> adcCommon[..] == old(adcCommon[..])
    {
      if n >= AdcPairsPerChain {
        return AdcOutOfRange;
      }
      if coarse > MaxPairField {
        return IllegalWriteValue;
      }
      adcCommon[n] := adcCommon[n].(coarse := coarse);
      e := Success;
    }

    method GetCfix(n: nat) returns (e: ErrorCode, cfix: uint8)
      requires Valid()
      ensures e == (if n < AdcPairsPerChain then Success else AdcOutOfRange)
      ensures e == Success ==> cfix == adcCommon[n].cfix && cfix <= MaxPairField
    {
      if n >= AdcPairsPerChain {
        return AdcOutOfRange, 0;
      }
      e, cfix := Success, adcCommon[n].cfix;
    }

    method SetCfix(n: nat, cfix: uint8) returns (e: ErrorCode)
      requires Valid()
      modifies adcCommon
      ensures Valid()
      ensures WriteOutcome(n < AdcPairsPerChain, AdcOutOfRange, cfix <= MaxPairField, e)
      ensures e == Success ==> adcCommon[..] == old(adcCommon[..])[n := old(adcCommon[n]).(cfix := cfix)]
      ensures e != Success ==> adcCommon[..] == old(adcCommon[..])
    {
      if n >= AdcPairsPerChain {
        return AdcOutOfRange;
      }
      if cfix > MaxPairField {
        return IllegalWriteValue;
      }
      adcCommon[n] := adcCommon[n].(cfix := cfix);
      e := Success;
    }

    // ----- broadcasts over the chain -----

    method SetAllBw(bw: uint8) returns (e: ErrorCode)
      requires Valid()
      modifies channelSettings
      ensures Valid()
      ensures e == (if bw <= MaxBw then Success else IllegalWriteValue)
      ensures e == Success ==> forall i :: 0 <= i < ChannelsPerChain ==> channelSettings[i] == old(channelSettings[i]).(bw := bw)
      ensures e != Success ==> channelSettings[..] == old(channelSettings[..])
    {
      if bw > MaxBw {
        return IllegalWriteValue;
      }
      for i := 0 to ChannelsPerChain
        invariant forall j :: 0 <= j < i ==> channelSettings[j] == old(channelSettings[j]).(bw := bw)
        invariant forall j :: i <= j < ChannelsPerChain ==> channelSettings[j] == old(channelSettings[j])
      {
        channelSettings[i] := channelSettings[i].(bw := bw);
      }
      e := Success;
    }

    method SetAllMode(mode: bool) returns (e: ErrorCode)
      requires Valid()
      modifies channelSettings
      ensures Valid()
      ensures e == Success
      ensures forall i :: 0 <= i < ChannelsPerChain ==> channelSettings[i] == old(channelSettings[i]).(mode := mode)
    {
      for i := 0 to ChannelsPerChain
        invariant forall j :: 0 <= j < i ==> channelSettings[j] == old(channelSettings[j]).(mode := mode)
        invariant forall j :: i <= j < ChannelsPerChain ==> channelSettings[j] == old(channelSettings[j])
      {
        channelSettings[i] := channelSettings[i].(mode := mode);
      }
      e := Success;
    }

    method SetAllGain(gain: uint8) returns (e: ErrorCode)
      requires Valid()
      modifies channelSettings
      ensures Valid()
      ensures e == (if gain <= MaxGain then Success else IllegalWriteValue)
      ensures e == Success ==> forall i :: 0 <= i < ChannelsPerChain ==> channelSettings[i] == old(channelSettings[i]).(gain := gain)
      ensures e != Success ==> channelSettings[..] == old(channelSettings[..])
    {
      if gain > MaxGain {
        return IllegalWriteValue;
      }
      for i := 0 to ChannelsPerChain
        invariant forall j :: 0 <= j < i ==> channelSettings[j] == old(channelSettings[j]).(gain := gain)
        invariant forall j :: i <= j < ChannelsPerChain ==> channelSettings[j] == old(channelSettings[j])
      {
        channelSettings[i] := channelSettings[i].(gain := gain);
      }
      e := Success;
    }

    method SetAllStdb(stdb: bool) returns (e: ErrorCode)
      requires Valid()
      modifies channelSettings
      ensures Valid()
      ensures e == Success
      ensures forall i :: 0 <= i < ChannelsPerChain ==> channelSettings[i] == old(channelSettings[i]).(stdb := stdb)
    {
      for i := 0 to ChannelsPerChain
        invariant forall j :: 0 <= j < i ==> channelSettings[j] == old(channelSettings[j]).(stdb := stdb)
        invariant forall j :: i <= j < ChannelsPerChain ==> channelSettings[j] == old(channelSettings[j])
      {
        channelSettings[i] := channelSettings[i].(stdb := stdb);
      }
      e := Success;
    }

    /** setAllRefSel: every channel except the reference channels. */
    method SetAllRefSel(refSel: RefSel) returns (e: ErrorCode)
      requires Valid()
      modifies dmux
      ensures Valid()
      ensures e == Success
      ensures forall i :: 0 <= i < ChannelsPerChain ==>
        dmux[i] == if IsReferenceChannel(i) then old(dmux[i]) else old(dmux[i]).(refSel := refSel)
    {
      for i := 0 to ChannelsPerChain
        invariant forall j :: 0 <= j < i ==>
          dmux[j] == if IsReferenceChannel(j) then old(dmux[j]) else old(dmux[j]).(refSel := refSel)
        invariant forall j :: i <= j < ChannelsPerChain ==> dmux[j] == old(dmux[j])
      {
        if !IsReferenceChannel(i) {
          dmux[i] := dmux[i].(refSel := refSel);
        }
      }
      e := Success;
    }

    method SetAllDmuxSel(dmuxSel: DmuxSel) returns (e: ErrorCode)
      requires Valid()
      modifies dmux
      ensures Valid()
      ensures e == Success
      ensures forall i :: 0 <= i < ChannelsPerChain ==> dmux[i] == old(dmux[i]).(dmuxSel := dmuxSel)
    {
      for i := 0 to ChannelsPerChain
        invariant forall j :: 0 <= j < i ==> dmux[j] == old(dmux[j]).(dmuxSel := dmuxSel)
        invariant forall j :: i <= j < ChannelsPerChain ==> dmux[j] == old(dmux[j])
      {
        dmux[i] := dmux[i].(dmuxSel := dmuxSel);
      }
      e := Success;
    }

    /** setSlopeCal: slope, fine and coarse of one pair; cfix is kept. */
    method SetSlopeCal(n: nat, slope: uint8, fine: uint8, coarse: uint8) returns (e: ErrorCode)
      requires Valid()
      modifies adcCommon
      ensures Valid()
      ensures WriteOutcome(n < AdcPairsPerChain, AdcOutOfRange,
                           slope <= MaxPairField && fine <= MaxPairField && coarse <= MaxPairField, e)
      ensures e == Success ==> adcCommon[..] == old(adcCommon[..])[n := WithSlopeCal(old(adcCommon[n]), slope, fine, coarse)]
      ensures e != Success ==> forall i :: 0 <= i < AdcPairsPerChain && i != n ==> adcCommon[i] == old(adcCommon[i])
      ensures e != Success && n < AdcPairsPerChain ==>
        PairAfterFailure(old(adcCommon[n]), WithSlopeCal(old(adcCommon[n]), slope, fine, coarse), adcCommon[n])
    {
      if n >= AdcPairsPerChain {
        return AdcOutOfRange;
      }
      if slope > MaxPairField || fine > MaxPairField || coarse > MaxPairField {
        return IllegalWriteValue;
      }
      adcCommon[n] := WithSlopeCal(adcCommon[n], slope, fine, coarse);
      e := Success;
    }

    method SetAllSlopeCal(slope: uint8, fine: uint8, coarse: uint8) returns (e: ErrorCode)
      requires Valid()
      modifies adcCommon
      ensures Valid()
      ensures e == (if slope <= MaxPairField && fine <= MaxPairField && coarse <= MaxPairField then Success else IllegalWriteValue)
      ensures e == Success ==> forall i :: 0 <= i < AdcPairsPerChain ==> adcCommon[i] == WithSlopeCal(old(adcCommon[i]), slope, fine, coarse)
      ensures e != Success ==> forall i :: 0 <= i < AdcPairsPerChain ==>
        PairAfterFailure(old(adcCommon[i]), WithSlopeCal(old(adcCommon[i]), slope, fine, coarse), adcCommon[i])
    {
      if slope > MaxPairField || fine > MaxPairField || coarse > MaxPairField {
        return IllegalWriteValue;
      }
      for i := 0 to AdcPairsPerChain
        invariant forall j :: 0 <= j < i ==> adcCommon[j] == WithSlopeCal(old(adcCommon[j]), slope, fine, coarse)
        invariant forall j :: i <= j < AdcPairsPerChain ==> adcCommon[j] == old(adcCommon[j])
      {
        adcCommon[i] := WithSlopeCal(adcCommon[i], slope, fine, coarse);
      }
      e := Success;
    }

    method SetAllCfix(cfix: uint8) returns (e: ErrorCode)
      requires Valid()
      modifies adcCommon
      ensures Valid()
      ensures e == (if cfix <= MaxPairField then Success else IllegalWriteValue)
      ensures e == Success ==> forall i :: 0 <= i < AdcPairsPerChain ==> adcCommon[i] == old(adcCommon[i]).(cfix := cfix)
      ensures e != Success ==> adcCommon[..] == old(adcCommon[..])
    {
      if cfix > MaxPairField {
        return IllegalWriteValue;
      }
      for i := 0 to AdcPairsPerChain
        invariant forall j :: 0 <= j < i ==> adcCommon[j] == old(adcCommon[j]).(cfix := cfix)
        invariant forall j :: i <= j < AdcPairsPerChain ==> adcCommon[j] == old(adcCommon[j])
      {
        adcCommon[i] := adcCommon[i].(cfix := cfix);
      }
      e := Success;
    }

    // ----- whole records -----

    method GetAdcPair(n: nat) returns (e: ErrorCode, pair: AdcPairCommon)
      requires Valid()
      ensures e == (if n < AdcPairsPerChain then Success else AdcOutOfRange)
      ensures e == Success ==> pair == adcCommon[n] && ValidPair(pair)
    {
      if n >= AdcPairsPerChain {
        return AdcOutOfRange, AdcPairCommon(0, 0, 0, 0);
      }
      e, pair := Success, adcCommon[n];
    }

    method SetAdcPair(n: nat, pair: AdcPairCommon) returns (e: ErrorCode)
      requires Valid()
      modifies adcCommon
      ensures Valid()
      ensures WriteOutcome(n < AdcPairsPerChain, AdcOutOfRange, ValidPair(pair), e)
      ensures e == Success ==> adcCommon[..] == old(adcCommon[..])[n := pair]
      ensures e != Success ==> forall i :: 0 <= i < AdcPairsPerChain && i != n ==> adcCommon[i] == old(adcCommon[i])
      ensures e != Success && n < AdcPairsPerChain ==> PairAfterFailure(old(adcCommon[n]), pair, adcCommon[n])
    {
      if n >= AdcPairsPerChain {
        return AdcOutOfRange;
      }
      if !ValidPair(pair) {
        return IllegalWriteValue;
      }
      adcCommon[n] := pair;
      e := Success;
    }

    method GetAdcComp(n: nat) returns (e: ErrorCode, comp: AdcComp)
      requires Valid()
      ensures e == (if n < AdcsPerChain then Success else AdcOutOfRange)
      ensures e == Success ==> comp == adcComp[n] && ValidComp(comp)
    {
      if n >= AdcsPerChain {
        return AdcOutOfRange, AdcComp(0, 0);
      }
      e, comp := Success, adcComp[n];
    }

    method SetAdcComp(n: nat, comp: AdcComp) returns (e: ErrorCode)
      requires Valid()
      modifies adcComp
      ensures Valid()
      ensures WriteOutcome(n < AdcsPerChain, AdcOutOfRange, ValidComp(comp), e)
      ensures e == Success ==> adcComp[..] == old(adcComp[..])[n := comp]
      ensures e != Success ==> forall i :: 0 <= i < AdcsPerChain && i != n ==> adcComp[i] == old(adcComp[i])
      ensures e != Success && n < AdcsPerChain ==> CompAfterFailure(old(adcComp[n]), comp, adcComp[n])
    {
      if n >= AdcsPerChain {
        return AdcOutOfRange;
      }
      if !ValidComp(comp) {
        return IllegalWriteValue;
      }
      adcComp[n] := comp;
      e := Success;
    }

    // ----- comparison -----

    /** operator==: member-wise comparison. */
    predicate Equals(other: ChannelConfiguration)
      reads this, dmux, channelSettings, adcComp, adcCommon
      reads other, other.dmux, other.channelSettings, other.adcComp, other.adcCommon
      ensures Equals(other) <==> State() == other.State() && hasExternalReferences == other.hasExternalReferences
    {
      && dmux[..] == other.dmux[..]
      && channelSettings[..] == other.channelSettings[..]
      && adcComp[..] == other.adcComp[..]
      && adcCommon[..] == other.adcCommon[..]
      && dmuxExt == other.dmuxExt
      && hasExternalReferences == other.hasExternalReferences
    }

    /** operator!=: the negation of operator==. */
    predicate NotEquals(other: ChannelConfiguration)
      reads this, dmux, channelSettings, adcComp, adcCommon
      reads other, other.dmux, other.channelSettings, other.adcComp, other.adcCommon
      ensures NotEquals(other) <==> State() != other.State() || hasExternalReferences != other.hasExternalReferences
    {
      !Equals(other)
    }
  }

  /** Member-wise equality is an equivalence relation. */
  lemma EqualsIsEquivalence(a: ChannelConfiguration, b: ChannelConfiguration, c: ChannelConfiguration)
    ensures a.Equals(a)
    ensures a.Equals(b) ==> b.Equals(a)
    ensures a.Equals(b) && b.Equals(c) ==> a.Equals(c)
  {
  }
}
