/**
 * The general-configuration shift register of the probe
 * (GeneralConfiguration.h): twelve named switches and the thirteen
 * bias-enable bits of the shank regions, with index-checked accessors that
 * report a GeneralConfigErrorCode.
 */
module GeneralConfig {

  /** The length of Bias_pix_EN: twelve shank regions plus one. */
  const BiasPixEnBits: nat := 13

  /** GeneralConfiguration::bitsize, the length of the shift-register chain. */
  const BitSize: nat := 53

  datatype ErrorCode = Success | SrError | RangeError
  {
    /** The numeric value of the C enumerator. */
    function Code(): (c: nat)
      ensures c <= 2
      ensures c == 0 <==> this == Success
    {
      match this
      case Success => 0
      case SrError => 1
      case RangeError => 2
    }
  }

  /** The twelve named switches of a general configuration. */
  datatype Switches = Switches(
    selPixBias: bool, sarCal: bool, sarCalInt: bool, disconnectIn: bool,
    rOn: bool, cOn: bool, ocEn: bool, freqGlobal: bool,
    impEnGlobal: bool, pX2: bool, nrstBg: bool, selBias: bool)

  /** Every member of a general configuration, as one value. */
  datatype GeneralState = GeneralState(switches: Switches, biasPixEn: seq<bool>)

  predicate ValidState(s: GeneralState) { |s.biasPixEn| == BiasPixEnBits }

  /** Switch-by-switch comparison. */
  predicate SameSwitches(a: Switches, b: Switches)
    ensures SameSwitches(a, b) <==> a == b
  {
    && a.selPixBias == b.selPixBias && a.sarCal == b.sarCal
    && a.sarCalInt == b.sarCalInt && a.disconnectIn == b.disconnectIn
    && a.rOn == b.rOn && a.cOn == b.cOn && a.ocEn == b.ocEn
    && a.freqGlobal == b.freqGlobal && a.impEnGlobal == b.impEnGlobal
    && a.pX2 == b.pX2 && a.nrstBg == b.nrstBg && a.selBias == b.selBias
  }

  /** Member-by-member comparison of two general configurations. */
  predicate SameMembers(s: GeneralState, t: GeneralState)
    ensures SameMembers(s, t) <==> s == t
  {
    SameSwitches(s.switches, t.switches) && s.biasPixEn == t.biasPixEn
  }

  class GeneralConfiguration {
    /**
     * The twelve boolean members (selPixBias … selBias), kept together as one
     * record; each setter replaces the one member it names.
     */
    var switches: Switches
    const biasPixEn: array<bool>

    function State(): GeneralState
      reads this, biasPixEn
    {
      GeneralState(switches, biasPixEn[..])
    }

    ghost predicate Valid()
      reads this
    {
      biasPixEn.Length == BiasPixEnBits
    }

    /**
     * A configuration in the state that reset() installs. The default values
     * are not stated in the header, so they are a parameter.
     */
    constructor (defaults: GeneralState)
      requires ValidState(defaults)
      ensures Valid() && State() == defaults && fresh(biasPixEn)
    {
      biasPixEn := new bool[BiasPixEnBits](i requires 0 <= i < BiasPixEnBits => defaults.biasPixEn[i]);
      switches := defaults.switches;
      new;
      assert biasPixEn[..] == defaults.biasPixEn;
    }

    /** Writes every member from s. */
    method Load(s: GeneralState)
      requires Valid() && ValidState(s)
      modifies this, biasPixEn
      ensures Valid() && State() == s
    {
      forall i | 0 <= i < BiasPixEnBits {
        biasPixEn[i] := s.biasPixEn[i];
      }
      assert biasPixEn[..] == s.biasPixEn;
      switches := s.switches;
    }

    /** reset(): every member back to its default value. */
    method Reset(defaults: GeneralState)
      requires Valid() && ValidState(defaults)
      modifies this, biasPixEn
      ensures Valid() && State() == defaults
    {
      Load(defaults);
    }

    /**
     * getGeneralConfigFromChain: decodes a chain into the members. The bit
     * layout is not given, so decoding is the parameter `decode`; it cannot
     * fail, since the only documented error is a shift-register error,
     * which `srFailure` stands for.
     */
    method GetGeneralConfigFromChain(chain: seq<bool>, srFailure: bool, decode: seq<bool> -> GeneralState)
      returns (e: ErrorCode)
      requires Valid() && ValidState(decode(chain))
      modifies this, biasPixEn
      ensures Valid()
      ensures e == (if srFailure then SrError else Success)
      ensures e == Success ==> State() == decode(chain)
      ensures e != Success ==> State() == old(State())
    {
      if srFailure {
        return SrError;
      }
      Load(decode(chain));
      e := Success;
    }

    /** getChain: encodes the members into a chain of BitSize bits. */
    method GetChain(srFailure: bool, encode: GeneralState -> seq<bool>) returns (e: ErrorCode, chain: seq<bool>)
      requires Valid() && |encode(State())| == BitSize
      ensures e == (if srFailure then SrError else Success)
      ensures e == Success ==> |chain| == BitSize && chain == encode(State())
    {
      if srFailure {
        return SrError, [];
      }
      e, chain := Success, encode(State());
    }

    method GetBiasPixEnBit(index: nat) returns (e: ErrorCode, bit: bool)
      requires Valid()
      ensures e == (if index < BiasPixEnBits then Success else RangeError)
      ensures e == Success ==> bit == biasPixEn[index]
    {
      if index >= BiasPixEnBits {
        return RangeError, false;
      }
      e, bit := Success, biasPixEn[index];
    }

    /** setBiasPixEnBit: one bit of biasPixEn; the named switches stay as they are. */
    method SetBiasPixEnBit(index: nat, bit: bool) returns (e: ErrorCode)
      requires Valid()
      modifies biasPixEn
      ensures Valid()
      ensures e == (if index < BiasPixEnBits then Success else RangeError)
      ensures e == Success ==> State() == old(State()).(biasPixEn := old(biasPixEn[..])[index := bit])
      ensures e != Success ==> State() == old(State())
    {
      if index >= BiasPixEnBits {
        return RangeError;
      }
      biasPixEn[index] := bit;
      e := Success;
    }

    /** getTestInputEnBit: the freqGlobal switch. */
    method GetTestInputEnBit() returns (e: ErrorCode, bit: bool)
      ensures e == Success && bit == switches.freqGlobal
    {
      e, bit := Success, switches.freqGlobal;
    }

    /** setTestInputEnBit: the freqGlobal switch, and nothing else. */
    method SetTestInputEnBit(bit: bool) returns (e: ErrorCode)
      requires Valid()
      modifies this
      ensures Valid()
      ensures e == Success && State() == old(State()).(switches := old(switches).(freqGlobal := bit))
    {
      switches := switches.(freqGlobal := bit);
      e := Success;
    }

    /** operator==: member-wise comparison. */
    predicate Equals(other: GeneralConfiguration)
      reads this, biasPixEn, other, other.biasPixEn
      ensures Equals(other) <==> State() == other.State()
    {
      SameMembers(State(), other.State())
    }

    /** operator!=: the negation of operator==. */
    predicate NotEquals(other: GeneralConfiguration)
      reads this, biasPixEn, other, other.biasPixEn
      ensures NotEquals(other) <==> State() != other.State()
    {
      !Equals(other)
    }
  }
}
