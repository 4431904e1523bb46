/**
 * The extended DAC driver of the STM32F7 HAL: reading and writing both channels
 * with one 32-bit access, switching a channel to triangle or noise generation by a
 * read-modify-write of the control register, and the channel-2 DMA callbacks.
 *
 * The register bit masks and the alignment selectors are defined in device headers
 * that are not part of this model; they are carried as a `DacConstants` value.
 */
module DacEx {
  /** The device constants the functions use. */
  datatype DacConstants = DacConstants(
    wave1: bv32,        // DAC_CR_WAVE1: wave generation selector of channel 1
    mamp1: bv32,        // DAC_CR_MAMP1: mask/amplitude selector of channel 1
    wave1_0: bv32,      // DAC_CR_WAVE1_0: noise generation
    wave1_1: bv32,      // DAC_CR_WAVE1_1: triangle generation
    align8BR: bv32,     // DAC_ALIGN_8B_R
    errorDma: bv32)     // HAL_DAC_ERROR_DMA

  /** DAC_CHANNEL_1 (0) or DAC_CHANNEL_2 (16): the amount a channel-1 field is shifted by to reach the channel's field. */
  datatype Channel = Channel1 | Channel2

  /** `field << Channel`. */
  function ToChannel(field: bv32, channel: Channel): bv32
  {
    match channel
    case Channel1 => field
    case Channel2 => field << 16
  }

  /** `HAL_DAC_StateTypeDef`. */
  datatype DacState = Reset | Ready | Busy | Timeout | Error

  /** `HAL_StatusTypeDef`. */
  datatype HalStatus = Ok | HalError | HalBusy | HalTimeout

  // ---------------------------------------------------------------------------
  // Register arithmetic.

  /** HAL_DACEx_DualGetValue: DOR1 in the low half-word, DOR2 shifted into the high one. */
  function DualOutput(dor1: bv32, dor2: bv32): (r: bv32)
  {
    dor1 | (dor2 << 16)
  }

  /** The value HAL_DACEx_DualSetValue writes: Data2 above Data1, 8 bits apart for 8-bit right alignment, 16 otherwise. */
  function DualData(align8BR: bool, data1: bv32, data2: bv32): (r: bv32)
  {
    if align8BR then (data2 << 8) | data1 else (data2 << 16) | data1
  }

  /** Width of one channel's lane in a dual value. */
  function LaneWidth(align8BR: bool): nat
  {
    if align8BR then 8 else 16
  }

  /** The channel-1 lane of a dual value. */
  function Lane1(align8BR: bool, v: bv32): bv32
  {
    if align8BR then v & 0xFF else v & 0xFFFF
  }

  /** The channel-2 lane of a dual value. */
  function Lane2(align8BR: bool, v: bv32): bv32
  {
    if align8BR then (v >> 8) & 0xFF else v >> 16
  }

  /** The two channel outputs read back from the dual value, when each fits in its half-word. */
  lemma DualOutputLanes(dor1: bv32, dor2: bv32)
    requires dor1 < 0x1_0000 && dor2 < 0x1_0000
    ensures Lane1(false, DualOutput(dor1, dor2)) == dor1
    ensures Lane2(false, DualOutput(dor1, dor2)) == dor2
  {
  }

  /** Each channel's data is recovered from its lane of the dual value when it fits the lane. */
  lemma DualDataLanes8(data1: bv32, data2: bv32)
    requires data1 < 0x100 && data2 < 0x100
    ensures Lane1(true, DualData(true, data1, data2)) == data1
    ensures Lane2(true, DualData(true, data1, data2)) == data2
  {
  }

  /** The same for the 12-bit alignments, whose lanes are half-words. */
  lemma DualDataLanes16(data1: bv32, data2: bv32)
    requires data1 < 0x1_0000 && data2 < 0x1_0000
    ensures Lane1(false, DualData(false, data1, data2)) == data1
    ensures Lane2(false, DualData(false, data1, data2)) == data2
  {
  }

  /** A channel-1 value wider than its lane spills into the channel-2 lane: 0x100 with 8-bit alignment reads back as channel 2 = 1. */
  lemma WideData1Spills()
    ensures Lane1(true, DualData(true, 0x100, 0)) == 0 && Lane2(true, DualData(true, 0x100, 0)) == 1
  {
  }

  /** MODIFY_REG: the bits under `clearMask` are cleared, then the bits of `setMask` are set. */
  function ModifyReg(reg: bv32, clearMask: bv32, setMask: bv32): bv32
  {
    (reg & !clearMask) | setMask
  }

  /** Bits outside both masks keep their values. */
  lemma ModifyRegKeepsOthers(reg: bv32, clearMask: bv32, setMask: bv32)
    ensures ModifyReg(reg, clearMask, setMask) & !(clearMask | setMask) == reg & !(clearMask | setMask)
  {
  }

  /** When the new value lies within the cleared field, the field reads back as exactly that value. */
  lemma ModifyRegSetsField(reg: bv32, clearMask: bv32, setMask: bv32)
    requires setMask & !clearMask == 0
    ensures ModifyReg(reg, clearMask, setMask) & clearMask == setMask
  {
  }

  /** The control-register field of a channel that selects and shapes the generated wave. */
  function WaveMask(k: DacConstants, channel: Channel): bv32
  {
    ToChannel(k.wave1 | k.mamp1, channel)
  }

  /** The field value selecting `wave` (triangle or noise) with the given amplitude or LFSR mask. */
  function WaveValue(wave: bv32, amplitude: bv32, channel: Channel): bv32
  {
    ToChannel(wave | amplitude, channel)
  }

  /** Two values inside their masks together lie inside the union of the masks. */
  lemma UnionWithin(a: bv32, b: bv32, maskA: bv32, maskB: bv32)
    requires a & !maskA == 0 && b & !maskB == 0
    ensures (a | b) & !(maskA | maskB) == 0
  {
  }

  /** With the wave selector and the amplitude inside their device masks, the field value lies inside the channel's field. */
  lemma WaveValueWithin(k: DacConstants, wave: bv32, amplitude: bv32, channel: Channel)
    requires wave & !k.wave1 == 0 && amplitude & !k.mamp1 == 0
    ensures WaveValue(wave, amplitude, channel) & !WaveMask(k, channel) == 0
  {
    match channel
    case Channel1 =>
    case Channel2 =>
  }

  /**
   * With the device's selectors inside the masks, wave generation rewrites exactly
   * the channel's field: the field afterwards holds the selector and the amplitude.
   */
  lemma WaveFieldSet(k: DacConstants, cr: bv32, wave: bv32, amplitude: bv32, channel: Channel)
    requires wave & !k.wave1 == 0 && amplitude & !k.mamp1 == 0
    ensures ModifyReg(cr, WaveMask(k, channel), WaveValue(wave, amplitude, channel)) & WaveMask(k, channel)
      == WaveValue(wave, amplitude, channel)
  {
    match channel
    case Channel1 =>
    case Channel2 =>
  }

  /** Every control bit outside the channel's wave field, including the other channel's, is unchanged. */
  lemma WaveFieldOnly(k: DacConstants, cr: bv32, wave: bv32, amplitude: bv32, channel: Channel)
    requires wave & !k.wave1 == 0 && amplitude & !k.mamp1 == 0
    ensures ModifyReg(cr, WaveMask(k, channel), WaveValue(wave, amplitude, channel)) & !WaveMask(k, channel)
      == cr & !WaveMask(k, channel)
  {
    match channel
    case Channel1 =>
    case Channel2 =>
  }

  /** The address of the dual holding register: the peripheral base plus the register's offset, in 32-bit arithmetic. */
  function HoldingAddress(base: bv32, offset: bv32): bv32
  {
    base + offset
  }

  /** The DAC handle and the part of the peripheral the functions touch. */
  class Dac {
    var state: DacState
    var locked: bool             // hdac->Lock
    var errorCode: bv32          // hdac->ErrorCode
    var cr: bv32                 // Instance->CR
    var dor1: bv32               // Instance->DOR1
    var dor2: bv32               // Instance->DOR2
    var instance: bv32           // the peripheral's base address
    var written: map<bv32, bv32> // 32-bit writes made through computed addresses, by address

    /**
     * A DAC_HandleTypeDef as the application declares it (zero-initialised, built
     * outside this file), whose Instance points at the peripheral at `base`.
     */
    constructor (base: bv32)
      ensures state == Reset && !locked && errorCode == 0 && instance == base && written == map[]
      ensures cr == 0 && dor1 == 0 && dor2 == 0
    {
      state, locked, errorCode := Reset, false, 0;
      cr, dor1, dor2 := 0, 0, 0;
      instance, written := base, map[];
    }

    /** HAL_DACEx_DualGetValue. */
    method DualGetValue() returns (v: bv32)
      ensures dor1 < 0x1_0000 && dor2 < 0x1_0000 ==> Lane1(false, v) == dor1 && Lane2(false, v) == dor2
    {
      v := DualOutput(dor1, dor2);
      if dor1 < 0x1_0000 && dor2 < 0x1_0000 {
        DualOutputLanes(dor1, dor2);
      }
    }

    /**
     * The body shared by HAL_DACEx_TriangleWaveGenerate and
     * HAL_DACEx_NoiseWaveGenerate: take the lock (or return busy), rewrite the
     * channel's wave field, and end ready and unlocked.
     */
    method WaveGenerate(k: DacConstants, channel: Channel, wave: bv32, amplitude: bv32) returns (status: HalStatus)
      modifies this
      ensures old(locked) ==> status == HalBusy && state == old(state) && cr == old(cr) && locked
      ensures !old(locked) ==> status == Ok && state == Ready && !locked
      ensures !old(locked) ==> cr == ModifyReg(old(cr), WaveMask(k, channel), WaveValue(wave, amplitude, channel))
      ensures errorCode == old(errorCode) && dor1 == old(dor1) && dor2 == old(dor2)
      ensures instance == old(instance) && written == old(written)
    {
      if locked {
        return HalBusy;
      }
      locked := true;
      state := Busy;
      cr := ModifyReg(cr, WaveMask(k, channel), WaveValue(wave, amplitude, channel));
      state := Ready;
      locked := false;
      status := Ok;
    }

    /** HAL_DACEx_TriangleWaveGenerate: wave selector WAVE1_1. */
    method TriangleWaveGenerate(k: DacConstants, channel: Channel, amplitude: bv32) returns (status: HalStatus)
      modifies this
      ensures old(locked) ==> status == HalBusy && state == old(state) && cr == old(cr) && locked
      ensures !old(locked) ==> status == Ok && state == Ready && !locked
      ensures !old(locked) ==> cr == ModifyReg(old(cr), WaveMask(k, channel), WaveValue(k.wave1_1, amplitude, channel))
      ensures errorCode == old(errorCode) && written == old(written)
      ensures dor1 == old(dor1) && dor2 == old(dor2) && instance == old(instance)
    {
      status := WaveGenerate(k, channel, k.wave1_1, amplitude);
    }

    /** HAL_DACEx_NoiseWaveGenerate: wave selector WAVE1_0. */
    method NoiseWaveGenerate(k: DacConstants, channel: Channel, amplitude: bv32) returns (status: HalStatus)
      modifies this
      ensures old(locked) ==> status == HalBusy && state == old(state) && cr == old(cr) && locked
      ensures !old(locked) ==> status == Ok && state == Ready && !locked
      ensures !old(locked) ==> cr == ModifyReg(old(cr), WaveMask(k, channel), WaveValue(k.wave1_0, amplitude, channel))
      ensures errorCode == old(errorCode) && written == old(written)
      ensures dor1 == old(dor1) && dor2 == old(dor2) && instance == old(instance)
    {
      status := WaveGenerate(k, channel, k.wave1_0, amplitude);
    }

    /**
     * HAL_DACEx_DualSetValue: `holdingOffset` is DAC_DHR12RD_ALIGNMENT(alignment),
     * the offset of the dual holding register for that alignment; the address is
     * computed in 32-bit arithmetic.
     */
    method DualSetValue(k: DacConstants, alignment: bv32, holdingOffset: bv32, data1: bv32, data2: bv32)
      returns (status: HalStatus)
      modifies this
      ensures status == Ok
      ensures written == old(written)[HoldingAddress(instance, holdingOffset) := DualData(alignment == k.align8BR, data1, data2)]
      ensures state == old(state) && locked == old(locked) && cr == old(cr) && errorCode == old(errorCode)
      ensures dor1 == old(dor1) && dor2 == old(dor2) && instance == old(instance)
    {
      written := written[HoldingAddress(instance, holdingOffset) := DualData(alignment == k.align8BR, data1, data2)];
      status := Ok;
    }

    /** DAC_DMAConvCpltCh2: the user callback (empty by default) runs, then the handle is ready. */
    method DmaConvCpltCh2()
      modifies this
      ensures state == Ready
      ensures locked == old(locked) && errorCode == old(errorCode) && cr == old(cr) && written == old(written)
      ensures dor1 == old(dor1) && dor2 == old(dor2) && instance == old(instance)
    {
      state := Ready;
    }

    /** DAC_DMAErrorCh2: the DMA error flag is added to the error code, earlier flags kept, and the handle is ready. */
    method DmaErrorCh2(k: DacConstants)
      modifies this
      ensures errorCode == old(errorCode) | k.errorDma
      ensures state == Ready
      ensures locked == old(locked) && cr == old(cr) && written == old(written)
      ensures dor1 == old(dor1) && dor2 == old(dor2) && instance == old(instance)
    {
      errorCode := errorCode | k.errorDma;
      state := Ready;
    }
  }

  /** Error flags only accumulate: after a DMA error both the earlier flags and the DMA flag are set. */
  lemma ErrorFlagsAccumulate(errorCode: bv32, flag: bv32)
    ensures (errorCode | flag) & errorCode == errorCode
    ensures (errorCode | flag) & flag == flag
  {
  }
}
