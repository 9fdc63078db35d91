/** Validation and translation of the host's gs_device_bittiming into the
    driver's twai_timing_config_t. Both copies of the bus state machine run
    the same steps: tseg_1 = prop_seg + phase_seg1 computed in uint32_t,
    tseg_2 = phase_seg2, each stored into a field of the assumed width, and a
    rejection only when tseg_1 > 16 or tseg_2 > 8. sjw and brp are copied
    without any check. */
module BitTiming {
  import opened GsUsb
  import opened Twai

  const TSEG1_LIMIT: uint32 := 16
  const TSEG2_LIMIT: uint32 := 8

  /** uint32_t addition: the sum modulo 2^32. */
  function AddU32(a: uint32, b: uint32): (r: uint32)
    ensures a + b < 0x1_0000_0000 ==> r == a + b
    ensures a + b >= 0x1_0000_0000 ==> r == a + b - 0x1_0000_0000
  {
    (a + b) % 0x1_0000_0000
  }

  datatype Translation = Accepted(config: TimingConfig) | Rejected

  /** The timing configuration the code builds, before it is checked:
      tseg_1 from the wrapped sum, every segment cut to the field width. */
  function TimingOf(bt: DeviceBitTiming, w: FieldWidth): (t: TimingConfig)
    ensures t.brp == bt.brp && !t.tripleSampling
    ensures t.tseg1 == Narrow(AddU32(bt.propSeg, bt.phaseSeg1), w)
    ensures t.tseg2 == Narrow(bt.phaseSeg2, w) && t.sjw == Narrow(bt.sjw, w)
  {
    TimingConfig(bt.brp, Narrow(AddU32(bt.propSeg, bt.phaseSeg1), w), Narrow(bt.phaseSeg2, w),
                 Narrow(bt.sjw, w), false)
  }

  /** Rejects exactly when a segment exceeds the peripheral's limit; an
      accepted configuration is the one built from the host's values, so
      its segments are within the limits. */
  function Translate(bt: DeviceBitTiming, w: FieldWidth): (r: Translation)
    ensures r.Accepted? <==> TimingOf(bt, w).tseg1 <= TSEG1_LIMIT && TimingOf(bt, w).tseg2 <= TSEG2_LIMIT
    ensures r.Accepted? ==> r.config == TimingOf(bt, w)
    ensures r.Accepted? ==> r.config.tseg1 <= TSEG1_LIMIT && r.config.tseg2 <= TSEG2_LIMIT
  {
    var t := TimingOf(bt, w);
    if t.tseg1 > TSEG1_LIMIT || t.tseg2 > TSEG2_LIMIT then Rejected else Accepted(t)
  }

  /** With 32-bit fields: rejected exactly when (prop_seg + phase_seg1) mod 2^32
      exceeds 16 or phase_seg2 exceeds 8, and an accepted configuration
      carries that sum, phase_seg2, sjw and brp unchanged. */
  lemma TranslateWide(bt: DeviceBitTiming)
    ensures Translate(bt, Width32).Rejected? <==>
      (bt.propSeg + bt.phaseSeg1) % 0x1_0000_0000 > 16 || bt.phaseSeg2 > 8
    ensures Translate(bt, Width32).Accepted? ==>
      Translate(bt, Width32).config ==
        TimingConfig(bt.brp, (bt.propSeg + bt.phaseSeg1) % 0x1_0000_0000, bt.phaseSeg2, bt.sjw, false)
  {
  }

  /** When prop_seg + phase_seg1 is at most 16 and phase_seg2 at most 8, the
      timing is accepted whatever the field width, and tseg_1 is exactly the sum. */
  lemma TranslateInRange(bt: DeviceBitTiming, w: FieldWidth)
    requires bt.propSeg + bt.phaseSeg1 <= 16 && bt.phaseSeg2 <= 8
    ensures Translate(bt, w).Accepted?
    ensures Translate(bt, w).config.tseg1 == bt.propSeg + bt.phaseSeg1
    ensures Translate(bt, w).config.tseg2 == bt.phaseSeg2
  {
  }

  /** The sum wraps: a huge prop_seg gives a small tseg_1 and is accepted. */
  lemma WrappedSumAccepted()
    ensures Translate(DeviceBitTiming(0xFFFF_FFFF, 2, 1, 1, 1), Width32)
         == Accepted(TimingConfig(1, 1, 1, 1, false))
  {
  }

  /** With 8-bit fields, a phase_seg2 of 264 is stored as 8 and accepted. */
  lemma NarrowFieldAcceptsLargePhaseSeg2()
    ensures Translate(DeviceBitTiming(1, 3, 264, 1, 10), Width8)
         == Accepted(TimingConfig(10, 4, 8, 1, false))
  {
  }

  /** Acceptance depends on the three segment fields only: sjw and brp are
      never checked, whatever the advertised sjw_max and brp range. */
  lemma SjwAndBrpUnchecked(bt: DeviceBitTiming, bt': DeviceBitTiming, w: FieldWidth)
    requires bt'.propSeg == bt.propSeg && bt'.phaseSeg1 == bt.phaseSeg1 && bt'.phaseSeg2 == bt.phaseSeg2
    ensures Translate(bt', w).Accepted? <==> Translate(bt, w).Accepted?
  {
  }

  /** prop_seg 1, phase_seg1 3, phase_seg2 2, sjw 1, brp 10 give tseg_1 4 and tseg_2 2. */
  lemma ExampleTiming(w: FieldWidth)
    ensures Translate(DeviceBitTiming(1, 3, 2, 1, 10), w) == Accepted(TimingConfig(10, 4, 2, 1, false))
  {
  }
}
