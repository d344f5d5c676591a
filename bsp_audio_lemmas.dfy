/**
 * Properties of the audio driver's state machine that relate several calls:
 * the two sides stay consistent over any sequence of calls, every call moves
 * each side only along the edges of its state diagram, pause/resume,
 * play/stop and init/deinit undo each other, the shared codec and clock are
 * set up and torn down only by the side that is alone, and IN_Init as written
 * lets the two sides disagree on the sample width.
 */
module BspAudioLemmas {
  import opened BspAudio

  /** One call of the public API that can change a context, with its oracles. */
  datatype Call =
    | CallOutInit(instance: u32, cfg: AudioInit<OutDevice>, probeOk: bool, clockOk: bool,
                  saiInitOk: bool, codecInitOk: bool)
    | CallOutDeInit(instance: u32, saiDeInitOk: bool, codecDeInitOk: bool)
    | CallOutPlay(instance: u32, hasData: bool, saiTxOk: bool, codecPlayOk: bool)
    | CallOutPause(instance: u32, codecOk: bool, saiOk: bool)
    | CallOutResume(instance: u32, codecOk: bool, saiOk: bool)
    | CallOutStop(instance: u32, codecOk: bool, saiOk: bool)
    | CallOutSetMute(instance: u32, mute: bool, codecOk: bool)
    | CallOutSetVolume(instance: u32, volume: u32, codecOk: bool)
    | CallOutSetSampleRate(instance: u32, sampleRate: u32, clockOk: bool, saiInitOk: bool)
    | CallOutSetBitsPerSample(instance: u32, bitsPerSample: u32, saiInitOk: bool)
    | CallOutSetChannelsNbr(instance: u32, channelsNbr: u32, saiInitOk: bool)
    | CallInInit(instance: u32, inCfg: AudioInit<InDevice>, probeOk: bool, clockOk: bool,
                 saiInInitOk: bool, saiOutInitOk: bool, codecInitOk: bool)
    | CallInDeInit(instance: u32, saiDeInitOk: bool, codecDeInitOk: bool)
    | CallInRecord(instance: u32, hasBuffer: bool, saiTxOk: bool, codecPlayOk: bool, saiRxOk: bool)
    | CallInStop(instance: u32, codecOk: bool, saiOk: bool)
    | CallInPause(instance: u32, codecOk: bool, saiOk: bool)
    | CallInResume(instance: u32, codecOk: bool, saiOk: bool)
    | CallInSetDevice(instance: u32, device: InDevice, saiInitOk: bool, codecInitOk: bool)
    | CallInSetSampleRate(instance: u32, sampleRate: u32, clockOk: bool, saiInInitOk: bool, saiOutInitOk: bool)
  {
    predicate IsOut()
    {
      || CallOutInit? || CallOutDeInit? || CallOutPlay? || CallOutPause? || CallOutResume? || CallOutStop?
      || CallOutSetMute? || CallOutSetVolume? || CallOutSetSampleRate? || CallOutSetBitsPerSample?
      || CallOutSetChannelsNbr?
    }
  }

  /** The effect of one call. */
  function Apply(a: Audio, c: Call): (r: Step)
    ensures Consistent(a) ==> Consistent(r.next)
  {
    match c
    case CallOutInit(i, cfg, p, k, s, d) => OutInit(a, i, cfg, p, k, s, d)
    case CallOutDeInit(i, s, d) => OutDeInit(a, i, s, d)
    case CallOutPlay(i, h, s, d) => OutPlay(a, i, h, s, d)
    case CallOutPause(i, d, s) => OutPause(a, i, d, s)
    case CallOutResume(i, d, s) => OutResume(a, i, d, s)
    case CallOutStop(i, d, s) => OutStop(a, i, d, s)
    case CallOutSetMute(i, m, d) => OutSetMute(a, i, m, d)
    case CallOutSetVolume(i, v, d) => OutSetVolume(a, i, v, d)
    case CallOutSetSampleRate(i, f, k, s) => OutSetSampleRate(a, i, f, k, s)
    case CallOutSetBitsPerSample(i, b, s) => OutSetBitsPerSample(a, i, b, s)
    case CallOutSetChannelsNbr(i, n, s) => OutSetChannelsNbr(a, i, n, s)
    case CallInInit(i, cfg, p, k, si, so, d) => InInit(a, i, cfg, p, k, si, so, d)
    case CallInDeInit(i, s, d) => InDeInit(a, i, s, d)
    case CallInRecord(i, h, t, d, r) => InRecord(a, i, h, t, d, r)
    case CallInStop(i, d, s) => InStop(a, i, d, s)
    case CallInPause(i, d, s) => InPause(a, i, d, s)
    case CallInResume(i, d, s) => InResume(a, i, d, s)
    case CallInSetDevice(i, dev, s, d) => InSetDevice(a, i, dev, s, d)
    case CallInSetSampleRate(i, f, k, si, so) => InSetSampleRate(a, i, f, k, si, so)
  }

  /** The contexts after a sequence of calls. */
  function Run(a: Audio, calls: seq<Call>): Audio
    decreases |calls|
  {
    if calls == [] then a else Run(Apply(a, calls[0]).next, calls[1..])
  }

  // ---------------------------------------------------------------------
  // The invariant over any sequence of calls
  // ---------------------------------------------------------------------

  lemma {:induction false} RunPreservesConsistent(a: Audio, calls: seq<Call>)
    requires Consistent(a)
    ensures Consistent(Run(a, calls))
    decreases |calls|
  {
    if calls != [] {
      RunPreservesConsistent(Apply(a, calls[0]).next, calls[1..]);
    }
  }

  /** From the static initialisers, whatever the calls and whatever the hardware answers. */
  lemma ReachableIsConsistent(calls: seq<Call>)
    ensures Consistent(Run(InitialAudio(), calls))
  {
    RunPreservesConsistent(InitialAudio(), calls);
  }

  // ---------------------------------------------------------------------
  // The state diagrams
  // ---------------------------------------------------------------------

  /** The edges of the output state diagram (staying put is always allowed). */
  predicate OutEdge(s: OutState, t: OutState)
  {
    || s == t
    || (s == OutStateReset && t == OutStateStop)
    || (s == OutStateStop && t == OutStatePlaying)
    || (s == OutStatePlaying && t == OutStatePause)
    || (s == OutStatePause && t == OutStatePlaying)
    || ((s == OutStatePlaying || s == OutStatePause) && t == OutStateStop)
    || (s != OutStateReset && t == OutStateReset)
  }

  /** The edges of the input state diagram (staying put is always allowed). */
  predicate InEdge(s: InState, t: InState)
  {
    || s == t
    || (s == InStateReset && (t == InStateInit || t == InStateStop))
    || (s == InStateStop && t == InStateRecording)
    || (s == InStateRecording && t == InStatePause)
    || (s == InStatePause && t == InStateRecording)
    || ((s == InStateRecording || s == InStatePause) && t == InStateStop)
    || (s != InStateReset && t == InStateReset)
  }

  lemma CallFollowsStateDiagrams(a: Audio, c: Call)
    ensures OutEdge(a.out.state, Apply(a, c).next.out.state)
    ensures InEdge(a.inp.state, Apply(a, c).next.inp.state)
  {
  }

  /**
   * An input left in INIT by a failed IN_Init stays there until IN_DeInit:
   * every other call either refuses it (BUSY) or leaves the input's state alone.
   */
  lemma InitLeftOnlyByDeInit(a: Audio, c: Call)
    requires a.inp.state == InStateInit
    requires !c.CallInDeInit?
    ensures Apply(a, c).next.inp.state == InStateInit
    ensures !c.IsOut() && c.instance < AUDIO_IN_INSTANCES_NBR && !(c.CallInRecord? && !c.hasBuffer) ==>
              Apply(a, c).status == ErrorBusy
  {
  }

  /** A call on the output side never changes the input context. */
  lemma OutCallsLeaveInputAlone(a: Audio, c: Call)
    requires c.IsOut()
    ensures Apply(a, c).next.inp == a.inp
  {
  }

  /**
   * A call on the input side never changes an active output context; on an
   * output in RESET, only IN_Init changes anything, and only its sample width.
   */
  lemma InCallsLeaveOutputAlone(a: Audio, c: Call)
    requires !c.IsOut()
    ensures a.out.state != OutStateReset ==> Apply(a, c).next.out == a.out
    ensures Apply(a, c).next.out == a.out ||
            (c.CallInInit? && Apply(a, c).next.out == a.out.(bitsPerSample := AUDIO_RESOLUTION_16B))
  {
  }

  // ---------------------------------------------------------------------
  // Calls that undo each other
  // ---------------------------------------------------------------------

  lemma OutPauseResumeRestores(a: Audio, instance: u32)
    requires instance < AUDIO_OUT_INSTANCES_NBR && a.out.state == OutStatePlaying
    ensures OutPause(a, instance, true, true).next.out.state == OutStatePause
    ensures OutResume(OutPause(a, instance, true, true).next, instance, true, true) == Step(a, ErrorNone)
  {
  }

  lemma InPauseResumeRestores(a: Audio, instance: u32)
    requires instance < AUDIO_IN_INSTANCES_NBR && a.inp.state == InStateRecording
    ensures InPause(a, instance, true, true).next.inp.state == InStatePause
    ensures InResume(InPause(a, instance, true, true).next, instance, true, true) == Step(a, ErrorNone)
  {
  }

  lemma OutPlayStopRestores(a: Audio, instance: u32)
    requires instance < AUDIO_OUT_INSTANCES_NBR && a.out.state == OutStateStop
    ensures OutPlay(a, instance, true, true, true).next.out.state == OutStatePlaying
    ensures OutStop(OutPlay(a, instance, true, true, true).next, instance, true, true) == Step(a, ErrorNone)
  {
  }

  lemma InRecordStopRestores(a: Audio, instance: u32, saiTxOk: bool)
    requires instance < AUDIO_IN_INSTANCES_NBR && a.inp.state == InStateStop
    requires RecordNeedsClock(a) ==> saiTxOk
    ensures InRecord(a, instance, true, saiTxOk, true, true).next.inp.state == InStateRecording
    ensures InStop(InRecord(a, instance, true, saiTxOk, true, true).next, instance, true, true) == Step(a, ErrorNone)
  {
  }

  /**
   * OUT_Init followed by OUT_DeInit, both succeeding, leaves the output in
   * RESET, unmuted, holding the configuration it was given; the input is
   * untouched.
   */
  lemma OutInitDeInit(a: Audio, instance: u32, cfg: AudioInit<OutDevice>)
    requires OutInitValidate(a, instance, cfg) == None
    ensures var r := OutDeInit(OutInit(a, instance, cfg, true, true, true, true).next, instance, true, true);
            && r.status == ErrorNone
            && r.next.inp == a.inp
            && r.next.out == OutCtx(cfg.device, cfg.sampleRate, cfg.bitsPerSample, cfg.volume, cfg.channelsNbr,
                                    false, OutStateReset)
  {
  }

  /** IN_Init followed by IN_DeInit, both succeeding, returns the input to RESET. */
  lemma InInitDeInit(a: Audio, instance: u32, cfg: AudioInit<InDevice>)
    requires InInitValidate(a, instance, cfg, true) == None
    ensures var r := InDeInit(InInit(a, instance, cfg, true, true, true, true, true).next, instance, true, true);
            && r.status == ErrorNone
            && r.next.inp.state == InStateReset
            && r.next.inp.sampleRate == cfg.sampleRate
            && (a.out.state != OutStateReset ==> r.next.out == a.out)
  {
  }

  /** Muting twice is muting once, and so is un-muting; the second call needs no codec. */
  lemma OutSetMuteIdempotent(a: Audio, instance: u32, mute: bool, codecOk: bool, codecOk2: bool)
    requires OutSetMute(a, instance, mute, codecOk).status == ErrorNone
    ensures OutSetMute(OutSetMute(a, instance, mute, codecOk).next, instance, mute, codecOk2) ==
            OutSetMute(a, instance, mute, codecOk)
    ensures OutSetMute(a, instance, mute, codecOk).next.out.isMute == mute
  {
  }

  /** What OUT_SetVolume stores is what OUT_GetVolume then reads back. */
  lemma OutSetVolumeThenGet(a: Audio, instance: u32, volume: u32, codecOk: bool)
    requires OutSetVolume(a, instance, volume, codecOk).status == ErrorNone
    ensures OutQueryStatus(OutSetVolume(a, instance, volume, codecOk).next, instance) == ErrorNone
    ensures OutSetVolume(a, instance, volume, codecOk).next.out.volume == volume
    ensures volume <= 100
  {
  }

  /** What IN_SetSampleRate stores is what IN_GetSampleRate then reads back. */
  lemma InSetSampleRateThenGet(a: Audio, instance: u32, rate: u32, clockOk: bool, saiInOk: bool, saiOutOk: bool)
    requires InSetSampleRate(a, instance, rate, clockOk, saiInOk, saiOutOk).status == ErrorNone
    ensures InQueryStatus(InSetSampleRate(a, instance, rate, clockOk, saiInOk, saiOutOk).next, instance) == ErrorNone
    ensures InSetSampleRate(a, instance, rate, clockOk, saiInOk, saiOutOk).next.inp.sampleRate == rate
  {
  }

  // ---------------------------------------------------------------------
  // The shared codec and clock
  // ---------------------------------------------------------------------

  /**
   * With the input active and the codec driver bound, OUT_Init neither probes
   * the codec nor configures the clock.
   */
  lemma OutInitSharesCodecWithInput(a: Audio, instance: u32, cfg: AudioInit<OutDevice>,
                                    p1: bool, k1: bool, p2: bool, k2: bool, saiOk: bool, codecOk: bool)
    requires a.inp.state != InStateReset && a.codecBound
    ensures OutInit(a, instance, cfg, p1, k1, saiOk, codecOk) == OutInit(a, instance, cfg, p2, k2, saiOk, codecOk)
  {
  }

  /** With the input active, OUT_DeInit leaves the codec running. */
  lemma OutDeInitSharesCodecWithInput(a: Audio, instance: u32, saiOk: bool, d1: bool, d2: bool)
    requires a.inp.state != InStateReset
    ensures OutDeInit(a, instance, saiOk, d1) == OutDeInit(a, instance, saiOk, d2)
  {
  }

  /**
   * With the output active, IN_Init neither probes the codec, nor configures
   * the clock, nor re-initialises the output's SAI block.
   */
  lemma InInitSharesCodecWithOutput(a: Audio, instance: u32, cfg: AudioInit<InDevice>,
                                    p1: bool, k1: bool, o1: bool, p2: bool, k2: bool, o2: bool,
                                    saiInOk: bool, codecOk: bool)
    requires a.out.state != OutStateReset
    ensures InInit(a, instance, cfg, p1, k1, saiInOk, o1, codecOk) == InInit(a, instance, cfg, p2, k2, saiInOk, o2, codecOk)
  {
  }

  /** With the output active, IN_DeInit leaves the codec running. */
  lemma InDeInitSharesCodecWithOutput(a: Audio, instance: u32, saiOk: bool, d1: bool, d2: bool)
    requires a.out.state != OutStateReset
    ensures InDeInit(a, instance, saiOk, d1) == InDeInit(a, instance, saiOk, d2)
  {
  }

  /** While the output plays or is paused, IN_Record sends no dummy bytes. */
  lemma InRecordUsesRunningPlaybackClock(a: Audio, instance: u32, t1: bool, t2: bool, codecOk: bool, rxOk: bool)
    requires a.out.state == OutStatePlaying || a.out.state == OutStatePause
    ensures InRecord(a, instance, true, t1, codecOk, rxOk) == InRecord(a, instance, true, t2, codecOk, rxOk)
  {
  }

  // ---------------------------------------------------------------------
  // DMA item counts
  // ---------------------------------------------------------------------

  /** Below 64 KiB the two counts agree for 16-bit samples. */
  lemma DmaCountsAgreeBelow64K(nbrOfBytes: u32)
    requires nbrOfBytes < 0x1_0000
    ensures PlayDmaItems(AUDIO_RESOLUTION_16B, nbrOfBytes) == RecordDmaItems(nbrOfBytes)
  {
  }

  /**
   * From 64 KiB to 128 KiB the record count loses the bytes above 64 KiB
   * before dividing, so it is 32768 items short of the play count.
   */
  lemma DmaCountsDifferFrom64K(nbrOfBytes: u32)
    requires 0x1_0000 <= nbrOfBytes < 0x2_0000
    ensures RecordDmaItems(nbrOfBytes) + 0x8000 == PlayDmaItems(AUDIO_RESOLUTION_16B, nbrOfBytes)
  {
  }

  // ---------------------------------------------------------------------
  // IN_Init as written
  // ---------------------------------------------------------------------

  /**
   * IN_Init as written and the corrected IN_Init differ exactly when the
   * output is active with a sample width other than the requested one.
   */
  lemma InInitFixOnlyAddsWidthCheck(a: Audio, instance: u32, cfg: AudioInit<InDevice>,
                                    p: bool, k: bool, si: bool, so: bool, d: bool)
    ensures InInit(a, instance, cfg, p, k, si, so, d) != InInitAsWritten(a, instance, cfg, p, k, si, so, d) <==>
              InInitValidate(a, instance, cfg, false) == None &&
              a.out.state != OutStateReset && a.out.bitsPerSample != cfg.bitsPerSample
    ensures InInit(a, instance, cfg, p, k, si, so, d) != InInitAsWritten(a, instance, cfg, p, k, si, so, d) ==>
              InInit(a, instance, cfg, p, k, si, so, d) == Step(a, ErrorFeatureNotSupported)
  {
  }

  /** The output configured for 24-bit samples, stopped; the input in RESET. */
  function Output24Bit(): (a: Audio)
    ensures Consistent(a) && a.out.state == OutStateStop && a.out.bitsPerSample == AUDIO_RESOLUTION_24B
    ensures a.inp.state == InStateReset
  {
    OutInit(InitialAudio(), 0, AudioInit(Headphone, AUDIO_FREQUENCY_8K, AUDIO_RESOLUTION_24B, 2, 50),
            true, true, true, true).next
  }

  /**
   * From a consistent state, IN_Init as written succeeds for a 16-bit input
   * at the output's rate, leaving both sides active with 24- and 16-bit
   * samples on the one shared SAI clock; the corrected IN_Init refuses.
   */
  lemma InInitAsWrittenBreaksConsistent()
    ensures var cfg := AudioInit(AnalogMic, AUDIO_FREQUENCY_8K, AUDIO_RESOLUTION_16B, 1, 50);
            var r := InInitAsWritten(Output24Bit(), 0, cfg, true, true, true, true, true);
            && r.status == ErrorNone
            && r.next.out.state == OutStateStop && r.next.out.bitsPerSample == AUDIO_RESOLUTION_24B
            && r.next.inp.state == InStateStop && r.next.inp.bitsPerSample == AUDIO_RESOLUTION_16B
            && !Consistent(r.next)
            && InInit(Output24Bit(), 0, cfg, true, true, true, true, true) == Step(Output24Bit(), ErrorFeatureNotSupported)
  {
  }

  // ---------------------------------------------------------------------
  // The codec driver before any successful probe
  // ---------------------------------------------------------------------

  /** IN_Init from the initialisers, its probe failing: the input stays in INIT, the codec driver NULL. */
  function InputLeftInInit(): (a: Audio)
    ensures Consistent(a) && a.out.state == OutStateReset && !a.codecBound
    ensures a.inp.state == InStateInit && a.inp.sampleRate == AUDIO_FREQUENCY_8K
    ensures a.inp.bitsPerSample == AUDIO_RESOLUTION_16B
  {
    InInit(InitialAudio(), 0, AudioInit(AnalogMic, AUDIO_FREQUENCY_8K, AUDIO_RESOLUTION_16B, 1, 50),
           false, true, true, true, true).next
  }

  /**
   * After a failed probe in IN_Init, OUT_Init as written passes its checks,
   * skips the probe because the input is not in RESET, and calls the codec's
   * Init through the NULL driver; if that call returned, the output would be
   * in STOP without a bound codec driver. IN_DeInit as written calls the
   * codec's DeInit through the NULL driver too. The corrected OUT_Init probes
   * first, and the corrected IN_DeInit leaves the unbound codec alone.
   */
  lemma AsWrittenCallsUnboundCodec()
    ensures var a := InputLeftInInit();
            var cfg := AudioInit(Headphone, AUDIO_FREQUENCY_8K, AUDIO_RESOLUTION_16B, 2, 50);
            && OutInitValidate(a, 0, cfg) == None
            && OutInitCallsUnboundCodec(a, false, true)
            && !Consistent(OutInitAsWritten(a, 0, cfg, true, true, true, true).next)
            && InDeInitCallsUnboundCodec(a, 0, false, true)
            && OutInitProbes(a, true)
            && OutInit(a, 0, cfg, false, true, true, true).status == ErrorComponentFailure
            && OutInit(a, 0, cfg, true, true, true, true).next.codecBound
            && InDeInit(a, 0, true, false) == Step(a.(inp := a.inp.(state := InStateReset)), ErrorNone)
  {
  }

  /** The corrected OUT_Init and IN_DeInit never call the codec through an unbound driver. */
  lemma CorrectedNeverCallsUnboundCodec(a: Audio, instance: u32, saiOk: bool)
    ensures !OutInitCallsUnboundCodec(a, true, saiOk)
    ensures !InDeInitCallsUnboundCodec(a, instance, true, saiOk)
  {
  }

  /**
   * The corrections change only the cases of an unbound codec driver: with a
   * bound driver, or an input in RESET, OUT_Init and IN_DeInit are the calls as written.
   */
  lemma CorrectionsOnlyConcernUnboundCodec(a: Audio, instance: u32, cfg: AudioInit<OutDevice>,
                                           p: bool, k: bool, s: bool, d: bool)
    requires a.codecBound || a.inp.state == InStateReset
    ensures OutInit(a, instance, cfg, p, k, s, d) == OutInitAsWritten(a, instance, cfg, p, k, s, d)
    ensures a.codecBound ==> InDeInit(a, instance, s, d) == InDeInitAsWritten(a, instance, s, d)
  {
  }
}
