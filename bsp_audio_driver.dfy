/**
 * The audio driver itself: one object holding Audio_Out_Ctx[0] and
 * Audio_In_Ctx[0], with one method per public BSP_AUDIO_OUT_* and
 * BSP_AUDIO_IN_* function. Each method checks its parameters and the state in
 * the driver's order, keeps a running status as the driver does, and updates
 * the contexts in place. Each is proved to do exactly what the function of the
 * same name in BspAudio says, and to keep `Consistent`.
 *
 * The getters write their result through an out-argument only on success; here that
 * result is an `Option` that is `Some` exactly then.
 */
module BspAudioDriver {
  import opened BspAudio

  class AudioBsp {
    var outCtx: OutCtx
    var inCtx: InCtx
    /** Whether `Audio_Drv` and `Audio_CompObj` point at the WM8904 driver. */
    var codecBound: bool

    function State(): Audio
      reads this
    {
      Audio(outCtx, inCtx, codecBound)
    }

    ghost predicate Valid()
      reads this
    {
      Consistent(State())
    }

    /** The contexts as the driver's static initialisers leave them. */
    constructor ()
      ensures State() == InitialAudio()
      ensures Valid()
    {
      outCtx := InitialAudio().out;
      inCtx := InitialAudio().inp;
      codecBound := false;
    }

    // -------------------------------------------------------------------
    // Audio OUT
    // -------------------------------------------------------------------

    method OutInit(instance: u32, cfg: AudioInit<OutDevice>,
                   probeOk: bool, clockOk: bool, saiInitOk: bool, codecInitOk: bool)
      returns (status: BspStatus)
      requires Valid()
      modifies this
      ensures Valid()
      ensures Step(State(), status) ==
              BspAudio.OutInit(old(State()), instance, cfg, probeOk, clockOk, saiInitOk, codecInitOk)
    {
      status := ErrorNone;
      if instance >= AUDIO_OUT_INSTANCES_NBR {
        status := ErrorWrongParam;
      } else if cfg.bitsPerSample == AUDIO_RESOLUTION_32B || cfg.bitsPerSample == AUDIO_RESOLUTION_8B {
        status := ErrorFeatureNotSupported;
      } else if inCtx.state != InStateReset &&
                (inCtx.sampleRate != cfg.sampleRate || inCtx.bitsPerSample != cfg.bitsPerSample) {
        status := ErrorFeatureNotSupported;
      } else if outCtx.state != OutStateReset {
        status := ErrorBusy;
      } else {
        outCtx := outCtx.(device := cfg.device, sampleRate := cfg.sampleRate,
                          bitsPerSample := cfg.bitsPerSample, channelsNbr := cfg.channelsNbr,
                          volume := cfg.volume);
        // probe the codec unless the input side already bound it
        if outCtx.state == OutStateReset && (inCtx.state == InStateReset || !codecBound) {
          if !probeOk {
            status := ErrorComponentFailure;
          } else {
            codecBound := true;
          }
        }
        if status == ErrorNone {
          if inCtx.state == InStateReset {
            if !clockOk {
              status := ErrorClockFailure;
            }
          }
          if status == ErrorNone {
            if !saiInitOk {
              status := ErrorPeriphFailure;
            } else if !codecInitOk {
              status := ErrorComponentFailure;
            } else {
              outCtx := outCtx.(state := OutStateStop);
            }
          }
        }
      }
    }

    method OutDeInit(instance: u32, saiDeInitOk: bool, codecDeInitOk: bool) returns (status: BspStatus)
      requires Valid()
      modifies this
      ensures Valid()
      ensures Step(State(), status) == BspAudio.OutDeInit(old(State()), instance, saiDeInitOk, codecDeInitOk)
    {
      status := ErrorNone;
      if instance >= AUDIO_OUT_INSTANCES_NBR {
        status := ErrorWrongParam;
      } else if outCtx.state != OutStateReset {
        if !saiDeInitOk {
          status := ErrorPeriphFailure;
        } else if inCtx.state == InStateReset {
          // the codec is de-initialised only when the input no longer uses it
          if !codecDeInitOk {
            status := ErrorComponentFailure;
          }
        }
        if status == ErrorNone {
          outCtx := outCtx.(state := OutStateReset, isMute := false);
        }
      }
    }

    /**
     * `dmaItems` is the item count handed to the SAI transmit DMA, when the
     * driver gets that far.
     */
    method OutPlay(instance: u32, hasData: bool, nbrOfBytes: u32, saiTxOk: bool, codecPlayOk: bool)
      returns (status: BspStatus, dmaItems: Option<u16>)
      requires Valid()
      modifies this
      ensures Valid()
      ensures Step(State(), status) == BspAudio.OutPlay(old(State()), instance, hasData, saiTxOk, codecPlayOk)
      ensures dmaItems ==
              if instance < AUDIO_OUT_INSTANCES_NBR && hasData && old(outCtx.state) == OutStateStop
              then Some(PlayDmaItems(old(outCtx.bitsPerSample), nbrOfBytes)) else None
    {
      status := ErrorNone;
      dmaItems := None;
      if instance >= AUDIO_OUT_INSTANCES_NBR || !hasData {
        status := ErrorWrongParam;
      } else if outCtx.state != OutStateStop {
        status := ErrorBusy;
      } else {
        var n: u16;
        if outCtx.bitsPerSample == AUDIO_RESOLUTION_16B {
          n := (nbrOfBytes / 2) % 0x1_0000;
        } else {
          n := (nbrOfBytes / 4) % 0x1_0000;
        }
        dmaItems := Some(n);
        if !saiTxOk {
          status := ErrorPeriphFailure;
        } else if !codecPlayOk {
          status := ErrorComponentFailure;
        } else {
          outCtx := outCtx.(state := OutStatePlaying);
        }
      }
    }

    method OutPause(instance: u32, codecPauseOk: bool, saiPauseOk: bool) returns (status: BspStatus)
      requires Valid()
      modifies this
      ensures Valid()
      ensures Step(State(), status) == BspAudio.OutPause(old(State()), instance, codecPauseOk, saiPauseOk)
    {
      status := ErrorNone;
      if instance >= AUDIO_OUT_INSTANCES_NBR {
        status := ErrorWrongParam;
      } else if outCtx.state != OutStatePlaying {
        status := ErrorBusy;
      } else if !codecPauseOk {
        status := ErrorComponentFailure;
      } else if !saiPauseOk {
        status := ErrorPeriphFailure;
      } else {
        outCtx := outCtx.(state := OutStatePause);
      }
    }

    method OutResume(instance: u32, codecResumeOk: bool, saiResumeOk: bool) returns (status: BspStatus)
      requires Valid()
      modifies this
      ensures Valid()
      ensures Step(State(), status) == BspAudio.OutResume(old(State()), instance, codecResumeOk, saiResumeOk)
    {
      status := ErrorNone;
      if instance >= AUDIO_OUT_INSTANCES_NBR {
        status := ErrorWrongParam;
      } else if outCtx.state != OutStatePause {
        status := ErrorBusy;
      } else if !codecResumeOk {
        status := ErrorComponentFailure;
      } else if !saiResumeOk {
        status := ErrorPeriphFailure;
      } else {
        outCtx := outCtx.(state := OutStatePlaying);
      }
    }

    method OutStop(instance: u32, codecStopOk: bool, saiStopOk: bool) returns (status: BspStatus)
      requires Valid()
      modifies this
      ensures Valid()
      ensures Step(State(), status) == BspAudio.OutStop(old(State()), instance, codecStopOk, saiStopOk)
    {
      status := ErrorNone;
      if instance >= AUDIO_OUT_INSTANCES_NBR {
        status := ErrorWrongParam;
      } else if outCtx.state == OutStateStop {
        // nothing to do
      } else if outCtx.state != OutStatePlaying && outCtx.state != OutStatePause {
        status := ErrorBusy;
      } else if !codecStopOk {
        status := ErrorComponentFailure;
      } else if !saiStopOk {
        status := ErrorPeriphFailure;
      } else {
        outCtx := outCtx.(state := OutStateStop);
      }
    }

    method OutMute(instance: u32, codecMuteOk: bool) returns (status: BspStatus)
      requires Valid()
      modifies this
      ensures Valid()
      ensures Step(State(), status) == OutSetMute(old(State()), instance, true, codecMuteOk)
    {
      status := ErrorNone;
      if instance >= AUDIO_OUT_INSTANCES_NBR {
        status := ErrorWrongParam;
      } else if outCtx.state == OutStateReset {
        status := ErrorBusy;
      } else if outCtx.isMute {
        // nothing to do
      } else if !codecMuteOk {
        status := ErrorComponentFailure;
      } else {
        outCtx := outCtx.(isMute := true);
      }
    }

    method OutUnMute(instance: u32, codecMuteOk: bool) returns (status: BspStatus)
      requires Valid()
      modifies this
      ensures Valid()
      ensures Step(State(), status) == OutSetMute(old(State()), instance, false, codecMuteOk)
    {
      status := ErrorNone;
      if instance >= AUDIO_OUT_INSTANCES_NBR {
        status := ErrorWrongParam;
      } else if outCtx.state == OutStateReset {
        status := ErrorBusy;
      } else if !outCtx.isMute {
        // nothing to do
      } else if !codecMuteOk {
        status := ErrorComponentFailure;
      } else {
        outCtx := outCtx.(isMute := false);
      }
    }

    method OutIsMute(instance: u32) returns (status: BspStatus, isMute: Option<bool>)
      ensures status == OutQueryStatus(State(), instance)
      ensures isMute.Some? <==> status == ErrorNone
      ensures isMute.Some? ==> isMute.value == outCtx.isMute
    {
      status := ErrorNone;
      isMute := None;
      if instance >= AUDIO_OUT_INSTANCES_NBR {
        status := ErrorWrongParam;
      } else if outCtx.state == OutStateReset {
        status := ErrorBusy;
      } else {
        isMute := Some(outCtx.isMute);
      }
    }

    method OutSetVolume(instance: u32, volume: u32, codecVolumeOk: bool) returns (status: BspStatus)
      requires Valid()
      modifies this
      ensures Valid()
      ensures Step(State(), status) == BspAudio.OutSetVolume(old(State()), instance, volume, codecVolumeOk)
    {
      status := ErrorNone;
      if instance >= AUDIO_OUT_INSTANCES_NBR || volume > 100 {
        status := ErrorWrongParam;
      } else if outCtx.state == OutStateReset {
        status := ErrorBusy;
      } else {
        if !codecVolumeOk {
          status := ErrorComponentFailure;
        } else {
          outCtx := outCtx.(volume := volume);
        }
      }
    }

    method OutGetVolume(instance: u32) returns (status: BspStatus, volume: Option<u32>)
      ensures status == OutQueryStatus(State(), instance)
      ensures volume.Some? <==> status == ErrorNone
      ensures volume.Some? ==> volume.value == outCtx.volume
    {
      status := ErrorNone;
      volume := None;
      if instance >= AUDIO_OUT_INSTANCES_NBR {
        status := ErrorWrongParam;
      } else if outCtx.state == OutStateReset {
        status := ErrorBusy;
      } else {
        volume := Some(outCtx.volume);
      }
    }

    method OutSetSampleRate(instance: u32, sampleRate: u32, clockOk: bool, saiInitOk: bool)
      returns (status: BspStatus)
      requires Valid()
      modifies this
      ensures Valid()
      ensures Step(State(), status) ==
              BspAudio.OutSetSampleRate(old(State()), instance, sampleRate, clockOk, saiInitOk)
    {
      status := ErrorNone;
      if instance >= AUDIO_OUT_INSTANCES_NBR {
        status := ErrorWrongParam;
      } else if outCtx.state != OutStateStop {
        status := ErrorBusy;
      } else if inCtx.state != InStateReset && inCtx.sampleRate != sampleRate {
        // a running input fixes the shared clock
        status := ErrorFeatureNotSupported;
      } else if outCtx.sampleRate == sampleRate {
        // nothing to do
      } else if !clockOk {
        status := ErrorClockFailure;
      } else if !saiInitOk {
        status := ErrorPeriphFailure;
      } else {
        outCtx := outCtx.(sampleRate := sampleRate);
      }
    }

    method OutGetSampleRate(instance: u32) returns (status: BspStatus, sampleRate: Option<u32>)
      ensures status == OutQueryStatus(State(), instance)
      ensures sampleRate.Some? <==> status == ErrorNone
      ensures sampleRate.Some? ==> sampleRate.value == outCtx.sampleRate
    {
      status := ErrorNone;
      sampleRate := None;
      if instance >= AUDIO_OUT_INSTANCES_NBR {
        status := ErrorWrongParam;
      } else if outCtx.state == OutStateReset {
        status := ErrorBusy;
      } else {
        sampleRate := Some(outCtx.sampleRate);
      }
    }

    /** There is one output device (the headphone), so `device` is not looked at. */
    method OutSetDevice(instance: u32, device: OutDevice) returns (status: BspStatus)
      ensures status == ErrorNone <==> instance < AUDIO_OUT_INSTANCES_NBR && outCtx.state == OutStateStop
      ensures instance >= AUDIO_OUT_INSTANCES_NBR ==> status == ErrorWrongParam
      ensures instance < AUDIO_OUT_INSTANCES_NBR && outCtx.state != OutStateStop ==> status == ErrorBusy
    {
      status := ErrorNone;
      if instance >= AUDIO_OUT_INSTANCES_NBR {
        status := ErrorWrongParam;
      } else if outCtx.state != OutStateStop {
        status := ErrorBusy;
      }
    }

    method OutGetDevice(instance: u32) returns (status: BspStatus, device: Option<OutDevice>)
      ensures status == OutQueryStatus(State(), instance)
      ensures device.Some? <==> status == ErrorNone
      ensures device.Some? ==> device.value == outCtx.device
    {
      status := ErrorNone;
      device := None;
      if instance >= AUDIO_OUT_INSTANCES_NBR {
        status := ErrorWrongParam;
      } else if outCtx.state == OutStateReset {
        status := ErrorBusy;
      } else {
        device := Some(outCtx.device);
      }
    }

    method OutSetBitsPerSample(instance: u32, bitsPerSample: u32, saiInitOk: bool) returns (status: BspStatus)
      requires Valid()
      modifies this
      ensures Valid()
      ensures Step(State(), status) ==
              BspAudio.OutSetBitsPerSample(old(State()), instance, bitsPerSample, saiInitOk)
    {
      status := ErrorNone;
      if instance >= AUDIO_OUT_INSTANCES_NBR {
        status := ErrorWrongParam;
      } else if instance == 0 && (bitsPerSample == AUDIO_RESOLUTION_32B || bitsPerSample == AUDIO_RESOLUTION_8B) {
        status := ErrorFeatureNotSupported;
      } else if instance == 0 && inCtx.state != InStateReset && inCtx.bitsPerSample != bitsPerSample {
        status := ErrorFeatureNotSupported;
      } else if outCtx.state != OutStateStop {
        status := ErrorBusy;
      } else {
        // stored before the SAI is re-initialised with the new frame format
        outCtx := outCtx.(bitsPerSample := bitsPerSample);
        if !saiInitOk {
          status := ErrorPeriphFailure;
        }
      }
    }

    method OutGetBitsPerSample(instance: u32) returns (status: BspStatus, bitsPerSample: Option<u32>)
      ensures status == OutQueryStatus(State(), instance)
      ensures bitsPerSample.Some? <==> status == ErrorNone
      ensures bitsPerSample.Some? ==> bitsPerSample.value == outCtx.bitsPerSample
    {
      status := ErrorNone;
      bitsPerSample := None;
      if instance >= AUDIO_OUT_INSTANCES_NBR {
        status := ErrorWrongParam;
      } else if outCtx.state == OutStateReset {
        status := ErrorBusy;
      } else {
        bitsPerSample := Some(outCtx.bitsPerSample);
      }
    }

    method OutSetChannelsNbr(instance: u32, channelsNbr: u32, saiInitOk: bool) returns (status: BspStatus)
      requires Valid()
      modifies this
      ensures Valid()
      ensures Step(State(), status) ==
              BspAudio.OutSetChannelsNbr(old(State()), instance, channelsNbr, saiInitOk)
    {
      status := ErrorNone;
      if instance >= AUDIO_OUT_INSTANCES_NBR || (channelsNbr != 1 && channelsNbr != 2) {
        status := ErrorWrongParam;
      } else if outCtx.state != OutStateStop {
        status := ErrorBusy;
      } else if !saiInitOk {
        status := ErrorPeriphFailure;
      } else {
        outCtx := outCtx.(channelsNbr := channelsNbr);
      }
    }

    method OutGetChannelsNbr(instance: u32) returns (status: BspStatus, channelsNbr: Option<u32>)
      ensures status == OutQueryStatus(State(), instance)
      ensures channelsNbr.Some? <==> status == ErrorNone
      ensures channelsNbr.Some? ==> channelsNbr.value == outCtx.channelsNbr
    {
      status := ErrorNone;
      channelsNbr := None;
      if instance >= AUDIO_OUT_INSTANCES_NBR {
        status := ErrorWrongParam;
      } else if outCtx.state == OutStateReset {
        status := ErrorBusy;
      } else {
        channelsNbr := Some(outCtx.channelsNbr);
      }
    }

    /** Succeeds in every state, RESET included. */
    method OutGetState(instance: u32) returns (status: BspStatus, state: Option<OutState>)
      ensures status == (if instance < AUDIO_OUT_INSTANCES_NBR then ErrorNone else ErrorWrongParam)
      ensures state.Some? <==> status == ErrorNone
      ensures state.Some? ==> state.value == outCtx.state
    {
      status := ErrorNone;
      state := None;
      if instance >= AUDIO_OUT_INSTANCES_NBR {
        status := ErrorWrongParam;
      } else {
        state := Some(outCtx.state);
      }
    }

    // -------------------------------------------------------------------
    // Audio IN
    // -------------------------------------------------------------------

    method InInit(instance: u32, cfg: AudioInit<InDevice>, probeOk: bool, clockOk: bool,
                  saiInInitOk: bool, saiOutInitOk: bool, codecInitOk: bool)
      returns (status: BspStatus)
      requires Valid()
      modifies this
      ensures Valid()
      ensures Step(State(), status) ==
              BspAudio.InInit(old(State()), instance, cfg, probeOk, clockOk, saiInInitOk, saiOutInitOk, codecInitOk)
    {
      status := ErrorNone;
      if instance >= AUDIO_IN_INSTANCES_NBR {
        status := ErrorWrongParam;
      } else if inCtx.state != InStateReset {
        status := ErrorBusy;
      } else if cfg.bitsPerSample != AUDIO_RESOLUTION_16B {
        status := ErrorFeatureNotSupported;
      } else if cfg.channelsNbr != 1 && cfg.device == AnalogMic {
        status := ErrorFeatureNotSupported;
      } else if cfg.channelsNbr != 2 && cfg.device == LineIn {
        status := ErrorFeatureNotSupported;
      } else if cfg.channelsNbr != 1 && cfg.device == DigitalMic {
        status := ErrorFeatureNotSupported;
      } else if outCtx.state != OutStateReset &&
                (outCtx.sampleRate != cfg.sampleRate || outCtx.bitsPerSample != cfg.bitsPerSample) {
        status := ErrorFeatureNotSupported;
      } else {
        inCtx := inCtx.(device := cfg.device, channelsNbr := cfg.channelsNbr, sampleRate := cfg.sampleRate,
                        bitsPerSample := cfg.bitsPerSample, volume := cfg.volume, state := InStateInit);
        // probe the codec unless the output side already did
        if outCtx.state == OutStateReset {
          if !probeOk {
            status := ErrorComponentFailure;
          } else {
            codecBound := true;
          }
        }
        if status == ErrorNone {
          if outCtx.state == OutStateReset {
            if !clockOk {
              status := ErrorClockFailure;
            }
          }
          if status == ErrorNone {
            if !saiInInitOk {
              status := ErrorPeriphFailure;
            } else if outCtx.state == OutStateReset {
              // the output SAI block supplies the clocks, so it is set up too
              outCtx := outCtx.(bitsPerSample := AUDIO_RESOLUTION_16B);
              if !saiOutInitOk {
                status := ErrorPeriphFailure;
              }
            }
            if status == ErrorNone {
              if !codecInitOk {
                status := ErrorComponentFailure;
              } else {
                inCtx := inCtx.(state := InStateStop);
              }
            }
          }
        }
      }
    }

    method InDeInit(instance: u32, saiDeInitOk: bool, codecDeInitOk: bool) returns (status: BspStatus)
      requires Valid()
      modifies this
      ensures Valid()
      ensures Step(State(), status) == BspAudio.InDeInit(old(State()), instance, saiDeInitOk, codecDeInitOk)
    {
      status := ErrorNone;
      if instance >= AUDIO_IN_INSTANCES_NBR {
        status := ErrorWrongParam;
      } else if inCtx.state != InStateReset {
        if !saiDeInitOk {
          status := ErrorPeriphFailure;
        } else if outCtx.state == OutStateReset && codecBound {
          // the codec is de-initialised only when the output no longer uses it,
          // and only once a probe has bound its driver
          if !codecDeInitOk {
            status := ErrorComponentFailure;
          }
        }
        if status == ErrorNone {
          inCtx := inCtx.(state := InStateReset);
        }
      }
    }

    /**
     * `dmaItems` is the item count handed to the SAI receive DMA, when the
     * driver gets that far.
     */
    method InRecord(instance: u32, hasBuffer: bool, nbrOfBytes: u32, saiTxOk: bool, codecPlayOk: bool, saiRxOk: bool)
      returns (status: BspStatus, dmaItems: Option<u16>)
      requires Valid()
      modifies this
      ensures Valid()
      ensures Step(State(), status) ==
              BspAudio.InRecord(old(State()), instance, hasBuffer, saiTxOk, codecPlayOk, saiRxOk)
      ensures dmaItems ==
              if instance < AUDIO_IN_INSTANCES_NBR && hasBuffer && old(inCtx.state) == InStateStop &&
                 (RecordNeedsClock(old(State())) ==> saiTxOk) && codecPlayOk
              then Some(RecordDmaItems(nbrOfBytes)) else None
    {
      status := ErrorNone;
      dmaItems := None;
      if instance >= AUDIO_IN_INSTANCES_NBR || !hasBuffer {
        status := ErrorWrongParam;
      } else if inCtx.state != InStateStop {
        status := ErrorBusy;
      } else {
        // without a running playback, two dummy bytes start the SAI clocks
        if outCtx.state != OutStatePlaying && outCtx.state != OutStatePause {
          if !saiTxOk {
            status := ErrorPeriphFailure;
          }
        }
        if status == ErrorNone {
          if !codecPlayOk {
            status := ErrorComponentFailure;
          } else {
            var n: u16 := (nbrOfBytes % 0x1_0000) / 2;
            dmaItems := Some(n);
            if !saiRxOk {
              status := ErrorPeriphFailure;
            }
          }
        }
        if status == ErrorNone {
          inCtx := inCtx.(state := InStateRecording);
        }
      }
    }

    method InStop(instance: u32, codecStopOk: bool, saiStopOk: bool) returns (status: BspStatus)
      requires Valid()
      modifies this
      ensures Valid()
      ensures Step(State(), status) == BspAudio.InStop(old(State()), instance, codecStopOk, saiStopOk)
    {
      status := ErrorNone;
      if instance >= AUDIO_IN_INSTANCES_NBR {
        status := ErrorWrongParam;
      } else if inCtx.state == InStateStop {
        // nothing to do
      } else if inCtx.state != InStateRecording && inCtx.state != InStatePause {
        status := ErrorBusy;
      } else {
        if !codecStopOk {
          status := ErrorComponentFailure;
        } else if !saiStopOk {
          status := ErrorPeriphFailure;
        } else {
          inCtx := inCtx.(state := InStateStop);
        }
      }
    }

    method InPause(instance: u32, codecPauseOk: bool, saiPauseOk: bool) returns (status: BspStatus)
      requires Valid()
      modifies this
      ensures Valid()
      ensures Step(State(), status) == BspAudio.InPause(old(State()), instance, codecPauseOk, saiPauseOk)
    {
      status := ErrorNone;
      if instance >= AUDIO_IN_INSTANCES_NBR {
        status := ErrorWrongParam;
      } else if inCtx.state != InStateRecording {
        status := ErrorBusy;
      } else {
        if !codecPauseOk {
          status := ErrorComponentFailure;
        } else if !saiPauseOk {
          status := ErrorPeriphFailure;
        } else {
          inCtx := inCtx.(state := InStatePause);
        }
      }
    }

    method InResume(instance: u32, codecResumeOk: bool, saiResumeOk: bool) returns (status: BspStatus)
      requires Valid()
      modifies this
      ensures Valid()
      ensures Step(State(), status) == BspAudio.InResume(old(State()), instance, codecResumeOk, saiResumeOk)
    {
      status := ErrorNone;
      if instance >= AUDIO_IN_INSTANCES_NBR {
        status := ErrorWrongParam;
      } else if inCtx.state != InStatePause {
        status := ErrorBusy;
      } else {
        if !codecResumeOk {
          status := ErrorComponentFailure;
        } else if !saiResumeOk {
          status := ErrorPeriphFailure;
        } else {
          inCtx := inCtx.(state := InStateRecording);
        }
      }
    }

    method InSetDevice(instance: u32, device: InDevice, saiInitOk: bool, codecInitOk: bool) returns (status: BspStatus)
      requires Valid()
      modifies this
      ensures Valid()
      ensures Step(State(), status) == BspAudio.InSetDevice(old(State()), instance, device, saiInitOk, codecInitOk)
    {
      status := ErrorNone;
      if instance >= AUDIO_IN_INSTANCES_NBR {
        status := ErrorWrongParam;
      } else if inCtx.state != InStateStop {
        status := ErrorBusy;
      } else if inCtx.device != device {
        if !saiInitOk {
          status := ErrorPeriphFailure;
        } else if !codecInitOk {
          status := ErrorComponentFailure;
        } else {
          inCtx := inCtx.(device := device);
        }
      }
    }

    method InGetDevice(instance: u32) returns (status: BspStatus, device: Option<InDevice>)
      ensures status == InQueryStatus(State(), instance)
      ensures device.Some? <==> status == ErrorNone
      ensures device.Some? ==> device.value == inCtx.device
    {
      status := ErrorNone;
      device := None;
      if instance >= AUDIO_IN_INSTANCES_NBR {
        status := ErrorWrongParam;
      } else if inCtx.state == InStateReset {
        status := ErrorBusy;
      } else {
        device := Some(inCtx.device);
      }
    }

    method InSetSampleRate(instance: u32, sampleRate: u32, clockOk: bool, saiInInitOk: bool, saiOutInitOk: bool)
      returns (status: BspStatus)
      requires Valid()
      modifies this
      ensures Valid()
      ensures Step(State(), status) ==
              BspAudio.InSetSampleRate(old(State()), instance, sampleRate, clockOk, saiInInitOk, saiOutInitOk)
    {
      status := ErrorNone;
      if instance >= AUDIO_IN_INSTANCES_NBR {
        status := ErrorWrongParam;
      } else if inCtx.state != InStateStop {
        status := ErrorBusy;
      } else if outCtx.state != OutStateReset && outCtx.sampleRate != sampleRate {
        // a running output fixes the shared clock
        status := ErrorFeatureNotSupported;
      } else if inCtx.sampleRate == sampleRate {
        // nothing to do
      } else if !clockOk {
        status := ErrorClockFailure;
      } else if !saiInInitOk {
        status := ErrorPeriphFailure;
      } else if !saiOutInitOk {
        status := ErrorPeriphFailure;
      } else {
        inCtx := inCtx.(sampleRate := sampleRate);
      }
    }

    method InGetSampleRate(instance: u32) returns (status: BspStatus, sampleRate: Option<u32>)
      ensures status == InQueryStatus(State(), instance)
      ensures sampleRate.Some? <==> status == ErrorNone
      ensures sampleRate.Some? ==> sampleRate.value == inCtx.sampleRate
    {
      status := ErrorNone;
      sampleRate := None;
      if instance >= AUDIO_IN_INSTANCES_NBR {
        status := ErrorWrongParam;
      } else if inCtx.state == InStateReset {
        status := ErrorBusy;
      } else {
        sampleRate := Some(inCtx.sampleRate);
      }
    }

    /** Only 16-bit samples are supported, so a successful call changes nothing. */
    method InSetBitsPerSample(instance: u32, bitsPerSample: u32) returns (status: BspStatus)
      ensures instance >= AUDIO_IN_INSTANCES_NBR ==> status == ErrorWrongParam
      ensures instance < AUDIO_IN_INSTANCES_NBR && bitsPerSample != AUDIO_RESOLUTION_16B ==>
                status == ErrorFeatureNotSupported
      ensures status == ErrorNone <==>
                instance < AUDIO_IN_INSTANCES_NBR && bitsPerSample == AUDIO_RESOLUTION_16B &&
                inCtx.state == InStateStop
    {
      status := ErrorNone;
      if instance >= AUDIO_IN_INSTANCES_NBR {
        status := ErrorWrongParam;
      } else if bitsPerSample != AUDIO_RESOLUTION_16B {
        status := ErrorFeatureNotSupported;
      } else if inCtx.state != InStateStop {
        status := ErrorBusy;
      }
    }

    method InGetBitsPerSample(instance: u32) returns (status: BspStatus, bitsPerSample: Option<u32>)
      ensures status == InQueryStatus(State(), instance)
      ensures bitsPerSample.Some? <==> status == ErrorNone
      ensures bitsPerSample.Some? ==> bitsPerSample.value == inCtx.bitsPerSample
    {
      status := ErrorNone;
      bitsPerSample := None;
      if instance >= AUDIO_IN_INSTANCES_NBR {
        status := ErrorWrongParam;
      } else if inCtx.state == InStateReset {
        status := ErrorBusy;
      } else {
        bitsPerSample := Some(inCtx.bitsPerSample);
      }
    }

    /**
     * The channel count is fixed by the device, so a successful call changes
     * nothing: it only checks the count against the current device and the state.
     */
    method InSetChannelsNbr(instance: u32, channelsNbr: u32) returns (status: BspStatus)
      ensures instance >= AUDIO_IN_INSTANCES_NBR ==> status == ErrorWrongParam
      ensures instance < AUDIO_IN_INSTANCES_NBR &&
              (((inCtx.device == AnalogMic || inCtx.device == DigitalMic) && channelsNbr != 1) ||
               (inCtx.device == LineIn && channelsNbr != 2)) ==>
                status == ErrorFeatureNotSupported
      ensures status == ErrorNone <==>
                instance < AUDIO_IN_INSTANCES_NBR &&
                (inCtx.device == AnalogMic || inCtx.device == DigitalMic ==> channelsNbr == 1) &&
                (inCtx.device == LineIn ==> channelsNbr == 2) &&
                inCtx.state == InStateStop
    {
      status := ErrorNone;
      if instance >= AUDIO_IN_INSTANCES_NBR {
        status := ErrorWrongParam;
      } else if inCtx.device == AnalogMic && channelsNbr != 1 {
        status := ErrorFeatureNotSupported;
      } else if inCtx.device == LineIn && channelsNbr != 2 {
        status := ErrorFeatureNotSupported;
      } else if inCtx.device == DigitalMic && channelsNbr != 1 {
        status := ErrorFeatureNotSupported;
      } else if inCtx.state != InStateStop {
        status := ErrorBusy;
      }
    }

    method InGetChannelsNbr(instance: u32) returns (status: BspStatus, channelsNbr: Option<u32>)
      ensures status == InQueryStatus(State(), instance)
      ensures channelsNbr.Some? <==> status == ErrorNone
      ensures channelsNbr.Some? ==> channelsNbr.value == inCtx.channelsNbr
    {
      status := ErrorNone;
      channelsNbr := None;
      if instance >= AUDIO_IN_INSTANCES_NBR {
        status := ErrorWrongParam;
      } else if inCtx.state == InStateReset {
        status := ErrorBusy;
      } else {
        channelsNbr := Some(inCtx.channelsNbr);
      }
    }

    /** Input volume control is not supported: a valid call never succeeds. */
    method InSetVolume(instance: u32, volume: u32) returns (status: BspStatus)
      ensures status == (if instance >= AUDIO_IN_INSTANCES_NBR || volume > 100 then ErrorWrongParam
                         else ErrorFeatureNotSupported)
    {
      if instance >= AUDIO_IN_INSTANCES_NBR || volume > 100 {
        status := ErrorWrongParam;
      } else {
        status := ErrorFeatureNotSupported;
      }
    }

    /** Input volume control is not supported: a valid call reports volume 0 and fails. */
    method InGetVolume(instance: u32) returns (status: BspStatus, volume: Option<u32>)
      ensures status != ErrorNone
      ensures status == (if instance >= AUDIO_IN_INSTANCES_NBR then ErrorWrongParam else ErrorFeatureNotSupported)
      ensures volume == (if instance >= AUDIO_IN_INSTANCES_NBR then None else Some(0))
    {
      volume := None;
      if instance >= AUDIO_IN_INSTANCES_NBR {
        status := ErrorWrongParam;
      } else {
        volume := Some(0);
        status := ErrorFeatureNotSupported;
      }
    }

    /** Succeeds in every state, RESET included. */
    method InGetState(instance: u32) returns (status: BspStatus, state: Option<InState>)
      ensures status == (if instance < AUDIO_IN_INSTANCES_NBR then ErrorNone else ErrorWrongParam)
      ensures state.Some? <==> status == ErrorNone
      ensures state.Some? ==> state.value == inCtx.state
    {
      status := ErrorNone;
      state := None;
      if instance >= AUDIO_IN_INSTANCES_NBR {
        status := ErrorWrongParam;
      } else {
        state := Some(inCtx.state);
      }
    }
  }
}
