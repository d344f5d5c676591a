# STM32 board audio driver state machine and SBSFU slot table, in Dafny

This project models two small pieces of the STM32 firmware repository.

**The audio BSP of the STM32WBA65I-DK1 board**
(`Drivers/BSP/STM32WBA65I-DK1/stm32wba65i_discovery_audio.c`). The driver
keeps two global contexts: `Audio_Out_Ctx[0]` for playback and
`Audio_In_Ctx[0]` for recording. Each public `BSP_AUDIO_OUT_*` and
`BSP_AUDIO_IN_*` function does three things:

- it checks its parameters and the state of the two contexts in a fixed order;
- it calls the SAI HAL, the clock configuration, the WM8904 codec driver or the codec probe;
- it updates the context, and for most functions only on success.

The two sides share one codec and one SAI clock. So their sample rate and
sample width must agree while both are active. Each side probes the codec,
configures the clock and de-initialises the codec only while the other side
is in RESET; both call the codec's Init on every successful path. The codec
driver pointer is NULL until a probe succeeds, and the model tracks whether
a probe has bound it (`codecBound`).

- `bsp_audio_spec.dfy` (module `BspAudio`) holds the behaviour of every
  state-changing call as a pure function. The function maps the two contexts
  before the call to a `Step`: the contexts after the call and the
  `BSP_ERROR_*` status it returns.
  - Every HAL, clock, codec or probe call is a boolean parameter saying
    whether that call succeeded. The model consults it only on the path
    where the driver makes the call.
  - `Consistent` is the agreement the driver keeps between its two sides.
- `bsp_audio_driver.dfy` (module `BspAudioDriver`) is the driver itself.
  Class `AudioBsp` holds the two contexts as fields, with one method per
  public BSP function.
  - Each method keeps a running status, exactly as the C code does.
  - Each state-changing method is proved to produce the `Step` its spec
    function describes, and to preserve `Consistent`.
  - Each getter is proved to return its field exactly when the status is
    `BSP_ERROR_NONE`.
- `bsp_audio_lemmas.dfy` (module `BspAudioLemmas`) holds the properties that
  relate several calls:
  - the invariant holds over any sequence of calls from the static
    initialisers;
  - every call follows the state diagrams;
  - pause/resume, play/stop and init/deinit undo each other;
  - the codec and clock are shared between the two sides;
  - the play and record DMA counts are compared;
  - the counterexamples behind the findings below.

**The slot table of the SBSFU firmware-image handling**
(`Projects/STM32WB5MM-DK/Applications/Matter/2_Images_SBSFU/SBSFU/App/sfu_fwimg_regions.h`).
It defines ten slot indices and three parallel tables of 32-bit flash
addresses (header, start, end). It also defines `SLOT_SIZE` and the two
layout checks `SFU_IMG_REGION_IS_MULTIPLE` and `SFU_IMG_REGION_IS_SAME_SIZE`.
`sfu_fwimg_regions.dfy` (module `SfuFwImgRegions`) models them.

- The concrete addresses come from the board's linker mapping, so they are
  the fields of a `FlashMap` value that the tables take as a parameter.
- `SLOT_SIZE` is computed modulo 2^32, as the `uint32_t` arithmetic does.

## Model

| member | source | states |
|---|---|---|
| `BspAudio.PlayDmaItems` | Drivers/BSP/STM32WBA65I-DK1/stm32wba65i_discovery_audio.c:473-481 | The play DMA count (divide by 2 or 4, then truncate to 16 bits) never asks for more bytes than the buffer holds. It is exact below 128 KiB (16-bit samples) or 256 KiB (other widths). |
| `BspAudio.RecordDmaItems` | Drivers/BSP/STM32WBA65I-DK1/stm32wba65i_discovery_audio.c:1762 | The record DMA count (truncate to 16 bits, then divide by 2) never exceeds half the buffer and stays below 32768 items. It is exact below 64 KiB. |
| `BspAudio.InitialAudio` | Drivers/BSP/STM32WBA65I-DK1/stm32wba65i_discovery_audio.c:160-189 | The static initialisers: both sides in RESET at 8 kHz and 16 bits, unmuted, the codec driver NULL, and the state consistent. |
| `BspAudio.OutInitValidate` | Drivers/BSP/STM32WBA65I-DK1/stm32wba65i_discovery_audio.c:249-267 | The OUT_Init checks run in order: bad instance is WRONG_PARAM, 8/32-bit width is FEATURE_NOT_SUPPORTED, an active input with another rate or width is FEATURE_NOT_SUPPORTED, and then BUSY exactly when the output is not in RESET. The call goes ahead exactly when all four requirements hold. |
| `BspAudio.OutInitConfigure` | Drivers/BSP/STM32WBA65I-DK1/stm32wba65i_discovery_audio.c:268-399 | Past the checks: the first failing call decides the status (probe COMPONENT, clock CLOCK, SAI PERIPH, codec COMPONENT). Success iff every call made succeeds. The output holds the configuration, in STOP iff success, the input is untouched, and the codec driver is bound iff it was or a probe was made and succeeded. |
| `BspAudio.OutInitAsWritten` | Drivers/BSP/STM32WBA65I-DK1/stm32wba65i_discovery_audio.c:245-399 | OUT_Init as written: a rejection changes nothing and the input is untouched. With an input left in INIT and no probe ever successful, it skips the probe and calls the codec's Init through an unbound driver; if that call reports success, OUT_Init returns success and STOP with the driver still unbound. |
| `BspAudio.OutInit` | Drivers/BSP/STM32WBA65I-DK1/stm32wba65i_discovery_audio.c:245-399 | A rejected call changes nothing. Past the checks the first failing call decides the status: probe COMPONENT_FAILURE, clock CLOCK_FAILURE, SAI PERIPH_FAILURE, codec COMPONENT_FAILURE. Success, the only way to reach STOP, holds exactly when the checks pass and every call made succeeds. The clock is configured only with the input in RESET, and the probe also runs when no probe has bound the codec driver. The configuration is stored even on failure, the input is untouched, success leaves the driver bound, and `Consistent` is kept. |
| `BspAudio.OutDeInit` | Drivers/BSP/STM32WBA65I-DK1/stm32wba65i_discovery_audio.c:406-448 | In RESET the call does nothing and succeeds. Otherwise it succeeds iff the SAI de-initialises, plus the codec when the input is in RESET; a SAI failure is PERIPH_FAILURE and a codec failure COMPONENT_FAILURE. Success gives RESET and unmuted; failure changes nothing. |
| `BspAudio.OutPlay` | Drivers/BSP/STM32WBA65I-DK1/stm32wba65i_discovery_audio.c:457-499 | A null buffer or bad instance gives WRONG_PARAM, and any state but STOP gives BUSY. Success, iff the DMA and the codec start, goes STOP to PLAYING; failure changes nothing. |
| `BspAudio.OutPause` | Drivers/BSP/STM32WBA65I-DK1/stm32wba65i_discovery_audio.c:506-535 | Only PLAYING goes to PAUSE, and only when codec and SAI both succeed. Otherwise BUSY or a failure status, with nothing changed. |
| `BspAudio.OutResume` | Drivers/BSP/STM32WBA65I-DK1/stm32wba65i_discovery_audio.c:542-571 | Only PAUSE goes to PLAYING, and only when codec and SAI both succeed. Otherwise BUSY or a failure status, with nothing changed. |
| `BspAudio.OutStop` | Drivers/BSP/STM32WBA65I-DK1/stm32wba65i_discovery_audio.c:578-612 | STOP is a successful no-op, RESET is BUSY, and PLAYING/PAUSE go to STOP iff codec and SAI stop. |
| `BspAudio.OutSetMute` | Drivers/BSP/STM32WBA65I-DK1/stm32wba65i_discovery_audio.c:619-684 | Mute and UnMute: BUSY in RESET. Already in the target mute state, the call succeeds without the codec. Otherwise it succeeds iff the codec does, and only the mute flag changes. |
| `BspAudio.OutSetVolume` | Drivers/BSP/STM32WBA65I-DK1/stm32wba65i_discovery_audio.c:719-746 | A volume over 100 is WRONG_PARAM and RESET is BUSY. The volume is stored iff the codec accepted it. |
| `BspAudio.OutSetSampleRate` | Drivers/BSP/STM32WBA65I-DK1/stm32wba65i_discovery_audio.c:781-825 | WRONG_PARAM, then BUSY unless STOP, then FEATURE_NOT_SUPPORTED when an active input runs at another rate. The current rate is a successful no-op. A new rate is stored iff the clock and the SAI re-init succeed; a clock failure is CLOCK_FAILURE and a SAI failure PERIPH_FAILURE, both changing nothing. |
| `BspAudio.OutSetBitsPerSample` | Drivers/BSP/STM32WBA65I-DK1/stm32wba65i_discovery_audio.c:915-989 | WRONG_PARAM, then FEATURE_NOT_SUPPORTED for 8/32-bit or a width other than the active input's, then BUSY outside STOP, all changing nothing. In STOP the width is stored before the SAI re-init, so it stays after a PERIPH_FAILURE. Success holds exactly when the checks pass in STOP and the SAI re-initialises. |
| `BspAudio.OutSetChannelsNbr` | Drivers/BSP/STM32WBA65I-DK1/stm32wba65i_discovery_audio.c:1024-1054 | WRONG_PARAM unless 1 or 2 channels, then BUSY outside STOP, then PERIPH_FAILURE when the SAI fails, all changing nothing. The count is stored iff all pass. |
| `BspAudio.OutQueryStatus` | Drivers/BSP/STM32WBA65I-DK1/stm32wba65i_discovery_audio.c:692-711 | The OUT getters succeed exactly for a valid instance outside RESET. Otherwise they return WRONG_PARAM or BUSY. |
| `BspAudio.InInitValidate` | Drivers/BSP/STM32WBA65I-DK1/stm32wba65i_discovery_audio.c:1466-1493 | The IN_Init checks run in order: WRONG_PARAM for the instance, BUSY unless RESET, and FEATURE_NOT_SUPPORTED for everything else (16-bit only, channel count per device, an active output's rate, and its width when `matchOutBits`). The call goes ahead exactly when all requirements hold. |
| `BspAudio.InInitConfigure` | Drivers/BSP/STM32WBA65I-DK1/stm32wba65i_discovery_audio.c:1496-1657 | The configuration is stored in INIT before the hardware calls and moves to STOP iff every call made succeeded, so a failure leaves INIT. The first failure decides the status: probe COMPONENT_FAILURE, clock CLOCK_FAILURE, SAI PERIPH_FAILURE, codec COMPONENT_FAILURE. The output changes at most by its width being forced to 16 bits, and only when it is in RESET. A successful probe binds the codec driver. |
| `BspAudio.InInitAsWritten` | Drivers/BSP/STM32WBA65I-DK1/stm32wba65i_discovery_audio.c:1462-1666 | IN_Init as written: a rejection changes nothing. Past the checks the input never stays in RESET, and success means STOP. |
| `BspAudio.InInit` | Drivers/BSP/STM32WBA65I-DK1/stm32wba65i_discovery_audio.c:1462-1666 | IN_Init with the output's width checked too. A rejection changes nothing. It succeeds iff the checks pass and every call made succeeds; probe, clock and output SAI are made only with the output in RESET. The first failure decides the status (COMPONENT, CLOCK, PERIPH, COMPONENT). Failure past the checks leaves INIT. An active output is untouched and `Consistent` is kept. |
| `BspAudio.InDeInitWith` | Drivers/BSP/STM32WBA65I-DK1/stm32wba65i_discovery_audio.c:1673-1717 | IN_DeInit, as written or corrected: nothing to do in RESET; otherwise success iff the SAI de-initialises and, when the codec is stopped, the codec too, with PERIPH_FAILURE or COMPONENT_FAILURE on the first failure. Success gives RESET, failure changes nothing. |
| `BspAudio.InDeInitAsWritten` | Drivers/BSP/STM32WBA65I-DK1/stm32wba65i_discovery_audio.c:1673-1717 | IN_DeInit as written: with the output in RESET and no probe ever successful, it calls the codec's DeInit through an unbound driver, and its status then follows that call's result. |
| `BspAudio.InDeInit` | Drivers/BSP/STM32WBA65I-DK1/stm32wba65i_discovery_audio.c:1673-1717 | In RESET the call does nothing and succeeds. Otherwise it succeeds iff the SAI de-initialises, plus the codec when the output is in RESET and a probe has bound its driver. A SAI failure is PERIPH_FAILURE and a codec failure COMPONENT_FAILURE. Success gives RESET, failure changes nothing, and `Consistent` is kept. |
| `BspAudio.RecordNeedsClock` | Drivers/BSP/STM32WBA65I-DK1/stm32wba65i_discovery_audio.c:1739-1741 | IN_Record sends the dummy bytes exactly when the output is in RESET or STOP, that is when no playback drives the SAI clocks. |
| `BspAudio.InRecord` | Drivers/BSP/STM32WBA65I-DK1/stm32wba65i_discovery_audio.c:1726-1778 | STOP goes to RECORDING iff the codec and the receive DMA start. The dummy transmit must also succeed when no playback is running. Otherwise WRONG_PARAM, BUSY or a failure status, with nothing changed. |
| `BspAudio.InStop` | Drivers/BSP/STM32WBA65I-DK1/stm32wba65i_discovery_audio.c:1785-1826 | STOP is a successful no-op and RESET/INIT are BUSY. RECORDING/PAUSE go to STOP iff codec and SAI stop. |
| `BspAudio.InPause` | Drivers/BSP/STM32WBA65I-DK1/stm32wba65i_discovery_audio.c:1833-1869 | Only RECORDING goes to PAUSE, when codec and SAI both succeed. |
| `BspAudio.InResume` | Drivers/BSP/STM32WBA65I-DK1/stm32wba65i_discovery_audio.c:1876-1912 | Only PAUSE goes to RECORDING, when codec and SAI both succeed. |
| `BspAudio.InSetDevice` | Drivers/BSP/STM32WBA65I-DK1/stm32wba65i_discovery_audio.c:1920-2002 | BUSY unless STOP, and the current device is a successful no-op. A new device is stored iff SAI and codec re-initialise. |
| `BspAudio.InSetSampleRate` | Drivers/BSP/STM32WBA65I-DK1/stm32wba65i_discovery_audio.c:2037-2088 | WRONG_PARAM, then BUSY unless STOP, then FEATURE_NOT_SUPPORTED when an active output runs at another rate. The current rate is a no-op. A new rate is stored iff the clock and both SAI blocks re-initialise; a clock failure is CLOCK_FAILURE and a SAI failure PERIPH_FAILURE, both changing nothing. |
| `BspAudio.InQueryStatus` | Drivers/BSP/STM32WBA65I-DK1/stm32wba65i_discovery_audio.c:2010-2029 | The IN getters succeed exactly for a valid instance outside RESET. Otherwise they return WRONG_PARAM or BUSY. |
| `BspAudioDriver.AudioBsp.constructor` | Drivers/BSP/STM32WBA65I-DK1/stm32wba65i_discovery_audio.c:160-183 | The contexts start as the static initialisers: headphone, 8 kHz, 16-bit, volume 50, stereo, RESET (analog mic for the input), and consistent. |
| `BspAudioDriver.AudioBsp.OutInit` | Drivers/BSP/STM32WBA65I-DK1/stm32wba65i_discovery_audio.c:245-399 | The in-place update and status are exactly `BspAudio.OutInit`'s, and `Consistent` is kept. |
| `BspAudioDriver.AudioBsp.OutDeInit` | Drivers/BSP/STM32WBA65I-DK1/stm32wba65i_discovery_audio.c:406-448 | The update and status are exactly `BspAudio.OutDeInit`'s, and `Consistent` is kept. |
| `BspAudioDriver.AudioBsp.OutPlay` | Drivers/BSP/STM32WBA65I-DK1/stm32wba65i_discovery_audio.c:457-499 | The update and status are exactly `BspAudio.OutPlay`'s. The DMA is handed `PlayDmaItems` items exactly when the checks passed. |
| `BspAudioDriver.AudioBsp.OutPause` | Drivers/BSP/STM32WBA65I-DK1/stm32wba65i_discovery_audio.c:506-535 | The update and status are exactly `BspAudio.OutPause`'s. |
| `BspAudioDriver.AudioBsp.OutResume` | Drivers/BSP/STM32WBA65I-DK1/stm32wba65i_discovery_audio.c:542-571 | The update and status are exactly `BspAudio.OutResume`'s. |
| `BspAudioDriver.AudioBsp.OutStop` | Drivers/BSP/STM32WBA65I-DK1/stm32wba65i_discovery_audio.c:578-612 | The update and status are exactly `BspAudio.OutStop`'s. |
| `BspAudioDriver.AudioBsp.OutMute` | Drivers/BSP/STM32WBA65I-DK1/stm32wba65i_discovery_audio.c:619-648 | The update and status are exactly `BspAudio.OutSetMute`'s with mute on. |
| `BspAudioDriver.AudioBsp.OutUnMute` | Drivers/BSP/STM32WBA65I-DK1/stm32wba65i_discovery_audio.c:655-684 | The update and status are exactly `BspAudio.OutSetMute`'s with mute off. |
| `BspAudioDriver.AudioBsp.OutIsMute` | Drivers/BSP/STM32WBA65I-DK1/stm32wba65i_discovery_audio.c:692-711 | The status is the OUT getter status, and the mute flag is returned exactly on success. |
| `BspAudioDriver.AudioBsp.OutSetVolume` | Drivers/BSP/STM32WBA65I-DK1/stm32wba65i_discovery_audio.c:719-746 | The update and status are exactly `BspAudio.OutSetVolume`'s. |
| `BspAudioDriver.AudioBsp.OutGetVolume` | Drivers/BSP/STM32WBA65I-DK1/stm32wba65i_discovery_audio.c:754-773 | The status is the OUT getter status, and the stored volume is returned exactly on success. |
| `BspAudioDriver.AudioBsp.OutSetSampleRate` | Drivers/BSP/STM32WBA65I-DK1/stm32wba65i_discovery_audio.c:781-825 | The update and status are exactly `BspAudio.OutSetSampleRate`'s. |
| `BspAudioDriver.AudioBsp.OutGetSampleRate` | Drivers/BSP/STM32WBA65I-DK1/stm32wba65i_discovery_audio.c:833-852 | The status is the OUT getter status, and the stored rate is returned exactly on success. |
| `BspAudioDriver.AudioBsp.OutSetDevice` | Drivers/BSP/STM32WBA65I-DK1/stm32wba65i_discovery_audio.c:860-880 | The call succeeds exactly for a valid instance in STOP; otherwise WRONG_PARAM or BUSY. Nothing is stored. |
| `BspAudioDriver.AudioBsp.OutGetDevice` | Drivers/BSP/STM32WBA65I-DK1/stm32wba65i_discovery_audio.c:888-907 | The status is the OUT getter status, and the stored device is returned exactly on success. |
| `BspAudioDriver.AudioBsp.OutSetBitsPerSample` | Drivers/BSP/STM32WBA65I-DK1/stm32wba65i_discovery_audio.c:915-989 | The update and status are exactly `BspAudio.OutSetBitsPerSample`'s. |
| `BspAudioDriver.AudioBsp.OutGetBitsPerSample` | Drivers/BSP/STM32WBA65I-DK1/stm32wba65i_discovery_audio.c:997-1016 | The status is the OUT getter status, and the stored width is returned exactly on success. |
| `BspAudioDriver.AudioBsp.OutSetChannelsNbr` | Drivers/BSP/STM32WBA65I-DK1/stm32wba65i_discovery_audio.c:1024-1054 | The update and status are exactly `BspAudio.OutSetChannelsNbr`'s. |
| `BspAudioDriver.AudioBsp.OutGetChannelsNbr` | Drivers/BSP/STM32WBA65I-DK1/stm32wba65i_discovery_audio.c:1062-1081 | The status is the OUT getter status, and the stored channel count is returned exactly on success. |
| `BspAudioDriver.AudioBsp.OutGetState` | Drivers/BSP/STM32WBA65I-DK1/stm32wba65i_discovery_audio.c:1089-1103 | Succeeds in every state, RESET included, for a valid instance, and returns the state. |
| `BspAudioDriver.AudioBsp.InInit` | Drivers/BSP/STM32WBA65I-DK1/stm32wba65i_discovery_audio.c:1462-1666 | The update and status are exactly the corrected `BspAudio.InInit`'s, and `Consistent` is kept. |
| `BspAudioDriver.AudioBsp.InDeInit` | Drivers/BSP/STM32WBA65I-DK1/stm32wba65i_discovery_audio.c:1673-1717 | The update and status are exactly `BspAudio.InDeInit`'s. |
| `BspAudioDriver.AudioBsp.InRecord` | Drivers/BSP/STM32WBA65I-DK1/stm32wba65i_discovery_audio.c:1726-1778 | The update and status are exactly `BspAudio.InRecord`'s. The receive DMA is handed `RecordDmaItems` items exactly when the driver reaches it. |
| `BspAudioDriver.AudioBsp.InStop` | Drivers/BSP/STM32WBA65I-DK1/stm32wba65i_discovery_audio.c:1785-1826 | The update and status are exactly `BspAudio.InStop`'s. |
| `BspAudioDriver.AudioBsp.InPause` | Drivers/BSP/STM32WBA65I-DK1/stm32wba65i_discovery_audio.c:1833-1869 | The update and status are exactly `BspAudio.InPause`'s. |
| `BspAudioDriver.AudioBsp.InResume` | Drivers/BSP/STM32WBA65I-DK1/stm32wba65i_discovery_audio.c:1876-1912 | The update and status are exactly `BspAudio.InResume`'s. |
| `BspAudioDriver.AudioBsp.InSetDevice` | Drivers/BSP/STM32WBA65I-DK1/stm32wba65i_discovery_audio.c:1920-2002 | The update and status are exactly `BspAudio.InSetDevice`'s. |
| `BspAudioDriver.AudioBsp.InGetDevice` | Drivers/BSP/STM32WBA65I-DK1/stm32wba65i_discovery_audio.c:2010-2029 | The status is the IN getter status, and the device is returned exactly on success. |
| `BspAudioDriver.AudioBsp.InSetSampleRate` | Drivers/BSP/STM32WBA65I-DK1/stm32wba65i_discovery_audio.c:2037-2088 | The update and status are exactly `BspAudio.InSetSampleRate`'s. |
| `BspAudioDriver.AudioBsp.InGetSampleRate` | Drivers/BSP/STM32WBA65I-DK1/stm32wba65i_discovery_audio.c:2096-2117 | The status is the IN getter status, and the rate is returned exactly on success. |
| `BspAudioDriver.AudioBsp.InSetBitsPerSample` | Drivers/BSP/STM32WBA65I-DK1/stm32wba65i_discovery_audio.c:2125-2148 | WRONG_PARAM, then FEATURE_NOT_SUPPORTED for anything but 16 bits, then BUSY unless STOP. Success changes nothing. |
| `BspAudioDriver.AudioBsp.InGetBitsPerSample` | Drivers/BSP/STM32WBA65I-DK1/stm32wba65i_discovery_audio.c:2156-2175 | The status is the IN getter status, and the width is returned exactly on success. |
| `BspAudioDriver.AudioBsp.InSetChannelsNbr` | Drivers/BSP/STM32WBA65I-DK1/stm32wba65i_discovery_audio.c:2183-2213 | FEATURE_NOT_SUPPORTED unless the count suits the current device (mics 1, line-in 2). Then BUSY unless STOP; success changes nothing. |
| `BspAudioDriver.AudioBsp.InGetChannelsNbr` | Drivers/BSP/STM32WBA65I-DK1/stm32wba65i_discovery_audio.c:2221-2240 | The status is the IN getter status, and the channel count is returned exactly on success. |
| `BspAudioDriver.AudioBsp.InSetVolume` | Drivers/BSP/STM32WBA65I-DK1/stm32wba65i_discovery_audio.c:2248-2264 | WRONG_PARAM for a bad instance or a volume over 100, and FEATURE_NOT_SUPPORTED otherwise. |
| `BspAudioDriver.AudioBsp.InGetVolume` | Drivers/BSP/STM32WBA65I-DK1/stm32wba65i_discovery_audio.c:2272-2288 | Never succeeds: WRONG_PARAM with nothing written, or FEATURE_NOT_SUPPORTED with 0 written. |
| `BspAudioDriver.AudioBsp.InGetState` | Drivers/BSP/STM32WBA65I-DK1/stm32wba65i_discovery_audio.c:2296-2310 | Succeeds in every state, RESET included, for a valid instance, and returns the state. |
| `BspAudioLemmas.Apply` | Drivers/BSP/STM32WBA65I-DK1/stm32wba65i_discovery_audio.c:258-263 | Every state-changing call keeps the two sides consistent (output never 8/32-bit, input 16-bit, same rate and width when both active). |
| `BspAudioLemmas.RunPreservesConsistent` | Drivers/BSP/STM32WBA65I-DK1/stm32wba65i_discovery_audio.c:1490-1493 | Any sequence of calls, with any hardware outcomes, keeps the two sides consistent. |
| `BspAudioLemmas.ReachableIsConsistent` | Drivers/BSP/STM32WBA65I-DK1/stm32wba65i_discovery_audio.c:160-183 | Every state reachable from the static initialisers is consistent. |
| `BspAudioLemmas.CallFollowsStateDiagrams` | Drivers/BSP/STM32WBA65I-DK1/stm32wba65i_discovery_audio.c:506-612 | Every call moves each side only along the edges of its state diagram. Output: RESET→STOP→PLAYING⇄PAUSE→STOP, anything→RESET. Input: RESET→INIT/STOP→RECORDING⇄PAUSE→STOP, anything→RESET. |
| `BspAudioLemmas.InitLeftOnlyByDeInit` | Drivers/BSP/STM32WBA65I-DK1/stm32wba65i_discovery_audio.c:1496-1502 | An input left in INIT by a failed IN_Init stays there under every call but IN_DeInit. Every valid input call on it returns BUSY. |
| `BspAudioLemmas.OutCallsLeaveInputAlone` | Drivers/BSP/STM32WBA65I-DK1/stm32wba65i_discovery_audio.c:245-1054 | No output call changes the input context. |
| `BspAudioLemmas.InCallsLeaveOutputAlone` | Drivers/BSP/STM32WBA65I-DK1/stm32wba65i_discovery_audio.c:1585-1597 | No input call changes an active output. On an output in RESET only IN_Init changes anything, and only the width, to 16 bits. |
| `BspAudioLemmas.OutPauseResumeRestores` | Drivers/BSP/STM32WBA65I-DK1/stm32wba65i_discovery_audio.c:506-571 | A successful Pause then Resume returns exactly to the playing contexts. |
| `BspAudioLemmas.InPauseResumeRestores` | Drivers/BSP/STM32WBA65I-DK1/stm32wba65i_discovery_audio.c:1833-1912 | A successful Pause then Resume returns exactly to the recording contexts. |
| `BspAudioLemmas.OutPlayStopRestores` | Drivers/BSP/STM32WBA65I-DK1/stm32wba65i_discovery_audio.c:457-612 | A successful Play then Stop returns exactly to the stopped contexts. |
| `BspAudioLemmas.InRecordStopRestores` | Drivers/BSP/STM32WBA65I-DK1/stm32wba65i_discovery_audio.c:1726-1826 | A successful Record then Stop returns exactly to the stopped contexts. |
| `BspAudioLemmas.OutInitDeInit` | Drivers/BSP/STM32WBA65I-DK1/stm32wba65i_discovery_audio.c:245-448 | A successful Init then DeInit leaves the output in RESET, unmuted, holding its configuration, with the input untouched. |
| `BspAudioLemmas.InInitDeInit` | Drivers/BSP/STM32WBA65I-DK1/stm32wba65i_discovery_audio.c:1462-1717 | A successful IN_Init then IN_DeInit returns the input to RESET with its rate stored, leaving an active output untouched. |
| `BspAudioLemmas.OutSetMuteIdempotent` | Drivers/BSP/STM32WBA65I-DK1/stm32wba65i_discovery_audio.c:619-684 | Muting (or un-muting) twice is the same as once. The second call succeeds whatever the codec would answer. |
| `BspAudioLemmas.OutSetVolumeThenGet` | Drivers/BSP/STM32WBA65I-DK1/stm32wba65i_discovery_audio.c:719-773 | After a successful SetVolume, GetVolume succeeds and reads back the volume set, which is at most 100. |
| `BspAudioLemmas.InSetSampleRateThenGet` | Drivers/BSP/STM32WBA65I-DK1/stm32wba65i_discovery_audio.c:2037-2117 | After a successful IN_SetSampleRate, IN_GetSampleRate succeeds and reads back the rate set. |
| `BspAudioLemmas.OutInitSharesCodecWithInput` | Drivers/BSP/STM32WBA65I-DK1/stm32wba65i_discovery_audio.c:278-299 | With the input active and the codec driver bound, OUT_Init's outcome does not depend on the codec probe or the clock configuration: neither is called. |
| `BspAudioLemmas.OutDeInitSharesCodecWithInput` | Drivers/BSP/STM32WBA65I-DK1/stm32wba65i_discovery_audio.c:406-448 | With the input active, OUT_DeInit does not de-initialise the codec. |
| `BspAudioLemmas.InInitSharesCodecWithOutput` | Drivers/BSP/STM32WBA65I-DK1/stm32wba65i_discovery_audio.c:1504-1597 | With the output active, IN_Init calls neither the probe, the clock configuration nor the output SAI init. |
| `BspAudioLemmas.InDeInitSharesCodecWithOutput` | Drivers/BSP/STM32WBA65I-DK1/stm32wba65i_discovery_audio.c:1673-1717 | With the output active, IN_DeInit does not de-initialise the codec. |
| `BspAudioLemmas.InRecordUsesRunningPlaybackClock` | Drivers/BSP/STM32WBA65I-DK1/stm32wba65i_discovery_audio.c:1739-1749 | While the output plays or is paused, IN_Record sends no dummy bytes. |
| `BspAudioLemmas.DmaCountsAgreeBelow64K` | Drivers/BSP/STM32WBA65I-DK1/stm32wba65i_discovery_audio.c:1762 | For 16-bit samples below 64 KiB, the play and record DMA counts agree. |
| `BspAudioLemmas.DmaCountsDifferFrom64K` | Drivers/BSP/STM32WBA65I-DK1/stm32wba65i_discovery_audio.c:474-481 | From 64 KiB to 128 KiB the record count is exactly 32768 items short of the play count. |
| `BspAudioLemmas.InInitFixOnlyAddsWidthCheck` | Drivers/BSP/STM32WBA65I-DK1/stm32wba65i_discovery_audio.c:1490-1493 | IN_Init as written and corrected differ exactly when an active output has a width other than the requested one. Then the corrected version refuses with FEATURE_NOT_SUPPORTED. |
| `BspAudioLemmas.Output24Bit` | Drivers/BSP/STM32WBA65I-DK1/stm32wba65i_discovery_audio.c:245-399 | OUT_Init from the initialisers with 24-bit samples reaches a consistent state: output STOP at 24 bits, input RESET. |
| `BspAudioLemmas.InInitAsWrittenBreaksConsistent` | Drivers/BSP/STM32WBA65I-DK1/stm32wba65i_discovery_audio.c:1490-1493 | From that state, IN_Init as written succeeds for a 16-bit input at the same rate, leaving 24 vs 16 bits on one clock. The corrected IN_Init refuses. |
| `BspAudioLemmas.InputLeftInInit` | Drivers/BSP/STM32WBA65I-DK1/stm32wba65i_discovery_audio.c:1496-1511 | IN_Init from the initialisers with the probe failing leaves a consistent state with the input in INIT, the output in RESET and the codec driver unbound. |
| `BspAudioLemmas.AsWrittenCallsUnboundCodec` | Drivers/BSP/STM32WBA65I-DK1/stm32wba65i_discovery_audio.c:276-299 | From that state OUT_Init as written passes its checks, skips the probe and calls the codec's Init through the NULL driver, reaching an inconsistent state; IN_DeInit as written calls the codec's DeInit through it. The corrected OUT_Init probes (COMPONENT_FAILURE if it fails, bound if it succeeds), and the corrected IN_DeInit resets the input without the codec. |
| `BspAudioLemmas.CorrectedNeverCallsUnboundCodec` | Drivers/BSP/STM32WBA65I-DK1/stm32wba65i_discovery_audio.c:276-385 | The corrected OUT_Init and IN_DeInit never call the codec through an unbound driver, from any state. |
| `BspAudioLemmas.CorrectionsOnlyConcernUnboundCodec` | Drivers/BSP/STM32WBA65I-DK1/stm32wba65i_discovery_audio.c:276-284 | Once the codec driver is bound (or the input is in RESET), the corrected OUT_Init is the as-written one; once it is bound, so is the corrected IN_DeInit. |
| `SfuFwImgRegions.SlotHeaderAdd` | Projects/STM32WB5MM-DK/Applications/Matter/2_Images_SBSFU/SBSFU/App/sfu_fwimg_regions.h:82-92 | The header table has NB_SLOTS entries, and the inactive slot's is 0. |
| `SfuFwImgRegions.SlotStartAdd` | Projects/STM32WB5MM-DK/Applications/Matter/2_Images_SBSFU/SBSFU/App/sfu_fwimg_regions.h:94-104 | The start table has NB_SLOTS entries, and the inactive slot's is 0. |
| `SfuFwImgRegions.SlotEndAdd` | Projects/STM32WB5MM-DK/Applications/Matter/2_Images_SBSFU/SBSFU/App/sfu_fwimg_regions.h:106-116 | The end table has NB_SLOTS entries, and the inactive slot's is 0. |
| `SfuFwImgRegions.SlotSize` | Projects/STM32WB5MM-DK/Applications/Matter/2_Images_SBSFU/SBSFU/App/sfu_fwimg_regions.h:54 | SLOT_SIZE is end − start + 1 whenever start ≤ end and the slot is not the whole address space. With start ≤ end it is 0 exactly for the whole space. It is 0 for an empty slot whose end is one below its start, and wraps to 2^32 − (start − end − 1) for an end two or more below the start. |
| `SfuFwImgRegions.IsMultiple` | Projects/STM32WB5MM-DK/Applications/Matter/2_Images_SBSFU/SBSFU/App/sfu_fwimg_regions.h:56-60 | For a nonzero `b`, `a / b * b == a` holds exactly when `a % b == 0`. |
| `SfuFwImgRegions.IsSameSize` | Projects/STM32WB5MM-DK/Applications/Matter/2_Images_SBSFU/SBSFU/App/sfu_fwimg_regions.h:67 | SFU_IMG_REGION_IS_SAME_SIZE holds exactly when the two 32-bit sizes are equal. |
| `SfuFwImgRegions.SlotKinds` | Projects/STM32WB5MM-DK/Applications/Matter/2_Images_SBSFU/SBSFU/App/sfu_fwimg_regions.h:41-51 | Every slot index is exactly one of inactive, active (1-3), download (4-7), swap (8) or backup (9). |
| `SfuFwImgRegions.SlotIndicesDistinct` | Projects/STM32WB5MM-DK/Applications/Matter/2_Images_SBSFU/SBSFU/App/sfu_fwimg_regions.h:41-51 | The ten index constants are pairwise distinct and are exactly the indices 0..NB_SLOTS−1. |
| `SfuFwImgRegions.HeaderIsStartOutsideActiveSlots` | Projects/STM32WB5MM-DK/Applications/Matter/2_Images_SBSFU/SBSFU/App/sfu_fwimg_regions.h:82-104 | For every slot that is not active (inactive, download, swap, backup), the header address is the start address. |
| `SfuFwImgRegions.InactiveSlot` | Projects/STM32WB5MM-DK/Applications/Matter/2_Images_SBSFU/SBSFU/App/sfu_fwimg_regions.h:42 | The inactive slot's header, start and end are all 0, so its SLOT_SIZE is 1. |
| `SfuFwImgRegions.ClosedRange` | Projects/STM32WB5MM-DK/Applications/Matter/2_Images_SBSFU/SBSFU/App/sfu_fwimg_regions.h:63-64 | The addresses of a slot: exactly the integers from its start to its end, both included. |
| `SfuFwImgRegions.ClosedRangeSize` | Projects/STM32WB5MM-DK/Applications/Matter/2_Images_SBSFU/SBSFU/App/sfu_fwimg_regions.h:63-64 | A closed range from `lo` to `hi` holds `hi − lo + 1` addresses. |
| `SfuFwImgRegions.SlotSizeCountsAddresses` | Projects/STM32WB5MM-DK/Applications/Matter/2_Images_SBSFU/SBSFU/App/sfu_fwimg_regions.h:54 | When start ≤ end + 1, SLOT_SIZE is the number of addresses in the slot, end included (none for an empty slot), unless the slot spans all 2^32 addresses, where it wraps to 0. |
| `SfuFwImgRegions.SameSizeIsEquivalence` | Projects/STM32WB5MM-DK/Applications/Matter/2_Images_SBSFU/SBSFU/App/sfu_fwimg_regions.h:67 | SFU_IMG_REGION_IS_SAME_SIZE is reflexive, symmetric and transitive. |
| `SfuFwImgRegions.MultipleProductFits` | Projects/STM32WB5MM-DK/Applications/Matter/2_Images_SBSFU/SBSFU/App/sfu_fwimg_regions.h:56-60 | For a nonzero `b`, the product `a / b * b` lies between 0 and `a`, so the 32-bit unsigned computation in SFU_IMG_REGION_IS_MULTIPLE never wraps. |

## Left out

- SAI and codec hardware setup is not modelled: `SAI_MspInit`/`SAI_MspDeInit` (GPIO, DMA queues, NVIC), the `MX_SAI1_Init` register fields, the `MX_SAI1_ClockConfig` PLL values, and the I2C traffic of `WM8904_Probe`. Each of these calls appears only as a boolean saying whether it succeeded. The values written into the SAI handle (data size, frame length) are not tracked.
- The IRQ handlers, the HAL SAI callbacks and the weak user callbacks are not modelled. They run in interrupt context and only forward events.
- The `USE_HAL_SAI_REGISTER_CALLBACKS == 1` build and the `Register*MspCallbacks` functions are not modelled. The model follows the build without callback registration.
- The data buffers of Play and Record are not modelled. They appear only as whether their address is null. The buffer contents and the `pBuff`/`Size` context fields are not modelled.
- The instance counts are fixed at one OUT and one IN instance, so each context is a single record.
- The numeric values of the `AUDIO_*_DEVICE_*` codes are not modelled. The board's audio header is not part of this model, so devices are datatype constructors with an `Other` case for any other code. The `AUDIO_RESOLUTION_*` and `AUDIO_FREQUENCY_8K` values (8/16/24/32, 8000) are taken as that header defines them.
- `IsMute` is a boolean. The driver stores only 0 and 1 in it.
- `BspAudioDriver.AudioBsp.OutInit`: the driver class probes the codec also when no probe has bound its driver, which the driver as written does not; `BspAudio.OutInitAsWritten` models the as-written behaviour (see Findings).
- `BspAudioDriver.AudioBsp.InDeInit`: the driver class skips the codec's DeInit when no probe has bound its driver, which the driver as written does not; `BspAudio.InDeInitAsWritten` models the as-written behaviour (see Findings).
- A call through the NULL codec driver is a fault on the board. The as-written members treat it as an ordinary codec call with a boolean outcome; the fault itself is not modelled.
- `IsMultiple`: requires a nonzero `b`, because the macro divides by zero for `b` = 0. The macro's arguments are not parenthesised, so an argument written as an expression with a lower-precedence operator would be regrouped; the model takes its arguments as values.
- `BspAudioDriver.AudioBsp.InInit`: the driver class uses the corrected IN_Init, so its contract is not the driver's behaviour as written; `BspAudio.InInitAsWritten` models the as-written behaviour (see Findings).
- The OpenThread instance shim, the compile-time configuration headers and the declaration-only headers of the repository are not modelled.
- The SBSFU swap and verification engine, including `SFU_Img_Init`, is not part of this model. So the runtime checks that apply `SFU_IMG_REGION_IS_MULTIPLE` and `SFU_IMG_REGION_IS_SAME_SIZE` to concrete slots are not modelled either.
- The concrete slot addresses are not modelled. They come from linker mapping headers that are not part of this model, and are the fields of a `FlashMap` parameter instead.

## Findings

| source | as written | input that shows it | evidently intended | confidence | as-written member | corrected member |
|---|---|---|---|---|---|---|
| Drivers/BSP/STM32WBA65I-DK1/stm32wba65i_discovery_audio.c:1490-1493 | IN_Init compares only the active output's sample rate with the requested one, not its sample width. OUT_Init (lines 258-263) and OUT_SetBitsPerSample (lines 927-931) compare both. | OUT_Init with 24-bit samples at 8 kHz (output STOP), then IN_Init with an analog mic, 16-bit, 1 channel, 8 kHz, every hardware call succeeding. IN_Init returns BSP_ERROR_NONE with both sides active at 24 and 16 bits on one SAI clock. | IN_Init refuses with BSP_ERROR_FEATURE_NOT_SUPPORTED when an active output uses another sample width, as OUT_Init does for the input. | medium, not executed | `BspAudioLemmas.InInitAsWrittenBreaksConsistent` | `BspAudio.InInit` |
| Drivers/BSP/STM32WBA65I-DK1/stm32wba65i_discovery_audio.c:276-284 | The codec driver pointer `Audio_Drv` starts NULL (line 189) and is set only by a successful `WM8904_Probe` (lines 2548-2549). IN_Init moves the input to INIT (line 1502) before probing (lines 1505-1511). OUT_Init probes only when the input is in RESET, then calls `Audio_Drv->Init` (line 385); IN_DeInit calls `Audio_Drv->DeInit` (line 1696) whenever the output is in RESET. | From the initialisers, IN_Init with the probe failing returns COMPONENT_FAILURE and leaves the input in INIT. OUT_Init with valid 16-bit 8 kHz parameters then skips the probe and calls `Audio_Drv->Init` through NULL; so does IN_DeInit with `Audio_Drv->DeInit`. | OUT_Init probes whenever no probe has bound the driver, and IN_DeInit skips the codec DeInit when it is unbound, so the codec is never called through NULL. | medium, not executed | `BspAudioLemmas.AsWrittenCallsUnboundCodec` | `BspAudio.OutInit` |
