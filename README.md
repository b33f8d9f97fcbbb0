# feltsight core, modelled in Dafny

feltsight is a Unity application for a mixed-reality headset. It drives a pair of
haptic gloves over Bluetooth Low Energy and draws visual effects on the room meshes
around the wearer. This project models its core:

- **The glove link** (`glove_link.dfy`, `link_state.dfy`).
  - The connection state machine covers scanning, name matching, connect, characteristic discovery, the failure counter, the health check, the reconnect coroutine and the periodic transmission coroutine.
  - The speed and volume mapping turns the tracked hand's velocity into the volume byte and the speed byte (`command_mapper.dfy`). It uses the component's two smoothing filters (`one_dollar_filter.dfy`).
  - The 32-byte command frame has a start marker, ten 3-byte channels (file index, volume, speed) and an end marker (`glove_frame.dfy`).
- **The earlier link component and the test sender** (`early_link.dfy`, `test_link.dfy`). These are the earlier version of the link and the test-data sender, which share the frame format.
- **The finger-ray bookkeeping of the hand ray caster** (`hand_rays.dfy`): finger names, ray keys, line-renderer slots and the filter container.
- **Two visual-effect managers** (`vfx_map.dfy`, `early_vfx_map.dfy`). They keep one effect per nearby mesh and set the mask-ball radius and the finger-hit parameters. They also parse colours (`hex_color.dfy`).
- **The mesh merger** (`mesh_merge.dfy`). It selects the meshes within a radius, orders them by distance and appends them into one combined mesh, up to a vertex cap.

Unity's `Mathf` helpers (`Clamp`, `InverseLerp`, `Lerp`, `RoundToInt`, and `Max` with its integer counterpart `MaxInt`) are in `engine_math.dfy`. So are the `(byte)` cast and the vector operations. The .NET string operations the components use are in `strings.dfy`: `Split`, `Trim`, and `ToUpper`/`ToLower` restricted to ASCII letters, on character sequences.

How the model is built:

- A coroutine is a handle flag plus a running flag. One resumption of the coroutine is one call.
- A Bluetooth callback is a method that takes the event's payload.
- A characteristic write is a `writeOk` input, and the clock is a `now` input.
- The hand tracker's reading is an `Option` input.
- Each component is a class. Each class method is proved against a pure function of the old state, and the properties are proved about those functions.

## Model

| member | source | states |
|---|---|---|
| EngineMath.ByteOf | Assets/Scripts/BLESendJointV.cs:570 | the `(byte)` cast keeps the value modulo 256, and leaves a value in 0..255 as it is |
| EngineMath.Max | Assets/Scripts/BLESendJointV.cs:559 | Mathf.Max is one of its two arguments and at least both |
| EngineMath.MaxInt | Assets/Scripts/BLESendJointV.cs:1285 | the integer Mathf.Max is one of its two arguments and at least both |
| EngineMath.Clamp | Assets/Scripts/BLESendJointV.cs:565 | Mathf.Clamp lies within an ordered range and leaves a value already inside it unchanged |
| EngineMath.ClampInt | Assets/Scripts/BLESendJointV.cs:1083 | the integer Mathf.Clamp lies within an ordered range and leaves a value already inside it unchanged |
| EngineMath.Clamp01 | Assets/Scripts/BLESendJointV.cs:566-569 | Mathf.Clamp01 lies in [0, 1] |
| EngineMath.InverseLerp | Assets/Scripts/BLESendJointV.cs:566 | Mathf.InverseLerp lies in [0, 1], and is 0 when the two ends coincide |
| EngineMath.Lerp | Assets/Scripts/BLESendJointV.cs:569 | Mathf.Lerp over an increasing range stays between its ends |
| EngineMath.RoundToInt | Assets/Scripts/BLESendJointV.cs:569 | Mathf.RoundToInt is within one half of its argument, and a value halfway between two integers goes to the even one |
| EngineMath.RoundToIntOfInt | Assets/Scripts/BLESendJointV.cs:569 | rounding leaves an integer where it is |
| EngineMath.RoundToIntMonotone | Assets/Scripts/BLESendJointV.cs:569 | rounding never reverses the order of two values |
| EngineMath.RoundToIntBetween | Assets/Scripts/BLESendJointV.cs:569 | a value between two integers rounds to a value between them |
| EngineMath.ClampMonotone | Assets/Scripts/BLESendJointV.cs:565 | Mathf.Clamp never reverses the order of two values |
| EngineMath.InverseLerpMonotone | Assets/Scripts/BLESendJointV.cs:566 | Mathf.InverseLerp is non-decreasing in its value over an increasing range |
| CommandMapper.VolumeFor | Assets/Scripts/BLESendJointV.cs:522-530 | the volume is 0 below the threshold and the normal volume at or above it; with a non-zero normal volume, muted exactly when below the threshold |
| CommandMapper.EffectiveMultiplier | Assets/Scripts/BLESendJointV.cs:552-559 | the multiplier used is never below 0.1 and is the given one whenever that is at least 0.1 |
| CommandMapper.ScaledSpeed | Assets/Scripts/BLESendJointV.cs:561 | a non-negative magnitude with a non-negative multiplier gives a non-negative speed; multiplier 1 keeps the magnitude and a larger one never lowers it |
| CommandMapper.Normalized | Assets/Scripts/BLESendJointV.cs:565-566 | the normalised speed lies in [0, 1] |
| CommandMapper.SpeedValue | Assets/Scripts/BLESendJointV.cs:565-570 | the mapped speed value lies between MIN_SPEED_BYTE (10) and MAX_SPEED_BYTE (40) |
| CommandMapper.SpeedByteFor | Assets/Scripts/BLESendJointV.cs:569-570 | the byte cast of the speed value loses nothing: it equals the value and stays in 10..40 |
| CommandMapper.SpeedAtLowEnd | Assets/Scripts/BLESendJointV.cs:565-570 | a speed at or below the lower threshold maps to 10 |
| CommandMapper.SpeedAtHighEnd | Assets/Scripts/BLESendJointV.cs:565-570 | a speed at or above the upper threshold (distinct thresholds) maps to 40 |
| CommandMapper.SpeedWithEqualThresholds | Assets/Scripts/BLESendJointV.cs:565-570 | with equal thresholds every speed maps to 10 (InverseLerp of an empty range is 0) |
| CommandMapper.LerpMonotone | Assets/Scripts/BLESendJointV.cs:569 | interpolation over an increasing range is monotone in its parameter |
| CommandMapper.SpeedMonotone | Assets/Scripts/BLESendJointV.cs:565-570 | a faster hand never yields a smaller speed byte, for any thresholds |
| CommandMapper.SpeedMonotoneInFiltered | Assets/Scripts/BLESendJointV.cs:561-570 | after the multiplier is applied, a larger filtered magnitude never yields a smaller speed byte |
| CommandMapper.PlaybackRate | Assets/Scripts/BLESendJointV.cs:975-979 | the reported playback rate lies in [1.0, 4.0] |
| CommandMapper.FinalSpeedByte | Assets/Scripts/BLESendJointV.cs:659-676 | the sent speed byte lies in 10..40 and is the playback rate times ten rounded to the nearest integer |
| CommandMapper.FinalSpeedWithUnitMultiplier | Assets/Scripts/BLESendJointV.cs:659-676 | with multiplier 1 the sent speed byte is the mapped speed byte unchanged |
| CommandMapper.RateOfSpeedByte | Assets/Scripts/BLESendJointV.cs:660-676 | a speed byte in 10..40 read as a rate is already in range and converts back to itself |
| CommandMapper.FinalSpeedAtLeast | Assets/Scripts/BLESendJointV.cs:659-676 | a multiplier of at least 1 never lowers the sent speed |
| CommandMapper.FinalSpeedAtMost | Assets/Scripts/BLESendJointV.cs:659-676 | a multiplier of at most 1 never raises the sent speed |
| CommandMapper.MultiplierAppliedTwice | Assets/Scripts/BLESendJointV.cs:561-676 | the multiplier acts twice (on the magnitude, then on the rate): magnitude 0.075 with multiplier 2 gives speed 25 and then sends 40 |
| GloveFrame.Encode | Assets/Scripts/BLESendJointV.cs:652-698 | a frame is 32 bytes and starts with 0xFE and ends with 0xFF |
| GloveFrame.EncodeAt | Assets/Scripts/BLESendJointV.cs:679-691 | channel i's field f is at offset 1 + 3i + f, inside the markers |
| GloveFrame.InnerPosition | Assets/Scripts/BLESendJointV.cs:679-691 | every inner byte belongs to exactly one channel field |
| GloveFrame.Uniform | Assets/Scripts/BLESendJointV.cs:679-691 | the ten channels all carry the same triple |
| GloveFrame.Decode | Assets/Scripts/BLESendJointV.cs:782-806 | a byte string is read as a frame exactly when it has 32 bytes and both markers; it then yields ten channels |
| GloveFrame.DecodeEncode | Assets/Scripts/BLESendJointV.cs:782-806 | decoding an encoded frame gives back its channels |
| GloveFrame.EncodeDecode | Assets/Scripts/BLESendJointV.cs:782-806 | re-encoding a decodable frame gives back the same bytes |
| GloveFrame.FillUniformFrame | Assets/Scripts/BLESendJointV.cs:652-698 | the loop that fills the frame byte by byte builds exactly the encoding of ten equal channels |
| GloveLink.LinkFrameIsCommand | Assets/Scripts/BLESendJointV.cs:652-698 | the generated frame decodes to ten channels of file 1, the current volume and the final speed byte |
| GloveLink.ParseDeviceNames | Assets/Scripts/BLESendJointV.cs:125-136 | the parsing loop yields the device-name list given by the pure name parser |
| GloveLink.TrimEach | Assets/Scripts/BLESendJointV.cs:128-131 | the loop trims every part in place: each name is the trimmed part at the same index |
| GloveLink.Link.constructor | Assets/Scripts/BLESendJointV.cs:122-170 | start state: idle connection, parsed target names, speed byte 10, volume 75, multiplier 1, nothing sent |
| GloveLink.Link.StartScan | Assets/Scripts/BLESendJointV.cs:371-387 | a scan resets the connection flags as the scan function says |
| GloveLink.Link.ScanSegment | Assets/Scripts/BLESendJointV.cs:471-490 | the reconnect scan segment changes the connection as its pure counterpart says |
| GloveLink.Link.DirectWaitCheck | Assets/Scripts/BLESendJointV.cs:439-461 | one wait step of a direct reconnect attempt, as its pure counterpart |
| GloveLink.Link.AttemptFromTop | Assets/Scripts/BLESendJointV.cs:424-461 | one pass through the top of the reconnect loop, as its pure counterpart |
| GloveLink.Link.StartReconnectProcess | Assets/Scripts/BLESendJointV.cs:392-402 | starting a reconnect, as its pure counterpart |
| GloveLink.Link.StopReconnectProcess | Assets/Scripts/BLESendJointV.cs:407-416 | stopping a reconnect, as its pure counterpart |
| GloveLink.Link.ResumeReconnect | Assets/Scripts/BLESendJointV.cs:421-497 | one resumption of the reconnect coroutine, as its pure counterpart |
| GloveLink.Link.SendFailed | Assets/Scripts/BLESendJointV.cs:753-775 | failure accounting after a failed write, as its pure counterpart |
| GloveLink.Link.SendDataToESP32 | Assets/Scripts/BLESendJointV.cs:703-778 | the connection follows the send outcome; the frame is appended to what the glove received only when sending is possible and the write succeeds |
| GloveLink.Link.CheckConnectionStatus | Assets/Scripts/BLESendJointV.cs:337-366 | the health check changes the connection as the check function says |
| GloveLink.Link.UpdateFingerVelocityAndSpeed | Assets/Scripts/BLESendJointV.cs:501-574 | raw velocity (zero without a hand), volume, filtered velocity and magnitude, multiplier, clamped speed and speed byte are the mapping functions of the hand reading and the old filter state |
| GloveLink.Link.ApplyFilters | Assets/Scripts/BLESendJointV.cs:532-550 | each filter runs only when it is enabled and present, and the filter's state is advanced |
| GloveLink.Link.MapSpeed | Assets/Scripts/BLESendJointV.cs:552-570 | the slider value (if any) becomes the multiplier, floored at 0.1; the clamped speed and the speed byte follow |
| GloveLink.Link.GenerateData | Assets/Scripts/BLESendJointV.cs:652-698 | the slider value (if any) becomes the multiplier, and the frame is a valid glove command carrying the current volume and the final speed byte |
| GloveLink.Link.GetActualPlaybackRate | Assets/Scripts/BLESendJointV.cs:975-979 | the rate lies in [1, 4] and agrees with the sent speed byte up to rounding |
| GloveLink.Link.SendCurrentFrame | Assets/Scripts/BLESendJointV.cs:703-737 | generates and sends one frame; the connection follows the send outcome |
| GloveLink.Link.SendTick | Assets/Scripts/BLESendJointV.cs:613-645 | one pass of the transmission coroutine: while the link is ready and not lost, a pass refreshes the mapping from the hand reading exactly as UpdateFingerVelocityAndSpeed does (`Refreshed`), then sends and counts one frame of it (or counts a failure without a characteristic); otherwise the mapping and the filters are untouched and the loop ends, releasing its handle (corrected, see Findings and Left out) |
| GloveLink.Link.SendPass | Assets/Scripts/BLESendJointV.cs:617-641 | a pass on a ready link: the mapping is refreshed from the hand, the frame built from it is sent when the write succeeds, and the connection follows the send outcome with the pass counted |
| GloveLink.Link.SendCounted | Assets/Scripts/BLESendJointV.cs:624-629 | the frame of the current mapping is offered to the transport and counted; the slider's value becomes the multiplier |
| GloveLink.Link.StartDataTransmission | Assets/Scripts/BLESendJointV.cs:579-598 | a running loop is replaced; with the scan stopped a new loop starts and its first pass runs at once (mapping refreshed from the hand, one frame sent on a healthy link), without it the mapping and the filters are untouched |
| GloveLink.Link.StopDataTransmission | Assets/Scripts/BLESendJointV.cs:601-608 | stopping clears the handle and ends a running loop |
| GloveLink.Link.Update | Assets/Scripts/BLESendJointV.cs:172-179 | each frame the mapping is refreshed from the hand reading and the filters, then the health check runs; settings, slider, target names and sent frames stay as they were |
| GloveLink.Link.OnDestroy | Assets/Scripts/BLESendJointV.cs:181-201 | teardown is StopDataTransmission then StopReconnectProcess: both coroutines end and every other connection field is kept |
| GloveLink.Link.OnUpdateState | Assets/Scripts/BLESendJointV.cs:220-232 | the state callback, as its pure counterpart |
| GloveLink.Link.OnDiscoverPeripheral | Assets/Scripts/BLESendJointV.cs:233-258 | the match loop over the target names stops the scan and connects exactly when the name is a target |
| GloveLink.Link.OnConnectPeripheral | Assets/Scripts/BLESendJointV.cs:259-272 | the connect callback, as its pure counterpart |
| GloveLink.Link.OnDiscoverCharacteristic | Assets/Scripts/BLESendJointV.cs:280-310 | finding the RX characteristic makes the link ready; transmission starts only when it is not already started, the scan is stopped and the link is not lost, and then its first pass refreshes the mapping from the hand and sends one frame; otherwise the mapping is untouched |
| GloveLink.Link.SendSingleData | Assets/Scripts/BLESendJointV.cs:807-840 | on a ready, scan-stopped, not-lost link with a characteristic the mapping is refreshed from the hand and one frame of it is sent; otherwise neither the mapping nor the connection changes |
| GloveLink.Link.SetVelocityMultiplier | Assets/Scripts/BLESendJointV.cs:1003-1036 | the argument clamped to [0.1, 10] is the multiplier the refresh finds (a slider's value takes over), the mapping is refreshed from the hand, and a frame of it is sent at once exactly when a handle exists on a healthy link |
| GloveLink.Link.OnVelocitySliderChanged | Assets/Scripts/BLESendJointV.cs:985-988 | the slider's new value drives the refresh: the multiplier ends as the value when a frame was resent and as the value raised to 0.1 otherwise; the mapping and the resent frame follow the hand |
| GloveLink.Link.SetVelocitySlider | Assets/Scripts/BLESendJointV.cs:915-944 | assigning a slider shows the current multiplier; removing it leaves none |
| GloveLink.Link.SetFilterStrength | Assets/Scripts/BLESendJointV.cs:1041-1060 | both filters get the strength clamped to [0.01, 1] and keep their values |
| GloveLink.Link.SetVolumeThreshold | Assets/Scripts/BLESendJointV.cs:1067-1074 | the threshold is set, floored at 0; no other setting changes |
| GloveLink.Link.SetNormalVolume | Assets/Scripts/BLESendJointV.cs:1081-1088 | the normal volume is set, capped at 100; no other setting changes |
| GloveLink.Link.SetVelocityFilterEnabled | Assets/Scripts/BLESendJointV.cs:1113-1126 | the flag is set; disabling resets the velocity filter; enabling leaves it alone |
| GloveLink.Link.SetMagnitudeFilterEnabled | Assets/Scripts/BLESendJointV.cs:1132-1145 | the flag is set; disabling resets the magnitude filter; enabling leaves it alone |
| GloveLink.Link.ResetFilters | Assets/Scripts/BLESendJointV.cs:1150-1166 | both present filters are uninitialised and zero |
| GloveLink.Link.ToggleDataTransmission | Assets/Scripts/BLESendJointV.cs:1186-1213 | stops a started transmission; on a ready, scan-stopped, not-lost link starts one whose first pass refreshes the mapping from the hand and sends; on a lost link starts a reconnect when enabled; the mapping is untouched unless a pass ran |
| GloveLink.Link.ManualReconnect | Assets/Scripts/BLESendJointV.cs:1218-1238 | a manual reconnect, as its pure counterpart |
| GloveLink.Link.SetAutoReconnect | Assets/Scripts/BLESendJointV.cs:1243-1246 | only the auto-reconnect setting changes |
| GloveLink.Link.SetFailureThreshold | Assets/Scripts/BLESendJointV.cs:1283-1286 | the threshold is set, floored at 1; no other setting changes |
| LinkState.TrimAll | Assets/Scripts/BLESendJointV.cs:128-131 | every name is its part trimmed, same count |
| LinkState.TargetDeviceNames | Assets/Scripts/BLESendJointV.cs:125-136 | there is at least one target name; none holds a comma or leading or trailing white space |
| LinkState.TargetDeviceNamesOfSetting | Assets/Scripts/BLESendJointV.cs:125-131 | a non-empty setting is split at commas and each part trimmed |
| LinkState.TwoNamesParsed | Assets/Scripts/BLESendJointV.cs:125-131 | "A,B" with clean names parses to exactly [A, B] |
| LinkState.DefaultDeviceNamesParsed | Assets/Scripts/BLESendJointV.cs:74 | the default setting yields the two default names |
| LinkState.ScanSegment | Assets/Scripts/BLESendJointV.cs:471-490 | the scan segment leaves a resume point and keeps the attempt count |
| LinkState.DirectWaitCheck | Assets/Scripts/BLESendJointV.cs:448-461 | waiting keeps the attempt count; it ends only on a ready link, which clears reconnecting |
| LinkState.AttemptFromTopShape | Assets/Scripts/BLESendJointV.cs:424-471 | below the limit, an attempt counts one more and tries directly with a known device, else scans |
| LinkState.ResumeReconnectShape | Assets/Scripts/BLESendJointV.cs:421-497 | what each resume point continues with: waiting, scanning, checking readiness, or the next attempt |
| LinkState.StartReconnectFirstAttempt | Assets/Scripts/BLESendJointV.cs:392-402 | starting a reconnect counts the first attempt, leaves a resume point and touches neither sending nor failures |
| LinkState.AttemptCounting | Assets/Scripts/BLESendJointV.cs:426-434 | at the limit the coroutine ends without counting; otherwise it counts exactly one attempt |
| LinkState.DirectWaitCheckKeepsInv | Assets/Scripts/BLESendJointV.cs:439-461 | waiting keeps the reconnect invariant (attempts within the limit, resume point consistent) |
| LinkState.ScanSegmentKeepsInv | Assets/Scripts/BLESendJointV.cs:471-490 | the scan segment keeps the reconnect invariant |
| LinkState.AttemptFromTopKeepsInv | Assets/Scripts/BLESendJointV.cs:424-471 | an attempt keeps the reconnect invariant |
| LinkState.ResumeKeepsInv | Assets/Scripts/BLESendJointV.cs:421-497 | every resumption keeps the reconnect invariant |
| LinkState.StartReconnectKeepsInv | Assets/Scripts/BLESendJointV.cs:392-402 | a fresh reconnect satisfies the invariant |
| LinkState.WaitBound | Assets/Scripts/BLESendJointV.cs:448-453 | the 0.1 s wait loop runs at most interval × 10 steps |
| LinkState.ResumeProgresses | Assets/Scripts/BLESendJointV.cs:421-497 | each resumption counts an attempt or makes progress within the attempt |
| LinkState.DirectWaitProgresses | Assets/Scripts/BLESendJointV.cs:448-453 | each wait step brings the direct attempt closer to its end |
| LinkState.ReconnectLoopEnds | Assets/Scripts/BLESendJointV.cs:421-497 | with a positive attempt limit the reconnect coroutine ends after finitely many resumptions |
| LinkState.EndedCleared | Assets/Scripts/BLESendJointV.cs:421-497 | when the coroutine ends, reconnecting is cleared |
| LinkState.AttemptEndedCleared | Assets/Scripts/BLESendJointV.cs:426-431 | an attempt that ends the coroutine clears reconnecting |
| LinkState.SendSuccessResets | Assets/Scripts/BLESendJointV.cs:733-737 | a successful write zeroes the failures and stamps the success time |
| LinkState.SendFailureAccounting | Assets/Scripts/BLESendJointV.cs:753-775 | a failure counts one; reaching the threshold declares loss (not ready), which starts a reconnect iff auto-reconnect is on and none runs; otherwise nothing else changes |
| LinkState.CheckStatusDeclaresLoss | Assets/Scripts/BLESendJointV.cs:337-366 | loss is declared exactly when the link is up, silent for over five send intervals and at the failure threshold; a reconnect starts iff enabled |
| LinkState.CheckStatusNeedsBoth | Assets/Scripts/BLESendJointV.cs:350-366 | silence alone or failures alone do not declare loss |
| LinkState.StopSending | Assets/Scripts/BLESendJointV.cs:601-608 | stopping clears the handle, ends a loop it held, and changes nothing else |
| LinkState.ToggleEffect | Assets/Scripts/BLESendJointV.cs:1186-1213 | toggling stops a started transmission, starts one on a ready and found link, and does nothing while scanning |
| LinkState.SendTickSends | Assets/Scripts/BLESendJointV.cs:613-645 | a pass on a usable link counts one frame; success resets the failures, failure adds one |
| LinkState.StaleSendHandle | Assets/Scripts/BLESendJointV.cs:613-645 | as written, a loop that ends on a lost link keeps its handle, and after reconnecting no pass sends again |
| LinkState.ReconnectResumesSending | Assets/Scripts/BLESendJointV.cs:613-645 | with the handle released, the reconnected link restarts the loop and sends at once |
| LinkState.OnConnectPeripheral | Assets/Scripts/BLESendJointV.cs:259-272 | connecting records the device and clears connecting, reconnecting, lost, attempts and failures |
| LinkState.DiscoveryMatchesExactly | Assets/Scripts/BLESendJointV.cs:240-249 | a discovered device is accepted exactly when its name is a target |
| LinkState.DefaultTargets | Assets/Scripts/BLESendJointV.cs:74 | with the default setting exactly "ESP32-BLE" and "FeltSight BLE" are accepted |
| LinkState.ManualReconnectEffect | Assets/Scripts/BLESendJointV.cs:1218-1238 | a healthy link is left alone; otherwise the link is marked lost and a fresh reconnect starts at attempt 1 |
| LinkState.StatusOf | Assets/Scripts/BLESendJointV.cs:1252-1278 | each of the six reports is given exactly when its case is the first that holds, in the order the component tests them: connected (ready and not lost, with the device), reconnecting (with the attempt), connecting, scanning (scan not stopped), connection lost, not connected |
| EarlyLink.EarlyFrameIsCommand | Assets/Scripts/LYF/BLESendJointV.cs:301-347 | the early frame decodes to ten channels of file 1, volume 75 and the final speed byte |
| EarlyLink.ClampedMultiplier | Assets/Scripts/LYF/BLESendJointV.cs:531-568 | the multiplier is clamped to [0.1, 10] |
| EarlyLink.Link.constructor | Assets/Scripts/LYF/BLESendJointV.cs:27-52 | start state: nothing found or ready, no transmission, multiplier 1, speed byte 10, nothing sent |
| EarlyLink.Link.UpdateFingerVelocityAndSpeed | Assets/Scripts/LYF/BLESendJointV.cs:191-227 | the speed comes from the unfiltered hand speed (the slider applies only with a hand) |
| EarlyLink.Link.GenerateData | Assets/Scripts/LYF/BLESendJointV.cs:301-347 | the frame is a valid early command with the final speed byte |
| EarlyLink.Link.SendDataToESP32 | Assets/Scripts/LYF/BLESendJointV.cs:352-382 | a frame is delivered only with a ready characteristic and a successful write |
| EarlyLink.Link.SendCurrentFrame | Assets/Scripts/LYF/BLESendJointV.cs:352-382 | generates the frame and sends it |
| EarlyLink.Link.SendTick | Assets/Scripts/LYF/BLESendJointV.cs:266-296 | the loop runs while ready; a pass maps the hand's speed with the slider's multiplier (`Mapped`), then with a characteristic sends and counts one frame; a pass that finds the link not ready ends the loop and keeps the speed fields |
| EarlyLink.Link.StartDataTransmission | Assets/Scripts/LYF/BLESendJointV.cs:232-249 | starting needs the scan stopped; the counter restarts and the first pass runs at once, mapping the hand and sending one frame on a ready link; otherwise the speed fields are kept |
| EarlyLink.Link.StopDataTransmission | Assets/Scripts/LYF/BLESendJointV.cs:254-261 | stopping clears the handle and ends a loop it held |
| EarlyLink.Link.OnDiscoverPeripheral | Assets/Scripts/LYF/BLESendJointV.cs:116-129 | only the two target names stop the scan and connect |
| EarlyLink.Link.OnDiscoverCharacteristic | Assets/Scripts/LYF/BLESendJointV.cs:145-177 | the RX characteristic makes the link ready; without a handle transmission starts once the scan has stopped, restarting the counter, mapping the hand and sending one frame; otherwise the speed fields, the counter and the frames sent are kept; any other characteristic changes nothing |
| EarlyLink.Link.SendSingleData | Assets/Scripts/LYF/BLESendJointV.cs:411-438 | when ready and the scan is stopped the hand is mapped and one frame of it is sent; otherwise the speed fields and the frames sent are kept |
| EarlyLink.Link.SetVelocityMultiplier | Assets/Scripts/LYF/BLESendJointV.cs:531-568 | the argument clamped to [0.1, 10] is the multiplier the mapping finds (the slider's value takes over with a hand); the call throws exactly when a velocity text is assigned and no slider is, after the mapping is refreshed; without that throw a frame of the mapping is sent at once exactly when a handle exists on a ready link |
| EarlyLink.Link.SetVelocityText | Assets/Scripts/LYF/BLESendJointV.cs:469-476 | the text is assigned or removed, which decides whether SetVelocityMultiplier's unguarded slider read throws |
| EarlyLink.Link.ToggleDataTransmission | Assets/Scripts/LYF/BLESendJointV.cs:573-591 | stops a started transmission, keeping the counter and the frames sent; otherwise, when ready and the scan is stopped, starts one whose first pass maps the hand and sends; else changes nothing, the counter included |
| EarlyLink.Link.GetActualPlaybackRate | Assets/Scripts/LYF/BLESendJointV.cs:512-516 | the rate lies in [1, 4] and agrees with the sent byte up to rounding |
| TestLink.TestChannel | Assets/Scripts/LYF/BLETEST.cs:153-166 | file index 1..10, volume 50..100 and speed 10..40, each cycling with counter + channel |
| TestLink.TestChannels | Assets/Scripts/LYF/BLETEST.cs:144-170 | the ten channels of a test frame |
| TestLink.TestFrameAccepted | Assets/Scripts/LYF/BLETEST.cs:144-170 | a test frame decodes back to its channels |
| TestLink.FileIndicesDistinct | Assets/Scripts/LYF/BLETEST.cs:157 | the ten channels of a frame play ten different files |
| TestLink.NextFrameShifts | Assets/Scripts/LYF/BLETEST.cs:153-166 | the next frame is this frame shifted by one channel |
| TestLink.GenerateTestData | Assets/Scripts/LYF/BLETEST.cs:144-170 | the filling loop builds exactly the encoded test channels |
| TestLink.NameTypoRejectsGlove | Assets/Scripts/LYF/BLETEST.cs:39 | as written, the tester accepts "FeltSigh BLE" and rejects the glove's name "FeltSight BLE" |
| TestLink.TargetNameCorrected | Assets/Scripts/LYF/BLETEST.cs:39 | the corrected test differs from the written one on exactly the two names "FeltSigh BLE" and "FeltSight BLE" |
| TestLink.Tester.constructor | Assets/Scripts/LYF/BLETEST.cs:18-92 | start state: nothing found, nothing sent |
| TestLink.Tester.SendDataToESP32 | Assets/Scripts/LYF/BLETEST.cs:173-196 | delivered only with a ready characteristic and a successful write |
| TestLink.Tester.SendTick | Assets/Scripts/LYF/BLETEST.cs:129-141 | a pass while ready sends the frame for the current counter and counts it |
| TestLink.Tester.StartTestDataTransmission | Assets/Scripts/LYF/BLETEST.cs:109-116 | starting sends frame 0 at once when ready |
| TestLink.Tester.StopTestDataTransmission | Assets/Scripts/LYF/BLETEST.cs:119-126 | stopping clears the handle and ends a loop it held |
| TestLink.Tester.OnDiscoverPeripheral | Assets/Scripts/LYF/BLETEST.cs:36-46 | connects exactly to the two glove names (corrected test) |
| TestLink.Tester.OnDiscoverCharacteristic | Assets/Scripts/LYF/BLETEST.cs:60-89 | the RX characteristic makes the link ready and restarts test transmission, sending frame 0 and moving the counter to 1; any other characteristic changes nothing |
| TestLink.Tester.SendSingleTestData | Assets/Scripts/LYF/BLETEST.cs:221-232 | sends frame 0 once when ready |
| TestLink.Tester.ToggleTestDataTransmission | Assets/Scripts/LYF/BLETEST.cs:235-249 | stops a started test transmission, keeping the counter; otherwise, when ready, starts one that sends frame 0 at once and moves the counter to 1; else nothing changes |
| OneDollar.SmoothVec | Assets/Scripts/OneDollarFilter.cs:48-61 | the vector step moves the previous value by alpha times the difference |
| OneDollar.ScaledStep | Assets/Scripts/OneDollarFilter.cs:48-61 | a fraction alpha of a difference keeps its sign and does not exceed it |
| OneDollar.SmoothUp | Assets/Scripts/OneDollarFilter.cs:68-79 | smoothing towards a larger input stays between the previous value and the input |
| OneDollar.SmoothDown | Assets/Scripts/OneDollarFilter.cs:68-79 | smoothing towards a smaller input stays between the input and the previous value |
| OneDollar.SmoothBetween | Assets/Scripts/OneDollarFilter.cs:68-79 | the smoothed value always lies between the previous value and the input |
| OneDollar.SmoothFullStrength | Assets/Scripts/OneDollarFilter.cs:30-33 | at strength 1 the filter passes the input through |
| OneDollar.SmoothContracts | Assets/Scripts/OneDollarFilter.cs:68-79 | the distance to the input shrinks by the factor 1 − alpha |
| OneDollar.SmoothRepeatedDistance | Assets/Scripts/OneDollarFilter.cs:68-79 | after n steps on a constant input the distance is (1 − alpha)^n of the initial distance |
| OneDollar.SmoothRepeatedApproaches | Assets/Scripts/OneDollarFilter.cs:68-79 | repeated smoothing approaches a constant input monotonically without overshooting |
| OneDollar.OneDollarFilter.constructor | Assets/Scripts/OneDollarFilter.cs:21-24 | strength clamped to [0.01, 1], value zero, not initialised |
| OneDollar.OneDollarFilter.SetFilterStrength | Assets/Scripts/OneDollarFilter.cs:30-33 | the strength is clamped to [0.01, 1] |
| OneDollar.OneDollarFilter.GetFilterStrength | Assets/Scripts/OneDollarFilter.cs:38-41 | the strength read back lies in [0.01, 1] |
| OneDollar.OneDollarFilter.Filter | Assets/Scripts/OneDollarFilter.cs:48-61 | the first sample passes through; later ones are smoothed; the filter is then initialised and stores the result |
| OneDollar.OneDollarFilter.FilterScalar | Assets/Scripts/OneDollarFilter.cs:68-79 | the same rule on the x component only |
| OneDollar.OneDollarFilter.Reset | Assets/Scripts/OneDollarFilter.cs:84-88 | the filter is uninitialised and zero |
| OneDollar.FirstSamplePassesThrough | Assets/Scripts/OneDollarFilter.cs:68-79 | on a fresh filter the first output is the sample and the second is one smoothing step |
| Strings.Split | Assets/Scripts/BLESendJointV.cs:127 | splitting gives at least one part and no part holds the separator |
| Strings.JoinSplit | Assets/Scripts/BLESendJointV.cs:127 | the parts joined with the separator give back the string |
| Strings.SplitWithoutSeparator | Assets/Scripts/BLESendJointV.cs:127 | a string without the separator is its only part |
| Strings.SplitAtFirst | Assets/Scripts/BLESendJointV.cs:127 | the first part runs up to the first separator |
| Strings.TrimStart | Assets/Scripts/BLESendJointV.cs:130 | removes exactly the leading white space |
| Strings.TrimEnd | Assets/Scripts/BLESendJointV.cs:130 | removes exactly the trailing white space |
| Strings.Trim | Assets/Scripts/BLESendJointV.cs:130 | a trimmed string neither starts nor ends with white space |
| Strings.TrimIsInnerPiece | Assets/Scripts/BLESendJointV.cs:130 | the trimmed string is a contiguous piece with only white space cut around it |
| Strings.TrimOfTrimmed | Assets/Scripts/BLESendJointV.cs:130 | trimming a trimmed string changes nothing |
| Strings.UpperChar | Assets/Scripts/HandRaycaster.cs:495 | maps lower-case ASCII letters to upper case and leaves every other character |
| Strings.LowerChar | Assets/Scripts/HandRaycaster.cs:495 | maps upper-case ASCII letters to lower case and leaves every other character |
| Strings.ToUpper | Assets/Scripts/HandRaycaster.cs:495 | upper-cases character by character, same length |
| Strings.ToLower | Assets/Scripts/HandRaycaster.cs:495 | lower-cases character by character, same length |
| Strings.ToLowerOfToUpper | Assets/Scripts/HandRaycaster.cs:495 | lower-casing ignores an earlier upper-casing |
| HandRays.FingerName | Assets/Scripts/HandRaycaster.cs:480-490 | indices 0..4 have finger names; every other index is "Unknown" |
| HandRays.FingerIndex | Assets/Scripts/HandRaycaster.cs:493-505 | the index is −1..4, and −1 for a missing name |
| HandRays.FingerNameRoundTrip | Assets/Scripts/HandRaycaster.cs:480-505 | the index of a finger's name is that finger |
| HandRays.FingerIndexIgnoresCase | Assets/Scripts/HandRaycaster.cs:493-505 | the lookup ignores letter case |
| HandRays.FingerIndexKnown | Assets/Scripts/HandRaycaster.cs:480-505 | a recognised name is that finger's name up to case |
| HandRays.LineIndex | Assets/Scripts/HandRaycaster.cs:350-362 | slots 0..4 belong to the left hand and 5..9 to the right |
| HandRays.LineIndexInverse | Assets/Scripts/HandRaycaster.cs:350-362 | the hand and finger can be read back from the slot |
| HandRays.LineIndexInjective | Assets/Scripts/HandRaycaster.cs:350-362 | no two rays share a slot |
| HandRays.FingerJoints | Assets/Scripts/HandRaycaster.cs:418-460 | joints are found exactly for a valid finger with both tip and distal poses, and returned as given |
| HandRays.EuroFilter.constructor | Assets/Scripts/HandRaycaster.cs:78-83 | the filter keeps the given parameters |
| HandRays.EuroFilter.UpdateParams | Assets/Scripts/HandRaycaster.cs:102-113 | the parameters are replaced |
| HandRays.FilterContainer.constructor | Assets/Scripts/HandRaycaster.cs:129-133 | empty container with the given parameters |
| HandRays.FilterContainer.GetFilter | Assets/Scripts/HandRaycaster.cs:138-146 | returns the key's filter, creating one with the container's parameters only when missing |
| HandRays.FilterContainer.UpdateAllParams | Assets/Scripts/HandRaycaster.cs:162-170 | every existing filter and the defaults get the new parameters; no key is added or removed |
| HandRays.Raycaster.constructor | Assets/Scripts/HandRaycaster.cs:223-244 | the settings are kept and an empty filter container is created with them |
| HandRays.Raycaster.SetRayDistance | Assets/Scripts/HandRaycaster.cs:633-636 | the distance is floored at 0.1 |
| HandRays.Raycaster.SetFilteringEnabled | Assets/Scripts/HandRaycaster.cs:510-515 | the flag is set |
| HandRays.Raycaster.UpdateFilterParams | Assets/Scripts/HandRaycaster.cs:518-528 | the component and every filter in its container get the new parameters |
| HexColor.RemoveHashes | Assets/VFX/VFXMan.cs:170 | every '#' is removed and every other character is kept |
| HexColor.ExpandShort | Assets/VFX/VFXMan.cs:173-178 | a 3-digit form doubles each digit |
| HexColor.Prepared | Assets/VFX/VFXMan.cs:170-184 | an 8-digit string without '#' is used as it is |
| HexColor.HexDigit | Assets/VFX/VFXMan.cs:189-192 | a hex digit has a value 0..15 |
| HexColor.ParseByte | Assets/VFX/VFXMan.cs:189-192 | a pair parses exactly when it is two hex digits, to 16·high + low, or a '+' sign and one hex digit, to that digit |
| HexColor.Component | Assets/VFX/VFXMan.cs:194 | a byte over 255 lies in [0, 1] |
| HexColor.HexToColor | Assets/VFX/VFXMan.cs:167-199 | the parse fails exactly on an 8-character string with a pair Convert.ToByte refuses; any other length gives white; components lie in [0, 1] |
| HexColor.DigitChar | Assets/VFX/VFXMan.cs:189-192 | every value 0..15 has a digit that parses to it |
| HexColor.HexPair | Assets/VFX/VFXMan.cs:189-192 | every byte has a 2-digit form that parses back to it |
| HexColor.PreparedPairs | Assets/VFX/VFXMan.cs:167-199 | a string that prepares to four byte pairs parses to those four components |
| HexColor.EightDigitRoundTrip | Assets/VFX/VFXMan.cs:167-199 | writing four bytes in hex and parsing gives them back |
| HexColor.HashPrefixRemoved | Assets/VFX/VFXMan.cs:170 | a leading '#' is dropped |
| HexColor.PreparedSix | Assets/VFX/VFXMan.cs:181-184 | six digits get the alpha "FF" appended |
| HexColor.SixDigitsAreOpaque | Assets/VFX/VFXMan.cs:167-199 | "#RRGGBB" parses to that colour, fully opaque |
| HexColor.ShortFormExpands | Assets/VFX/VFXMan.cs:173-178 | a 3-digit colour means the same as its doubled form |
| HexColor.ShortFormExample | Assets/VFX/VFXMan.cs:167-199 | "F0A" is (1, 0, 170/255, 1) |
| HexColor.SignedPairs | Assets/VFX/VFXMan.cs:189-192 | "+F+F+F+F" is a colour: each '+'-signed pair is the byte 15 |
| VfxMap.NewEffect | Assets/VFX/VFXMan.cs:275-283 | a new effect has no mesh, no mask ball and no finger hits |
| VfxMap.HitParameters | Assets/VFX/VFXMan.cs:318-328 | the loop over the hits sets the parameter slots given by the pure decoding |
| VfxMap.WithMeshMembers | Assets/VFX/VFXMan.cs:332-348 | a mesh is nearby exactly when it is listed with a mesh |
| VfxMap.WithMeshOfComplete | Assets/VFX/VFXMan.cs:332-348 | when every entry has a mesh, all are kept in order |
| VfxMap.GetNearbyMeshes | Assets/VFX/VFXMan.cs:332-348 | the loop keeps exactly the entries with a mesh, in order |
| VfxMap.Retained | Assets/VFX/VFXMan.cs:264-272 | the kept effects are exactly those of nearby meshes, unchanged |
| VfxMap.RemoveStale | Assets/VFX/VFXMan.cs:264-272 | the removal loop keeps exactly the nearby meshes' effects |
| VfxMap.HitSlot | Assets/VFX/VFXMan.cs:320-324 | a decoded hit key gives a slot −1..9 |
| VfxMap.HitSlotOfRayKey | Assets/VFX/VFXMan.cs:320-326 | a ray key decodes to the ray's line slot, and its parameter number lies in 1..10 |
| VfxMap.HitParamsOfRays | Assets/VFX/VFXMan.cs:318-328 | hits from valid rays set only parameters 1..10 |
| VfxMap.HitParamsKeys | Assets/VFX/VFXMan.cs:318-328 | a parameter is set exactly when some hit decodes to it |
| VfxMap.HitParamsLastWins | Assets/VFX/VFXMan.cs:318-328 | a later hit to the same parameter overwrites an earlier one |
| VfxMap.BallRadius | Assets/VFX/VFXMan.cs:291-315 | 2 without real hand data; with it, in [0.5, 1] when the hands touch and 0 otherwise |
| VfxMap.BallRadiusIsClampedPalmRadius | Assets/VFX/VFXMan.cs:294-300 | the radius is the palm-angle radius clamped to [0.5, 1]; 20° or less gives 0.5 and 60° or more gives 1 |
| VfxMap.BallRadiusMonotone | Assets/VFX/VFXMan.cs:294-300 | a wider palm angle never shrinks the ball |
| VfxMap.Configured | Assets/VFX/VFXMan.cs:284-328 | configuring sets the mesh, sets the ball only with real hand data, and sets the hit parameters over the old ones |
| VfxMap.ConfiguredTwice | Assets/VFX/VFXMan.cs:284-328 | configuring twice with the same inputs equals configuring once |
| VfxMap.SyncKeys | Assets/VFX/VFXMan.cs:274-283 | after the pass every nearby mesh has an effect and no other keys are added |
| VfxMap.SyncSerials | Assets/VFX/VFXMan.cs:274-283 | instantiation only creates fresh effects: serials stay distinct and below the counter |
| VfxMap.SyncUntouched | Assets/VFX/VFXMan.cs:274-283 | effects of meshes not nearby are left unchanged |
| VfxMap.SyncConfigures | Assets/VFX/VFXMan.cs:274-328 | every nearby mesh's effect ends configured for that mesh |
| VfxMap.VfxManager.constructor | Assets/VFX/VFXMan.cs:248-261 | no effects and no instances |
| VfxMap.VfxManager.CreateVFX4Mesh | Assets/VFX/VFXMan.cs:248-330 | nothing changes without the manager or nearby meshes; otherwise stale effects go and the rest are created and configured as the pure pass says |
| VfxMap.VfxManager.ConfigureMesh | Assets/VFX/VFXMan.cs:284-328 | the effect of one mesh is configured and the radius is recorded |
| EarlyVfxMap.EarlyBallRadius | Assets/Scripts/LYF/VFX/VFXMan.cs:121-132 | with the hands apart the radius is 0 |
| EarlyVfxMap.ClampedRadiusRefinesEarly | Assets/Scripts/LYF/VFX/VFXMan.cs:121-132 | the current radius is the early one clamped to [0.5, 1], and the two agree between 20° and 60° |
| EarlyVfxMap.EarlyRadiusUnclamped | Assets/Scripts/LYF/VFX/VFXMan.cs:121-132 | the early radius is unclamped: 100° gives 1.5 and −40° a negative radius |
| EarlyVfxMap.EarlyVfxManager.constructor | Assets/Scripts/LYF/VFX/VFXMan.cs:78-90 | no effects and no instances |
| EarlyVfxMap.EarlyVfxManager.CreateVFX4Mesh | Assets/Scripts/LYF/VFX/VFXMan.cs:78-140 | the same pass with the early unclamped radius and no hit parameters |
| MeshMerge.WithinRadiusMembers | Assets/Scripts/LYF/VFXMan.cs:185-205 | a filter is selected exactly when it is present with a mesh and lies within the merge radius |
| MeshMerge.InsertSorted | Assets/Scripts/LYF/VFXMan.cs:207-212 | inserting at the right place keeps the order and adds exactly the element |
| MeshMerge.InsertionPoint | Assets/Scripts/LYF/VFXMan.cs:207-212 | the position found splits nearer and farther entries |
| MeshMerge.SortByDistance | Assets/Scripts/LYF/VFXMan.cs:207-212 | the result is ordered by distance and is a permutation of the input |
| MeshMerge.GetNearbyMeshes | Assets/Scripts/LYF/VFXMan.cs:185-215 | the result holds exactly the meshes within the radius, nearest first |
| MeshMerge.PlacedVertices | Assets/Scripts/LYF/VFXMan.cs:266-272 | every vertex is placed into the combined mesh's space, one for one |
| MeshMerge.VertexNormals | Assets/Scripts/LYF/VFXMan.cs:275-282 | one normal per vertex; up when the mesh lacks it |
| MeshMerge.VertexUVs | Assets/Scripts/LYF/VFXMan.cs:285-292 | one UV per vertex; zero when the mesh lacks it |
| MeshMerge.Rebased | Assets/Scripts/LYF/VFXMan.cs:296-299 | every index is shifted by the vertex offset |
| MeshMerge.MergeAligned | Assets/Scripts/LYF/VFXMan.cs:237-323 | the vertex, normal and UV lists stay equally long, equal to the offset, and within the vertex cap unless empty |
| MeshMerge.MergeIndicesInRange | Assets/Scripts/LYF/VFXMan.cs:296-301 | every triangle index points at a merged vertex (when the source meshes' indices are in range) |
| MeshMerge.MergeWholeTriangles | Assets/Scripts/LYF/VFXMan.cs:296-299 | the merged index list holds whole triangles |
| MeshMerge.StopIsFinal | Assets/Scripts/LYF/VFXMan.cs:253-257 | once the cap stops the merge, later meshes change nothing |
| MeshMerge.MergeExtends | Assets/Scripts/LYF/VFXMan.cs:237-323 | merging more meshes only extends the lists |
| MeshMerge.AppendVertices | Assets/Scripts/LYF/VFXMan.cs:266-292 | the loop appends the placed vertices, normals and UVs |
| MeshMerge.AppendTriangles | Assets/Scripts/LYF/VFXMan.cs:296-299 | the loop appends the triangle indices shifted by the offset |
| MeshMerge.CombinedMesh | Assets/Scripts/LYF/VFXMan.cs:305-316 | no vertices leaves the mesh cleared and empty |
| MeshMerge.MeshInfo | Assets/Scripts/LYF/VFXMan.cs:369-381 | no mesh reports (0, 0); otherwise the vertex count and the triangle count |
| MeshMerge.MergedInfo | Assets/Scripts/LYF/VFXMan.cs:369-381 | the combined mesh reports at most the cap of vertices and whole triangles |
| MeshMerge.MeshMerger.constructor | Assets/Scripts/LYF/VFXMan.cs:25-28 | the cap and radius are kept; no mesh yet |
| MeshMerge.MeshMerger.CreateCombinedMesh | Assets/Scripts/LYF/VFXMan.cs:72-73 | an empty combined mesh exists |
| MeshMerge.MeshMerger.CombineMeshes | Assets/Scripts/LYF/VFXMan.cs:237-323 | the combined mesh is the merge of the given meshes, within the cap |
| MeshMerge.MeshMerger.UpdateCombinedMesh | Assets/Scripts/LYF/VFXMan.cs:124-154 | without the mesh manager or without nearby meshes nothing changes; otherwise the meshes within the radius, nearest first, are merged into the combined mesh |
| MeshMerge.MeshMerger.SetMergeRadius | Assets/Scripts/LYF/VFXMan.cs:362-366 | the radius is set as given; without the mesh manager or without nearby meshes the combined mesh is unchanged; otherwise the meshes within the new radius, nearest first, are merged into it at once |
| MeshMerge.MeshMerger.CombinedMeshInfo | Assets/Scripts/LYF/VFXMan.cs:369-381 | the info of the stored combined mesh |

## Left out

- **Bluetooth transport.** The transport (CoreBluetooth) and Unity itself are not modelled: callbacks are methods, a write's result is the `writeOk` input, and time is the `now` input.
- **Text output.** Logging, UI text and `Debug` output are left out. So are `LogDataContent`'s text output and the formatting of `GetConnectionStatus`/`GetFilterStatus`; `LogDataContent`'s frame check is `GloveFrame.Decode`. The early link keeps one effect of its text: with a velocity text and no slider, `EarlyLink.Link.SetVelocityMultiplier` throws before its resend (`TextThrows`).
- **Vector magnitude.** `Vector3.magnitude` (a square root) is a caller-supplied function.
- **One Euro filter.** Its arithmetic (`OneEuroFilter3D.Step`, `FilterVector3`) is not modelled: only its parameters are. The model stays in exact real arithmetic.
- **Floating point.** All `float`/`double` arithmetic is exact real arithmetic. Rounding errors are not captured.
- **Physics and rendering.** Ray casts, the finger spheres, line renderers, transforms, materials, gizmos, `UpdateVFXParameters`, `UpdateMeshMaterialProperties`, `CalculateMeshCenter`, `HasTransformChanged` and the `Update` timers are left out. A mesh's distance and its placed vertices are function inputs (`distance`, `placed`, `turned`).
- **Effect objects.** Effects are values in a map, numbered by a serial. `Instantiate`/`Destroy` aliasing is not modelled.
- **Mesh manager.** The "manager present" test is one `available` flag.
- **Editor-only code.** `UNITY_EDITOR` branches and the editor scripts are left out.
- **Other components.** `getRandomColors` and the other setters of the effect manager that only store a value are left out. So are `HandRaycaster`'s sphere helpers and the hardware SDK.
- **TX notification.** The TX characteristic's notify subscription has no observable effect on the model.
- MeshMerge.SortByDistance: `List.Sort` is not stable. The model accepts any ordering by distance that is a permutation of the input, so it does not pin down the order of equal distances.
- MeshMerge.MeshMerger.CombineMeshes: requires the combined mesh to exist. `Start` creates it (`CreateCombinedMesh`) before any call.
- VfxMap.VfxManager.CreateVFX4Mesh: requires each hit key to hold a '_' (`Decodable`). The source would throw on such a key, and every key the ray caster writes has one.

- GloveLink.Link.SendTick: as written, a loop that ends on a lost link keeps its handle (`LinkState.SendTickAsWritten`). The class runs the corrected loop, which releases it, so after a loss every method that reads the handle sees the corrected one: `OnDiscoverCharacteristic` restarts the loop where the component stays silent, `SetVelocityMultiplier` does not resend where the component would, and `ToggleDataTransmission` starts a reconnect where the component (line 1188) would only stop the stale handle (see Findings).
- GloveLink.Link.SendPass: the frame counter is the coroutine's local `int`, which restarts at 0 with each new loop and is not read by `GenerateData`. It is an unbounded count in the connection state, so its 32-bit wrap-around is not modelled.
- GloveLink.Link.constructor: requires the two filter fields to hold distinct objects. If the inspector assigns one component to both, the velocity and magnitude filters share their state; that aliasing is not modelled.
- TestLink.Tester.OnDiscoverPeripheral: runs the corrected name test. As written (`TestLink.IsTargetNameAsWritten`), the tester connects to "FeltSigh BLE" and never to the glove (see Findings).
- HandRays.FingerJoints: returns the raw tracker poses. With `useFiltering` set the source passes both through the filter container (creating a filter per key on first use), and that smoothing is not modelled.
- HandRays.FingerIndex: lower-cases with the ASCII-only `Strings.ToLower`. Under a culture with other casing rules (Turkish: "Index" lower-cases to "ındex") the source returns -1 where the model returns 1.
- Strings.ToLower: ASCII letters only. .NET's culture-sensitive and full-Unicode casing is not modelled.
- Strings.ToUpper: ASCII letters only. .NET's culture-sensitive and full-Unicode casing is not modelled. The UUID comparisons that use it only meet hex digits and '-', where the two agree.
- Strings.LowerChar: ASCII letters only, as for `Strings.ToLower`.
- Strings.UpperChar: ASCII letters only, as for `Strings.ToUpper`.
- HexColor.HexToColor: lengths count characters (Unicode scalar values). C# counts UTF-16 units, so a character outside the Basic Multilingual Plane counts twice there.

## Findings

| source | as written | input that shows it | evidently intended | confidence | as-written member | corrected member |
|---|---|---|---|---|---|---|
| Assets/Scripts/BLESendJointV.cs:613-645 | the transmission coroutine ends when the link goes down but leaves `m_DataSendCoroutine` set, and `OnDiscoverCharacteristic` (line 295) only starts transmission when that handle is null | connected and transmitting → link lost → reconnect → RX characteristic found again: the periodic loop never restarts (single sends and the multiplier's resend still send) | the loop clears its handle when it ends, so the reconnected link resumes sending | not executed | LinkState.StaleSendHandle | LinkState.ReconnectResumesSending |
| Assets/Scripts/LYF/BLETEST.cs:39 | the tester compares the name with "FeltSigh BLE" | a glove advertising "FeltSight BLE" is ignored | the glove's name "FeltSight BLE", as in the other link components | not executed | TestLink.NameTypoRejectsGlove | TestLink.TargetNameCorrected |
