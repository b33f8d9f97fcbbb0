/**
  The telemetry link component (BLESendJointV) as an object whose fields the
  BLE callbacks, the two coroutines and the public commands update in place.

  The outside world enters as parameters: `hand` is the index-fingertip
  velocity the hand tracker reports (None when tracking fails), `writeOk`
  whether the characteristic write succeeds or throws, `now` the clock, and
  `magnitude` the length function of Vector3. `sent` records the frames the
  transport accepted. A coroutine is modelled by the method that runs one of
  its segments: `SendTick` is one pass of the transmission loop after its
  wait, `ResumeReconnect` one resumption of the reconnect coroutine.

  Every method is proved to move the connection fields exactly as the
  matching transition of LinkState says, and to keep `Valid`: the reconnect
  invariant, a running transmission always has a handle, the speed byte stays
  in 10..40, and every frame the glove was sent is a well-formed command.
*/
module GloveLink {
  import opened EngineMath
  import opened Wrappers
  import opened Strings
  import opened GloveFrame
  import opened CommandMapper
  import opened OneDollar
  import LinkState

  /** The only file index the link sends. */
  const FileIndex: Byte := 1
  /** The bounds SetVelocityMultiplier clamps its argument to. */
  const MaxMultiplier: real := 10.0
  /** SetNormalVolume keeps the volume at or below 100 (percent). */
  const MaxVolume: int := 100

  /** A frame as the link writes it: ten identical blocks with file index 1 and a speed byte in 10..40. */
  predicate IsGloveCommand(frame: seq<Byte>) {
    Decode(frame).Some? &&
    (var channels := Decode(frame).value;
     && (forall i :: 0 <= i < ChannelCount ==> channels[i] == channels[0])
     && channels[0].fileIndex == FileIndex
     && MinSpeedByte <= channels[0].speed <= MaxSpeedByte)
  }

  /** The frame GenerateData builds from the volume, the mapped speed byte and the multiplier. */
  function LinkFrame(volume: Byte, speedByte: Byte, multiplier: real): seq<Byte> {
    Encode(Uniform(Channel(FileIndex, volume, FinalSpeedByte(speedByte, multiplier))))
  }

  /** Every generated frame passes the format check, and its ten blocks carry volume and final speed byte. */
  lemma LinkFrameIsCommand(volume: Byte, speedByte: Byte, multiplier: real)
    ensures Decode(LinkFrame(volume, speedByte, multiplier)) == Some(Uniform(Channel(FileIndex, volume, FinalSpeedByte(speedByte, multiplier))))
    ensures IsGloveCommand(LinkFrame(volume, speedByte, multiplier))
  {
    DecodeEncode(Uniform(Channel(FileIndex, volume, FinalSpeedByte(speedByte, multiplier))));
  }

  /** Start's parsing of the device-name setting: the defaults for an empty setting, else split on commas and trim. */
  method ParseDeviceNames(deviceName: string) returns (names: seq<string>)
    ensures names == LinkState.TargetDeviceNames(deviceName)
  {
    if |deviceName| == 0 {
      return LinkState.DefaultDeviceNames;
    }
    var parts := Split(deviceName, ',');
    names := TrimEach(parts);
    LinkState.TargetDeviceNamesOfSetting(deviceName);
  }

  /** The loop of Start that trims each entry of the split array in place. */
  method TrimEach(parts: seq<string>) returns (names: seq<string>)
    ensures names == LinkState.TrimAll(parts)
  {
    var entries := new string[|parts|](i requires 0 <= i < |parts| => parts[i]);
    for i := 0 to entries.Length
      invariant forall k :: 0 <= k < i ==> entries[k] == Trim(parts[k])
      invariant forall k :: i <= k < entries.Length ==> entries[k] == parts[k]
    {
      entries[i] := Trim(entries[i]);
    }
    names := entries[..];
  }

  class Link {
    const magnitude: Vec3 -> real
    var cfg: LinkState.Settings
    /** The multiplier slider's value, when a slider is assigned. */
    var slider: Option<real>
    var targetDeviceNames: seq<string>
    var velocityFilter: OneDollarFilter?
    var magnitudeFilter: OneDollarFilter?

    /** The connection flags and counters, kept together as one LinkState value. */
    var conn: LinkState.Conn

    var rawVelocity: Vec3
    var rawMagnitude: real
    var filteredVelocity: Vec3
    var filteredMagnitude: real
    var velocityMultiplier: real
    var currentSpeed: real
    var currentSpeedByte: Byte
    var currentVolume: Byte

    var sent: seq<seq<Byte>>

    /** The reconnect invariant holds, and a running transmission loop always has its handle. */
    ghost predicate ConnValid()
      reads this`cfg, this`conn
    {
      LinkState.ReconnectInv(cfg, conn) && (conn.sendRunning ==> conn.sendHandle)
    }

    /** The volume setting fits a byte, the mapped speed byte is in 10..40, and the two filters are distinct objects. */
    ghost predicate MappingValid()
      reads this`cfg, this`currentSpeedByte, this`velocityFilter, this`magnitudeFilter
    {
      && 0 <= cfg.normalVolume < 256
      && MinSpeedByte <= currentSpeedByte <= MaxSpeedByte
      && (velocityFilter != null ==> velocityFilter != magnitudeFilter)
    }

    /** Every frame the transport accepted is a glove command. */
    ghost predicate SentValid()
      reads this`sent
    {
      forall i :: 0 <= i < |sent| ==> IsGloveCommand(sent[i])
    }

    ghost predicate Valid()
      reads this
    {
      ConnValid() && MappingValid() && SentValid()
    }

    /**
      The mapping fields and the filters after one UpdateFingerVelocityAndSpeed
      on `hand`, which found `prior` as the multiplier and the filters as they
      were in the old state; when `framed`, GenerateData then took the slider's
      value as the multiplier.
    */
    twostate predicate Refreshed(hand: Option<Vec3>, prior: real, framed: bool)
      reads this, velocityFilter, magnitudeFilter
    {
      var m := EffectiveMultiplier(if slider.Some? then slider.value else prior);
      && velocityFilter == old(velocityFilter) && magnitudeFilter == old(magnitudeFilter)
      && rawVelocity == (if hand.Some? then hand.value else Zero3)
      && rawMagnitude == magnitude(rawVelocity)
      && 0 <= cfg.normalVolume < 256
      && currentVolume == VolumeFor(rawMagnitude, cfg.volumeThreshold, cfg.normalVolume)
      && filteredVelocity == (if cfg.enableVelocityFilter && velocityFilter != null
                              then FilteredVec(old(velocityFilter.isInitialized), old(velocityFilter.filteredValue),
                                               rawVelocity, velocityFilter.filterStrength)
                              else rawVelocity)
      && filteredMagnitude == (if cfg.enableMagnitudeFilter && magnitudeFilter != null
                               then FilteredScalar(old(magnitudeFilter.isInitialized), old(magnitudeFilter.filteredValue.x),
                                                   magnitude(filteredVelocity), magnitudeFilter.filterStrength)
                               else magnitude(filteredVelocity))
      && (velocityFilter != null ==>
            if cfg.enableVelocityFilter then velocityFilter.isInitialized && velocityFilter.filteredValue == filteredVelocity
            else unchanged(velocityFilter))
      && (magnitudeFilter != null ==>
            if cfg.enableMagnitudeFilter
            then magnitudeFilter.isInitialized && magnitudeFilter.filteredValue == old(magnitudeFilter.filteredValue).(x := filteredMagnitude)
            else unchanged(magnitudeFilter))
      && currentSpeed == Clamp(ScaledSpeed(filteredMagnitude, m), cfg.minVelocityThreshold, cfg.maxVelocityThreshold)
      && currentSpeedByte == SpeedByteFor(ScaledSpeed(filteredMagnitude, m), cfg.minVelocityThreshold, cfg.maxVelocityThreshold)
      && velocityMultiplier == (if framed && slider.Some? then slider.value else m)
    }

    /** No mapping pass ran: the mapping fields and both filters are as they were. */
    twostate predicate MappingKept()
      reads this, velocityFilter, magnitudeFilter
    {
      && rawVelocity == old(rawVelocity) && rawMagnitude == old(rawMagnitude)
      && filteredVelocity == old(filteredVelocity) && filteredMagnitude == old(filteredMagnitude)
      && velocityMultiplier == old(velocityMultiplier) && currentSpeed == old(currentSpeed)
      && currentSpeedByte == old(currentSpeedByte) && currentVolume == old(currentVolume)
      && velocityFilter == old(velocityFilter) && magnitudeFilter == old(magnitudeFilter)
      && (velocityFilter != null ==> unchanged(velocityFilter))
      && (magnitudeFilter != null ==> unchanged(magnitudeFilter))
    }

    /** The field initialisers and Start: parse the device names; nothing is connected yet. */
    constructor (settings: LinkState.Settings, sliderValue: Option<real>, vf: OneDollarFilter?, mf: OneDollarFilter?,
                 magnitude: Vec3 -> real, now: real)
      requires 0 <= settings.normalVolume < 256
      requires vf != null ==> vf != mf
      ensures Valid()
      ensures conn == LinkState.InitialConn(now)
      ensures cfg == settings && slider == sliderValue && velocityFilter == vf && magnitudeFilter == mf
      ensures targetDeviceNames == LinkState.TargetDeviceNames(settings.deviceName)
      ensures currentSpeedByte == MinSpeedByte && currentVolume == 75 && velocityMultiplier == 1.0
      ensures sent == []
    {
      this.magnitude := magnitude;
      cfg := settings;
      slider := sliderValue;
      velocityFilter := vf;
      magnitudeFilter := mf;
      conn := LinkState.Conn(false, false, false, false, false, 0, None, None, 0, now, false, false, false, 0);
      rawVelocity, rawMagnitude, filteredVelocity, filteredMagnitude := Zero3, 0.0, Zero3, 0.0;
      velocityMultiplier, currentSpeed, currentSpeedByte, currentVolume := 1.0, 0.0, 10, 75;
      sent := [];
      new;
      targetDeviceNames := ParseDeviceNames(settings.deviceName);
    }

    // ------------------------------------------------------------ reconnect coroutine

    method StartScan()
      requires ConnValid()
      modifies this`conn
      ensures ConnValid()
      ensures conn == LinkState.StartScan(old(conn))
    {
      conn := conn.(scanStopped := false);
    }

    /** The scan part of a reconnect attempt, up to its first wait. */
    method ScanSegment()
      requires ConnValid()
      modifies this`conn
      ensures ConnValid()
      ensures conn == LinkState.ScanSegment(old(conn))
    {
      if !conn.scanStopped {
        conn := conn.(reconnectAt := Some(LinkState.AfterStopScan));
      } else {
        StartScan();
        conn := conn.(reconnectAt := Some(LinkState.AfterScanWait));
      }
    }

    /** The test of the direct-connect wait loop after `steps` waits. */
    method DirectWaitCheck(steps: nat)
      requires ConnValid()
      modifies this`conn
      ensures ConnValid()
      ensures conn == LinkState.DirectWaitCheck(cfg, old(conn), steps)
    {
      if (steps as real) / 10.0 < cfg.reconnectInterval && conn.connecting {
        conn := conn.(reconnectAt := Some(LinkState.DirectWait(steps)));
      } else if conn.ready {
        conn := conn.(reconnecting := false, lost := false, reconnectAt := None);
      } else {
        ScanSegment();
      }
    }

    /** The top of the reconnect loop. */
    method AttemptFromTop()
      requires ConnValid()
      modifies this`conn
      ensures ConnValid()
      ensures conn == LinkState.AttemptFromTop(cfg, old(conn))
    {
      LinkState.AttemptFromTopShape(cfg, conn);
      if cfg.maxReconnectAttempts > 0 && conn.attempts >= cfg.maxReconnectAttempts {
        conn := conn.(reconnecting := false, reconnectAt := None);
        return;
      }
      conn := conn.(attempts := conn.attempts + 1);
      if conn.peripheral.Some? {
        conn := conn.(connecting := true);
        DirectWaitCheck(0);
      } else {
        ScanSegment();
      }
    }

    method StartReconnectProcess()
      requires ConnValid()
      modifies this`conn
      ensures ConnValid()
      ensures conn == LinkState.StartReconnect(cfg, old(conn))
    {
      conn := conn.(reconnectAt := None, reconnecting := true, attempts := 0);
      AttemptFromTop();
    }

    method StopReconnectProcess()
      requires ConnValid()
      modifies this`conn
      ensures ConnValid()
      ensures conn == LinkState.StopReconnect(old(conn))
    {
      conn := conn.(reconnectAt := None, reconnecting := false);
    }

    /** The reconnect coroutine resumes after its current wait and runs to its next wait or its end. */
    method ResumeReconnect()
      requires ConnValid()
      modifies this`conn
      ensures ConnValid()
      ensures conn == LinkState.ResumeReconnect(cfg, old(conn))
    {
      LinkState.ResumeReconnectShape(cfg, conn);
      if conn.reconnectAt.None? {
        return;
      }
      var point := conn.reconnectAt.value;
      if point.DirectWait? {
        DirectWaitCheck(point.steps + 1);
      } else if point.AfterStopScan? {
        StartScan();
        conn := conn.(reconnectAt := Some(LinkState.AfterScanWait));
      } else if point.AfterScanWait? {
        if conn.ready {
          conn := conn.(reconnecting := false, lost := false, reconnectAt := None);
        } else {
          conn := conn.(reconnectAt := Some(LinkState.BeforeNextAttempt));
        }
      } else {
        AttemptFromTop();
      }
    }

    // ------------------------------------------------------------ health accounting

    /** A refused or failed write: count it and, at the threshold, declare the link lost. */
    method SendFailed()
      requires ConnValid()
      modifies this`conn
      ensures ConnValid()
      ensures conn == LinkState.SendFailed(cfg, old(conn))
    {
      conn := conn.(failures := conn.failures + 1);
      if conn.failures >= cfg.failureThreshold && !conn.lost {
        conn := conn.(lost := true, ready := false);
        if cfg.autoReconnect && !conn.reconnecting {
          StartReconnectProcess();
        }
      }
    }

    /** SendDataToESP32: write a frame when the link can send, and account for the outcome. */
    method SendDataToESP32(data: seq<Byte>, writeOk: bool, now: real)
      requires ConnValid() && SentValid() && IsGloveCommand(data)
      modifies this`conn, this`sent
      ensures ConnValid() && SentValid()
      ensures conn == LinkState.SendOutcome(cfg, old(conn), writeOk, now)
      ensures sent == if LinkState.CanSend(old(conn)) && writeOk then old(sent) + [data] else old(sent)
    {
      if !conn.hasCharacteristic || !conn.ready || conn.lost {
        SendFailed();
        return;
      }
      if writeOk {
        sent := sent + [data];
        conn := conn.(failures := 0, lastSuccess := now);
      } else {
        SendFailed();
      }
    }

    /** CheckConnectionStatus, run every frame. */
    method CheckConnectionStatus(now: real)
      requires ConnValid()
      modifies this`conn
      ensures ConnValid()
      ensures conn == LinkState.CheckStatus(cfg, old(conn), now)
    {
      if conn.lost || conn.reconnecting || !conn.ready {
        return;
      }
      if now - conn.lastSuccess > cfg.sendInterval * 5.0 && conn.failures >= cfg.failureThreshold {
        conn := conn.(lost := true, ready := false);
        if cfg.autoReconnect {
          StartReconnectProcess();
        }
      }
    }

    // ------------------------------------------------------------ speed mapping

    /**
      UpdateFingerVelocityAndSpeed: the volume follows the raw speed; the
      velocity and then its magnitude go through the enabled filters; the
      multiplier (the slider's value when there is one) is raised to 0.1 and
      scales the filtered magnitude, which is mapped to the speed byte.
    */
    method UpdateFingerVelocityAndSpeed(hand: Option<Vec3>)
      requires MappingValid()
      modifies this`rawVelocity, this`rawMagnitude, this`currentVolume, this`filteredVelocity,
               this`filteredMagnitude, this`velocityMultiplier, this`currentSpeed, this`currentSpeedByte,
               velocityFilter, magnitudeFilter
      ensures MappingValid()
      ensures rawVelocity == (if hand.Some? then hand.value else Zero3)
      ensures rawMagnitude == magnitude(rawVelocity)
      ensures currentVolume == VolumeFor(rawMagnitude, cfg.volumeThreshold, cfg.normalVolume)
      ensures filteredVelocity == if cfg.enableVelocityFilter && velocityFilter != null
                                  then FilteredVec(old(velocityFilter.isInitialized), old(velocityFilter.filteredValue),
                                                   rawVelocity, velocityFilter.filterStrength)
                                  else rawVelocity
      ensures filteredMagnitude == if cfg.enableMagnitudeFilter && magnitudeFilter != null
                                   then FilteredScalar(old(magnitudeFilter.isInitialized), old(magnitudeFilter.filteredValue.x),
                                                       magnitude(filteredVelocity), magnitudeFilter.filterStrength)
                                   else magnitude(filteredVelocity)
      ensures velocityFilter != null ==>
                if cfg.enableVelocityFilter then velocityFilter.isInitialized && velocityFilter.filteredValue == filteredVelocity
                else unchanged(velocityFilter)
      ensures magnitudeFilter != null ==>
                if cfg.enableMagnitudeFilter
                then magnitudeFilter.isInitialized && magnitudeFilter.filteredValue == old(magnitudeFilter.filteredValue).(x := filteredMagnitude)
                else unchanged(magnitudeFilter)
      ensures velocityMultiplier == EffectiveMultiplier(if slider.Some? then slider.value else old(velocityMultiplier))
      ensures currentSpeed == Clamp(ScaledSpeed(filteredMagnitude, velocityMultiplier), cfg.minVelocityThreshold, cfg.maxVelocityThreshold)
      ensures currentSpeedByte == SpeedByteFor(ScaledSpeed(filteredMagnitude, velocityMultiplier), cfg.minVelocityThreshold, cfg.maxVelocityThreshold)
    {
      var raw := if hand.Some? then hand.value else Zero3;
      rawVelocity := raw;
      rawMagnitude := magnitude(raw);
      if rawMagnitude < cfg.volumeThreshold {
        currentVolume := 0;
      } else {
        currentVolume := cfg.normalVolume;
      }
      filteredVelocity, filteredMagnitude := ApplyFilters(raw);
      MapSpeed();
    }

    /** The filtering part of UpdateFingerVelocityAndSpeed: the velocity, then its magnitude, through the enabled filters. */
    method ApplyFilters(raw: Vec3) returns (velocity: Vec3, filtered: real)
      requires MappingValid()
      modifies velocityFilter, magnitudeFilter
      ensures MappingValid()
      ensures velocity == if cfg.enableVelocityFilter && velocityFilter != null
                          then FilteredVec(old(velocityFilter.isInitialized), old(velocityFilter.filteredValue), raw, velocityFilter.filterStrength)
                          else raw
      ensures filtered == if cfg.enableMagnitudeFilter && magnitudeFilter != null
                          then FilteredScalar(old(magnitudeFilter.isInitialized), old(magnitudeFilter.filteredValue.x),
                                              magnitude(velocity), magnitudeFilter.filterStrength)
                          else magnitude(velocity)
      ensures velocityFilter != null ==>
                if cfg.enableVelocityFilter then velocityFilter.isInitialized && velocityFilter.filteredValue == velocity
                else unchanged(velocityFilter)
      ensures magnitudeFilter != null ==>
                if cfg.enableMagnitudeFilter
                then magnitudeFilter.isInitialized && magnitudeFilter.filteredValue == old(magnitudeFilter.filteredValue).(x := filtered)
                else unchanged(magnitudeFilter)
    {
      velocity := raw;
      if cfg.enableVelocityFilter && velocityFilter != null {
        velocity := velocityFilter.Filter(raw);
      }
      filtered := magnitude(velocity);
      if cfg.enableMagnitudeFilter && magnitudeFilter != null {
        filtered := magnitudeFilter.FilterScalar(filtered);
      }
    }

    /** The last part of UpdateFingerVelocityAndSpeed: take the multiplier, raise it to 0.1, map the scaled filtered magnitude. */
    method MapSpeed()
      modifies this`velocityMultiplier, this`currentSpeed, this`currentSpeedByte
      ensures velocityMultiplier == EffectiveMultiplier(if slider.Some? then slider.value else old(velocityMultiplier))
      ensures currentSpeed == Clamp(ScaledSpeed(filteredMagnitude, velocityMultiplier), cfg.minVelocityThreshold, cfg.maxVelocityThreshold)
      ensures currentSpeedByte == SpeedByteFor(ScaledSpeed(filteredMagnitude, velocityMultiplier), cfg.minVelocityThreshold, cfg.maxVelocityThreshold)
    {
      if slider.Some? {
        velocityMultiplier := slider.value;
      }
      velocityMultiplier := Max(MinMultiplier, velocityMultiplier);
      var speed := ScaledSpeed(filteredMagnitude, velocityMultiplier);
      currentSpeed := Clamp(speed, cfg.minVelocityThreshold, cfg.maxVelocityThreshold);
      currentSpeedByte := SpeedByteFor(speed, cfg.minVelocityThreshold, cfg.maxVelocityThreshold);
    }

    /** GenerateData: take the slider's value as the multiplier and build the frame with the final speed byte. */
    method GenerateData() returns (data: seq<Byte>)
      modifies this`velocityMultiplier
      ensures velocityMultiplier == if slider.Some? then slider.value else old(velocityMultiplier)
      ensures data == LinkFrame(currentVolume, currentSpeedByte, velocityMultiplier)
      ensures IsGloveCommand(data)
    {
      if slider.Some? {
        velocityMultiplier := slider.value;
      }
      var rate := PlaybackRate(currentSpeedByte, velocityMultiplier);
      var finalSpeedByte := ByteOf(RoundToInt(rate * 10.0));
      assert finalSpeedByte == FinalSpeedByte(currentSpeedByte, velocityMultiplier);
      data := FillUniformFrame(Channel(FileIndex, currentVolume, finalSpeedByte));
      LinkFrameIsCommand(currentVolume, currentSpeedByte, velocityMultiplier);
    }

    /** GetActualPlaybackRate: the rate the frames carry, always within 1.0x..4.0x. */
    function GetActualPlaybackRate(): (rate: real)
      reads this
      ensures MinPlaybackRate <= rate <= MaxPlaybackRate
      ensures -0.5 <= rate * 10.0 - FinalSpeedByte(currentSpeedByte, velocityMultiplier) as real <= 0.5
    {
      PlaybackRate(currentSpeedByte, velocityMultiplier)
    }

    /** GenerateData followed by SendDataToESP32: the frame of the current mapping is offered to the transport. */
    method SendCurrentFrame(writeOk: bool, now: real)
      requires ConnValid() && SentValid()
      modifies this`velocityMultiplier, this`conn, this`sent
      ensures ConnValid() && SentValid()
      ensures velocityMultiplier == if slider.Some? then slider.value else old(velocityMultiplier)
      ensures conn == LinkState.SendOutcome(cfg, old(conn), writeOk, now)
      ensures sent == if LinkState.CanSend(old(conn)) && writeOk
                      then old(sent) + [LinkFrame(currentVolume, currentSpeedByte, velocityMultiplier)]
                      else old(sent)
    {
      var data := GenerateData();
      SendDataToESP32(data, writeOk, now);
    }

    // ------------------------------------------------------------ transmission coroutine

    /**
      One pass of SendDataPeriodically after its wait. A pass that finds the
      link down ends the coroutine and releases its handle (the corrected
      behaviour; see LinkState.SendTickAsWritten).
    */
    method SendTick(hand: Option<Vec3>, writeOk: bool, now: real)
      requires ConnValid() && MappingValid() && SentValid()
      modifies this`rawVelocity, this`rawMagnitude, this`currentVolume, this`filteredVelocity,
               this`filteredMagnitude, this`velocityMultiplier, this`currentSpeed, this`currentSpeedByte,
               this`conn, this`sent, velocityFilter, magnitudeFilter
      ensures ConnValid() && MappingValid() && SentValid()
      ensures conn == LinkState.SendTick(cfg, old(conn), writeOk, now)
      ensures sent == if old(conn.sendRunning) && LinkState.CanSend(old(conn)) && writeOk
                      then old(sent) + [LinkFrame(currentVolume, currentSpeedByte, velocityMultiplier)]
                      else old(sent)
      ensures old(conn.sendRunning) && old(conn.ready) && !old(conn.lost) ==>
                Refreshed(hand, old(velocityMultiplier), old(conn.hasCharacteristic))
      ensures !(old(conn.sendRunning) && old(conn.ready) && !old(conn.lost)) ==> MappingKept()
    {
      if !conn.sendRunning {
        return;
      }
      if conn.ready && !conn.lost {
        SendPass(hand, writeOk, now);
      } else {
        conn := conn.(sendRunning := false, sendHandle := false);
      }
    }

    /** The body of SendDataPeriodically's loop on a ready link: refresh the mapping, then send or count a failure. */
    method SendPass(hand: Option<Vec3>, writeOk: bool, now: real)
      requires ConnValid() && MappingValid() && SentValid()
      requires conn.sendRunning && conn.ready && !conn.lost
      modifies this`rawVelocity, this`rawMagnitude, this`currentVolume, this`filteredVelocity,
               this`filteredMagnitude, this`velocityMultiplier, this`currentSpeed, this`currentSpeedByte,
               this`conn, this`sent, velocityFilter, magnitudeFilter
      ensures ConnValid() && MappingValid() && SentValid()
      ensures conn == LinkState.SendTick(cfg, old(conn), writeOk, now)
      ensures sent == if LinkState.CanSend(old(conn)) && writeOk
                      then old(sent) + [LinkFrame(currentVolume, currentSpeedByte, velocityMultiplier)]
                      else old(sent)
      ensures Refreshed(hand, old(velocityMultiplier), old(conn.hasCharacteristic))
    {
      UpdateFingerVelocityAndSpeed(hand);
      if conn.hasCharacteristic {
        SendCounted(writeOk, now);
      } else {
        conn := conn.(failures := conn.failures + 1);
      }
    }

    /** The sending branch of a pass: generate and send the frame, then count it. */
    method SendCounted(writeOk: bool, now: real)
      requires ConnValid() && SentValid()
      modifies this`velocityMultiplier, this`conn, this`sent
      ensures ConnValid() && SentValid()
      ensures velocityMultiplier == if slider.Some? then slider.value else old(velocityMultiplier)
      ensures conn == LinkState.SendOutcome(cfg, old(conn), writeOk, now).(sendCounter := old(conn.sendCounter) + 1)
      ensures sent == if LinkState.CanSend(old(conn)) && writeOk
                      then old(sent) + [LinkFrame(currentVolume, currentSpeedByte, velocityMultiplier)]
                      else old(sent)
    {
      var counter := conn.sendCounter;
      SendCurrentFrame(writeOk, now);
      conn := conn.(sendCounter := counter + 1);
    }

    /** StartDataTransmission: replace a running loop; start only once the scan has stopped, running its first pass. */
    method StartDataTransmission(hand: Option<Vec3>, writeOk: bool, now: real)
      requires ConnValid() && MappingValid() && SentValid()
      modifies this`rawVelocity, this`rawMagnitude, this`currentVolume, this`filteredVelocity,
               this`filteredMagnitude, this`velocityMultiplier, this`currentSpeed, this`currentSpeedByte,
               this`conn, this`sent, velocityFilter, magnitudeFilter
      ensures ConnValid() && MappingValid() && SentValid()
      ensures conn == LinkState.StartSending(cfg, old(conn), writeOk, now)
      ensures sent == if old(conn.scanStopped) && LinkState.CanSend(old(conn)) && writeOk
                      then old(sent) + [LinkFrame(currentVolume, currentSpeedByte, velocityMultiplier)]
                      else old(sent)
      ensures old(conn.scanStopped) && old(conn.ready) && !old(conn.lost) ==>
                Refreshed(hand, old(velocityMultiplier), old(conn.hasCharacteristic))
      ensures !(old(conn.scanStopped) && old(conn.ready) && !old(conn.lost)) ==> MappingKept()
    {
      if conn.sendHandle {
        conn := conn.(sendRunning := false);
      }
      if conn.scanStopped {
        conn := conn.(sendHandle := true, sendRunning := true, sendCounter := 0);
        SendTick(hand, writeOk, now);
      }
    }

    method StopDataTransmission()
      requires ConnValid()
      modifies this`conn
      ensures ConnValid()
      ensures conn == LinkState.StopSending(old(conn))
    {
      if conn.sendHandle {
        conn := conn.(sendRunning := false, sendHandle := false);
      }
    }

    // ------------------------------------------------------------ engine callbacks

    /** Update: refresh the mapping, then run the health check. */
    method Update(hand: Option<Vec3>, now: real)
      requires Valid()
      modifies this, velocityFilter, magnitudeFilter
      ensures Valid()
      ensures cfg == old(cfg) && slider == old(slider) && targetDeviceNames == old(targetDeviceNames) && sent == old(sent)
      ensures conn == LinkState.CheckStatus(cfg, old(conn), now)
      ensures Refreshed(hand, old(velocityMultiplier), false)
    {
      UpdateFingerVelocityAndSpeed(hand);
      CheckConnectionStatus(now);
    }

    /** OnDestroy: both coroutines are stopped. */
    method OnDestroy()
      requires ConnValid()
      modifies this`conn
      ensures ConnValid()
      ensures conn == LinkState.StopReconnect(LinkState.StopSending(old(conn)))
      ensures !conn.sendHandle && !conn.sendRunning && !conn.reconnecting && conn.reconnectAt.None?
    {
      StopDataTransmission();
      StopReconnectProcess();
    }

    method OnUpdateState(state: string)
      requires ConnValid()
      modifies this`conn
      ensures ConnValid()
      ensures conn == LinkState.OnUpdateState(old(conn), state)
    {
      if state != LinkState.PoweredOn {
        return;
      }
      if !conn.reconnecting {
        StartScan();
      }
    }

    /** OnDiscoverPeripheral: look the name up in the target list; a match stops the scan and connects. */
    method OnDiscoverPeripheral(name: string)
      requires ConnValid()
      modifies this`conn
      ensures ConnValid()
      ensures conn == LinkState.OnDiscoverPeripheral(targetDeviceNames, old(conn), name)
    {
      var isTarget := false;
      var i := 0;
      while i < |targetDeviceNames|
        invariant 0 <= i <= |targetDeviceNames|
        invariant forall k :: 0 <= k < i ==> targetDeviceNames[k] != name
      {
        if name == targetDeviceNames[i] {
          isTarget := true;
          break;
        }
        i := i + 1;
      }
      assert isTarget <==> LinkState.IsTarget(targetDeviceNames, name);
      if !isTarget {
        return;
      }
      conn := conn.(scanStopped := true, connecting := true);
    }

    method OnConnectPeripheral(name: string)
      requires ConnValid()
      modifies this`conn
      ensures ConnValid()
      ensures conn == LinkState.OnConnectPeripheral(old(conn), name)
    {
      conn := conn.(peripheral := Some(name), connecting := false, reconnecting := false);
      conn := conn.(attempts := 0, failures := 0, lost := false);
    }

    /** OnDiscoverCharacteristic: the RX characteristic makes the link ready and starts transmission if no handle exists. */
    method OnDiscoverCharacteristic(uuid: string, hand: Option<Vec3>, writeOk: bool, now: real)
      requires Valid()
      modifies this, velocityFilter, magnitudeFilter
      ensures Valid()
      ensures cfg == old(cfg) && slider == old(slider) && targetDeviceNames == old(targetDeviceNames)
      ensures velocityFilter == old(velocityFilter) && magnitudeFilter == old(magnitudeFilter)
      ensures conn == LinkState.OnDiscoverCharacteristic(cfg, old(conn), uuid, writeOk, now)
      ensures sent == if LinkState.IsRxCharacteristic(uuid) && !old(conn.sendHandle) && old(conn.scanStopped) && !old(conn.lost) && writeOk
                      then old(sent) + [LinkFrame(currentVolume, currentSpeedByte, velocityMultiplier)]
                      else old(sent)
      ensures LinkState.IsRxCharacteristic(uuid) && !old(conn.sendHandle) && old(conn.scanStopped) && !old(conn.lost) ==>
                Refreshed(hand, old(velocityMultiplier), true)
      ensures !(LinkState.IsRxCharacteristic(uuid) && !old(conn.sendHandle) && old(conn.scanStopped) && !old(conn.lost)) ==> MappingKept()
    {
      if ToUpper(uuid) == LinkState.RxCharacteristicUuid {
        conn := conn.(hasCharacteristic := true, ready := true, lastSuccess := now);
        if !conn.sendHandle {
          StartDataTransmission(hand, writeOk, now);
        }
      }
    }

    // ------------------------------------------------------------ public commands

    /** SendSingleData: one fresh frame, only on a ready, scan-stopped, not-lost link with a characteristic. */
    method SendSingleData(hand: Option<Vec3>, writeOk: bool, now: real)
      requires ConnValid() && MappingValid() && SentValid()
      modifies this`rawVelocity, this`rawMagnitude, this`currentVolume, this`filteredVelocity,
               this`filteredMagnitude, this`velocityMultiplier, this`currentSpeed, this`currentSpeedByte,
               this`conn, this`sent, velocityFilter, magnitudeFilter
      ensures ConnValid() && MappingValid() && SentValid()
      ensures conn == LinkState.SendSingle(cfg, old(conn), writeOk, now)
      ensures sent == if LinkState.CanSend(old(conn)) && old(conn.scanStopped) && writeOk
                      then old(sent) + [LinkFrame(currentVolume, currentSpeedByte, velocityMultiplier)]
                      else old(sent)
      ensures LinkState.CanSend(old(conn)) && old(conn.scanStopped) ==> Refreshed(hand, old(velocityMultiplier), true)
      ensures !(LinkState.CanSend(old(conn)) && old(conn.scanStopped)) ==> MappingKept()
    {
      if conn.ready && conn.hasCharacteristic && conn.scanStopped && !conn.lost {
        UpdateFingerVelocityAndSpeed(hand);
        SendCurrentFrame(writeOk, now);
      }
    }

    /**
      SetVelocityMultiplier: keep the argument in 0.1..10, refresh the
      mapping (where a slider's value takes over again), and send one frame
      at once while a transmission handle exists on a healthy link.
    */
    method SetVelocityMultiplier(multiplier: real, hand: Option<Vec3>, writeOk: bool, now: real)
      requires ConnValid() && MappingValid() && SentValid()
      modifies this`rawVelocity, this`rawMagnitude, this`currentVolume, this`filteredVelocity,
               this`filteredMagnitude, this`velocityMultiplier, this`currentSpeed, this`currentSpeedByte,
               this`conn, this`sent, velocityFilter, magnitudeFilter
      ensures ConnValid() && MappingValid() && SentValid()
      ensures conn == LinkState.MultiplierResend(cfg, old(conn), writeOk, now)
      ensures slider.None? ==> velocityMultiplier == Clamp(multiplier, MinMultiplier, MaxMultiplier)
      ensures slider.Some? ==>
                velocityMultiplier == if old(conn.sendHandle) && LinkState.CanSend(old(conn)) then slider.value
                                      else EffectiveMultiplier(slider.value)
      ensures sent == if old(conn.sendHandle) && LinkState.CanSend(old(conn)) && writeOk
                      then old(sent) + [LinkFrame(currentVolume, currentSpeedByte, velocityMultiplier)]
                      else old(sent)
      ensures Refreshed(hand, Clamp(multiplier, MinMultiplier, MaxMultiplier), old(conn.sendHandle) && LinkState.CanSend(old(conn)))
    {
      velocityMultiplier := Clamp(multiplier, MinMultiplier, MaxMultiplier);
      UpdateFingerVelocityAndSpeed(hand);
      if conn.sendHandle && conn.ready && conn.hasCharacteristic && !conn.lost {
        SendCurrentFrame(writeOk, now);
      }
    }

    /** The slider's value-changed listener, registered only when a slider is assigned. */
    method OnVelocitySliderChanged(value: real, hand: Option<Vec3>, writeOk: bool, now: real)
      requires Valid() && slider.Some?
      modifies this, velocityFilter, magnitudeFilter
      ensures Valid()
      ensures cfg == old(cfg) && targetDeviceNames == old(targetDeviceNames) && slider == Some(value)
      ensures conn == LinkState.MultiplierResend(cfg, old(conn), writeOk, now)
      ensures velocityMultiplier == if old(conn.sendHandle) && LinkState.CanSend(old(conn)) then value else EffectiveMultiplier(value)
      ensures sent == if old(conn.sendHandle) && LinkState.CanSend(old(conn)) && writeOk
                      then old(sent) + [LinkFrame(currentVolume, currentSpeedByte, velocityMultiplier)]
                      else old(sent)
      ensures Refreshed(hand, Clamp(value, MinMultiplier, MaxMultiplier), old(conn.sendHandle) && LinkState.CanSend(old(conn)))
    {
      slider := Some(value);
      SetVelocityMultiplier(value, hand, writeOk, now);
    }

    /** SetVelocitySlider: a newly assigned slider starts at the current multiplier. */
    method SetVelocitySlider(present: bool)
      modifies this`slider
      ensures present ==> slider == Some(velocityMultiplier)
      ensures !present ==> slider.None?
    {
      slider := if present then Some(velocityMultiplier) else None;
    }

    /** SetFilterStrength: both strengths and both filters get the argument clamped to 0.01..1.0. */
    method SetFilterStrength(strength: real)
      requires Valid()
      modifies this`cfg, velocityFilter, magnitudeFilter
      ensures Valid()
      ensures var s := Clamp(strength, MinStrength, MaxStrength);
        && cfg == old(cfg).(velocityFilterStrength := s, magnitudeFilterStrength := s)
        && (velocityFilter != null ==> velocityFilter.filterStrength == s)
        && (magnitudeFilter != null ==> magnitudeFilter.filterStrength == s)
      ensures velocityFilter != null ==> velocityFilter.filteredValue == old(velocityFilter.filteredValue)
                                         && velocityFilter.isInitialized == old(velocityFilter.isInitialized)
      ensures magnitudeFilter != null ==> magnitudeFilter.filteredValue == old(magnitudeFilter.filteredValue)
                                          && magnitudeFilter.isInitialized == old(magnitudeFilter.isInitialized)
    {
      var s := Clamp(strength, MinStrength, MaxStrength);
      cfg := cfg.(velocityFilterStrength := s, magnitudeFilterStrength := s);
      if velocityFilter != null {
        velocityFilter.SetFilterStrength(s);
      }
      if magnitudeFilter != null {
        magnitudeFilter.SetFilterStrength(s);
      }
    }

    method SetVolumeThreshold(threshold: real)
      requires Valid()
      modifies this`cfg
      ensures Valid()
      ensures cfg == old(cfg).(volumeThreshold := Max(0.0, threshold))
      ensures cfg.volumeThreshold >= 0.0
    {
      cfg := cfg.(volumeThreshold := Max(0.0, threshold));
    }

    /** SetNormalVolume: the volume is capped at 100. */
    method SetNormalVolume(volume: Byte)
      requires Valid()
      modifies this`cfg
      ensures Valid()
      ensures 0 <= cfg.normalVolume <= MaxVolume
      ensures volume <= MaxVolume ==> cfg.normalVolume == volume
      ensures volume > MaxVolume ==> cfg.normalVolume == MaxVolume
      ensures cfg == old(cfg).(normalVolume := cfg.normalVolume)
    {
      cfg := cfg.(normalVolume := ClampInt(volume, 0, MaxVolume));
    }

    /** IsMuted: the last mapped volume is zero. */
    predicate IsMuted()
      reads this
    {
      currentVolume == 0
    }

    /** Disabling the velocity filter resets it; enabling leaves its state alone. */
    method SetVelocityFilterEnabled(enable: bool)
      requires Valid()
      modifies this`cfg, velocityFilter
      ensures Valid()
      ensures cfg == old(cfg).(enableVelocityFilter := enable)
      ensures velocityFilter != null && !enable ==> !velocityFilter.isInitialized && velocityFilter.filteredValue == Zero3
      ensures velocityFilter != null && enable ==> unchanged(velocityFilter)
    {
      cfg := cfg.(enableVelocityFilter := enable);
      if !enable && velocityFilter != null {
        velocityFilter.Reset();
      }
    }

    /** Disabling the magnitude filter resets it; enabling leaves its state alone. */
    method SetMagnitudeFilterEnabled(enable: bool)
      requires Valid()
      modifies this`cfg, magnitudeFilter
      ensures Valid()
      ensures cfg == old(cfg).(enableMagnitudeFilter := enable)
      ensures magnitudeFilter != null && !enable ==> !magnitudeFilter.isInitialized && magnitudeFilter.filteredValue == Zero3
      ensures magnitudeFilter != null && enable ==> unchanged(magnitudeFilter)
    {
      cfg := cfg.(enableMagnitudeFilter := enable);
      if !enable && magnitudeFilter != null {
        magnitudeFilter.Reset();
      }
    }

    /** ResetFilters: both filters forget their state; the next sample passes through each. */
    method ResetFilters()
      requires Valid()
      modifies velocityFilter, magnitudeFilter
      ensures Valid()
      ensures velocityFilter != null ==> !velocityFilter.isInitialized && velocityFilter.filteredValue == Zero3
      ensures magnitudeFilter != null ==> !magnitudeFilter.isInitialized && magnitudeFilter.filteredValue == Zero3
    {
      if velocityFilter != null {
        velocityFilter.Reset();
      }
      if magnitudeFilter != null {
        magnitudeFilter.Reset();
      }
    }

    /** ToggleDataTransmission: stop, start, or (on a lost link) reconnect, as LinkState.ToggleSending says. */
    method ToggleDataTransmission(hand: Option<Vec3>, writeOk: bool, now: real)
      requires Valid()
      modifies this, velocityFilter, magnitudeFilter
      ensures Valid()
      ensures cfg == old(cfg)
      ensures conn == LinkState.ToggleSending(cfg, old(conn), writeOk, now)
      ensures sent == if !old(conn.sendHandle) && old(conn.scanStopped) && LinkState.CanSend(old(conn)) && writeOk
                      then old(sent) + [LinkFrame(currentVolume, currentSpeedByte, velocityMultiplier)]
                      else old(sent)
      ensures slider == old(slider) && targetDeviceNames == old(targetDeviceNames)
      ensures !old(conn.sendHandle) && old(conn.ready) && old(conn.scanStopped) && !old(conn.lost) ==>
                Refreshed(hand, old(velocityMultiplier), old(conn.hasCharacteristic))
      ensures !(!old(conn.sendHandle) && old(conn.ready) && old(conn.scanStopped) && !old(conn.lost)) ==> MappingKept()
    {
      if conn.sendHandle {
        StopDataTransmission();
      } else if conn.ready && conn.scanStopped && !conn.lost {
        StartDataTransmission(hand, writeOk, now);
      } else if !conn.scanStopped {
      } else if conn.lost {
        if cfg.autoReconnect && !conn.reconnecting {
          StartReconnectProcess();
        }
      }
    }

    /** ManualReconnect: leave a healthy link alone; otherwise restart the reconnect from scratch. */
    method ManualReconnect()
      requires ConnValid()
      modifies this`conn
      ensures ConnValid()
      ensures conn == LinkState.ManualReconnect(cfg, old(conn))
    {
      if conn.ready && !conn.lost {
        return;
      }
      if conn.reconnecting {
        StopReconnectProcess();
      }
      conn := conn.(ready := false, lost := true);
      StartReconnectProcess();
    }

    method SetAutoReconnect(enable: bool)
      requires Valid()
      modifies this`cfg
      ensures Valid()
      ensures cfg == old(cfg).(autoReconnect := enable)
    {
      cfg := cfg.(autoReconnect := enable);
    }

    /** SetFailureThreshold: at least one failure is needed before the link is declared lost. */
    method SetFailureThreshold(threshold: int)
      requires Valid()
      modifies this`cfg
      ensures Valid()
      ensures cfg.failureThreshold >= 1
      ensures threshold >= 1 ==> cfg.failureThreshold == threshold
      ensures cfg == old(cfg).(failureThreshold := cfg.failureThreshold)
    {
      cfg := cfg.(failureThreshold := MaxInt(1, threshold));
    }
  }
}
