/**
  The earlier telemetry link (the BLESendJointV of the LYF folder): the same
  32-byte frame with every block at file index 1 and a fixed volume of 75,
  but no failure counting, no link-loss detection and no reconnect. Its state
  is four flags set by the BLE callbacks (characteristic found, ready, scan
  stopped, transmission handle), the running flag of the transmission
  coroutine and the speed mapping.

  As in GloveLink, `hand` is the index-fingertip velocity the hand tracker
  reports (None when tracking fails), `writeOk` whether the characteristic
  write succeeds, and `sent` the frames the transport accepted.
*/
module EarlyLink {
  import opened EngineMath
  import opened Wrappers
  import opened Strings
  import opened GloveFrame
  import opened CommandMapper
  import LinkState

  /** Every block of every frame names file 1 ... */
  const FileIndex: Byte := 1
  /** ... and plays it at 75 percent volume. */
  const FixedVolume: Byte := 75
  /** SetVelocityMultiplier keeps its argument in 0.1..10. */
  const MaxMultiplier: real := 10.0

  /** The frame GenerateData builds for a mapped speed byte and a multiplier. */
  function EarlyFrame(speedByte: Byte, multiplier: real): seq<Byte> {
    Encode(Uniform(Channel(FileIndex, FixedVolume, FinalSpeedByte(speedByte, multiplier))))
  }

  /** A frame of this link: well formed, ten equal blocks of file 1 at volume 75 with a speed byte in 10..40. */
  predicate IsEarlyCommand(frame: seq<Byte>) {
    Decode(frame).Some? &&
    (var channels := Decode(frame).value;
     && (forall i :: 0 <= i < ChannelCount ==> channels[i] == channels[0])
     && channels[0].fileIndex == FileIndex && channels[0].volume == FixedVolume
     && MinSpeedByte <= channels[0].speed <= MaxSpeedByte)
  }

  /** Every generated frame passes the receiver's format check and carries the final speed byte in each block. */
  lemma EarlyFrameIsCommand(speedByte: Byte, multiplier: real)
    ensures Decode(EarlyFrame(speedByte, multiplier)) == Some(Uniform(Channel(FileIndex, FixedVolume, FinalSpeedByte(speedByte, multiplier))))
    ensures IsEarlyCommand(EarlyFrame(speedByte, multiplier))
  {
    DecodeEncode(Uniform(Channel(FileIndex, FixedVolume, FinalSpeedByte(speedByte, multiplier))));
  }

  /** The discovery callback's name test: exactly the two target names. */
  predicate IsTargetName(name: string) {
    name == "ESP32-BLE" || name == "FeltSight BLE"
  }

  /** The multiplier SetVelocityMultiplier stores: its argument kept in 0.1..10. */
  function ClampedMultiplier(multiplier: real): (m: real)
    ensures MinMultiplier <= m <= MaxMultiplier
    ensures MinMultiplier <= multiplier <= MaxMultiplier ==> m == multiplier
    ensures multiplier < MinMultiplier ==> m == MinMultiplier
    ensures multiplier > MaxMultiplier ==> m == MaxMultiplier
  {
    Clamp(multiplier, MinMultiplier, MaxMultiplier)
  }

  class Link {
    const magnitude: Vec3 -> real
    const minVelocityThreshold: real
    const maxVelocityThreshold: real
    /** The multiplier slider's value, when a slider is assigned. */
    var slider: Option<real>
    /** A velocity text is assigned (m_VelocityText is not null). */
    var velocityText: bool

    var hasCharacteristic: bool
    var ready: bool
    var scanStopped: bool
    /** The peripheral the discovery callback asked the transport to connect to. */
    var connectingTo: Option<string>
    /** m_DataSendCoroutine is not null. */
    var sendHandle: bool
    /** The transmission coroutine is still running (StopCoroutine ends it without clearing the handle). */
    var sendRunning: bool
    /** The coroutine's local frame counter. */
    var sendCounter: nat

    var velocityMultiplier: real
    var currentSpeed: real
    var currentSpeedByte: Byte

    var sent: seq<seq<Byte>>

    /**
      The characteristic and the ready flag are set together and never
      cleared, a running loop has its handle and was started after the scan
      stopped, the speed byte is in 10..40, and every frame sent is a command
      of this link.
    */
    ghost predicate Valid()
      reads this
    {
      && ready == hasCharacteristic
      && (sendRunning ==> sendHandle && scanStopped)
      && MinSpeedByte <= currentSpeedByte <= MaxSpeedByte
      && (forall i :: 0 <= i < |sent| ==> IsEarlyCommand(sent[i]))
    }

    /** The field initialisers; Start only registers callbacks with the transport. */
    constructor (minV: real, maxV: real, sliderValue: Option<real>, textAssigned: bool, magnitude: Vec3 -> real)
      ensures Valid()
      ensures minVelocityThreshold == minV && maxVelocityThreshold == maxV && slider == sliderValue
      ensures velocityText == textAssigned
      ensures !hasCharacteristic && !ready && !scanStopped && connectingTo.None?
      ensures !sendHandle && !sendRunning
      ensures velocityMultiplier == 1.0 && currentSpeed == 0.0 && currentSpeedByte == MinSpeedByte
      ensures sent == []
    {
      this.magnitude := magnitude;
      minVelocityThreshold, maxVelocityThreshold := minV, maxV;
      slider := sliderValue;
      velocityText := textAssigned;
      hasCharacteristic, ready, scanStopped, connectingTo := false, false, false, None;
      sendHandle, sendRunning, sendCounter := false, false, 0;
      velocityMultiplier, currentSpeed, currentSpeedByte := 1.0, 0.0, 10;
      sent := [];
    }

    /** The speed the mapping receives: the tracked magnitude times the multiplier in use, 0 without tracking. */
    function SpeedInput(hand: Option<Vec3>, multiplier: real): real {
      if hand.Some? then ScaledSpeed(magnitude(hand.value), multiplier) else 0.0
    }

    /**
      The speed fields after one UpdateFingerVelocityAndSpeed on `hand`, which
      found `prior` as the multiplier; when `framed`, GenerateData then took the
      slider's value as the multiplier.
    */
    predicate Mapped(hand: Option<Vec3>, prior: real, framed: bool)
      reads this
    {
      var m := if hand.Some? && slider.Some? then slider.value else prior;
      && currentSpeed == Clamp(SpeedInput(hand, m), minVelocityThreshold, maxVelocityThreshold)
      && currentSpeedByte == SpeedByteFor(SpeedInput(hand, m), minVelocityThreshold, maxVelocityThreshold)
      && velocityMultiplier == (if framed && slider.Some? then slider.value else if hand.Some? then EffectiveMultiplier(m) else m)
    }

    /**
      UpdateFingerVelocityAndSpeed on the device: with tracking, the slider's
      value (when there is a slider) becomes the multiplier, scales the
      magnitude, and only then is raised to 0.1; the scaled speed is mapped
      to the speed byte.
    */
    method UpdateFingerVelocityAndSpeed(hand: Option<Vec3>)
      modifies this`velocityMultiplier, this`currentSpeed, this`currentSpeedByte
      ensures var m := if hand.Some? && slider.Some? then slider.value else old(velocityMultiplier);
        && velocityMultiplier == (if hand.Some? then EffectiveMultiplier(m) else m)
        && currentSpeed == Clamp(SpeedInput(hand, m), minVelocityThreshold, maxVelocityThreshold)
        && currentSpeedByte == SpeedByteFor(SpeedInput(hand, m), minVelocityThreshold, maxVelocityThreshold)
    {
      var velocityMagnitude := 0.0;
      if hand.Some? {
        if slider.Some? {
          velocityMultiplier := slider.value;
        }
        velocityMagnitude := ScaledSpeed(magnitude(hand.value), velocityMultiplier);
        velocityMultiplier := Max(MinMultiplier, velocityMultiplier);
      }
      currentSpeed := Clamp(velocityMagnitude, minVelocityThreshold, maxVelocityThreshold);
      currentSpeedByte := SpeedByteFor(velocityMagnitude, minVelocityThreshold, maxVelocityThreshold);
    }

    /** GenerateData: the slider's value becomes the multiplier; ten blocks of file 1, volume 75 and the final speed byte. */
    method GenerateData() returns (data: seq<Byte>)
      modifies this`velocityMultiplier
      ensures velocityMultiplier == if slider.Some? then slider.value else old(velocityMultiplier)
      ensures data == EarlyFrame(currentSpeedByte, velocityMultiplier)
      ensures IsEarlyCommand(data)
    {
      if slider.Some? {
        velocityMultiplier := slider.value;
      }
      var rate := PlaybackRate(currentSpeedByte, velocityMultiplier);
      var finalSpeedByte := ByteOf(RoundToInt(rate * 10.0));
      assert finalSpeedByte == FinalSpeedByte(currentSpeedByte, velocityMultiplier);
      data := FillUniformFrame(Channel(FileIndex, FixedVolume, finalSpeedByte));
      EarlyFrameIsCommand(currentSpeedByte, velocityMultiplier);
    }

    /** SendDataToESP32: nothing without a characteristic or before the link is ready; a failed write is swallowed. */
    method SendDataToESP32(data: seq<Byte>, writeOk: bool)
      modifies this`sent
      ensures sent == if hasCharacteristic && ready && writeOk then old(sent) + [data] else old(sent)
    {
      if !hasCharacteristic || !ready {
        return;
      }
      if writeOk {
        sent := sent + [data];
      }
    }

    /** GenerateData followed by SendDataToESP32. */
    method SendCurrentFrame(writeOk: bool)
      requires Valid()
      modifies this`velocityMultiplier, this`sent
      ensures Valid()
      ensures velocityMultiplier == if slider.Some? then slider.value else old(velocityMultiplier)
      ensures sent == if ready && writeOk then old(sent) + [EarlyFrame(currentSpeedByte, velocityMultiplier)] else old(sent)
    {
      var data := GenerateData();
      SendDataToESP32(data, writeOk);
    }

    /**
      One pass of SendDataPeriodically after its wait: the loop runs only
      while the link is ready; each pass refreshes the mapping and, with a
      characteristic, sends a frame and counts it.
    */
    method SendTick(hand: Option<Vec3>, writeOk: bool)
      requires Valid()
      modifies this`velocityMultiplier, this`currentSpeed, this`currentSpeedByte, this`sendRunning,
               this`sendCounter, this`sent
      ensures Valid()
      ensures sendRunning == (old(sendRunning) && ready)
      ensures sendCounter == if old(sendRunning) && ready && hasCharacteristic then old(sendCounter) + 1 else old(sendCounter)
      ensures sent == if old(sendRunning) && ready && hasCharacteristic && writeOk
                      then old(sent) + [EarlyFrame(currentSpeedByte, velocityMultiplier)]
                      else old(sent)
      ensures old(sendRunning) && ready ==> Mapped(hand, old(velocityMultiplier), hasCharacteristic)
      ensures !(old(sendRunning) && ready) ==>
                velocityMultiplier == old(velocityMultiplier) && currentSpeed == old(currentSpeed)
                && currentSpeedByte == old(currentSpeedByte)
    {
      if !sendRunning {
        return;
      }
      if !ready {
        sendRunning := false;
        return;
      }
      UpdateFingerVelocityAndSpeed(hand);
      if hasCharacteristic {
        SendCurrentFrame(writeOk);
        sendCounter := sendCounter + 1;
      }
    }

    /** StartDataTransmission: stop a running loop (its handle stays); start a new one, with its first pass, only after the scan stopped. */
    method StartDataTransmission(hand: Option<Vec3>, writeOk: bool)
      requires Valid()
      modifies this`velocityMultiplier, this`currentSpeed, this`currentSpeedByte, this`sendHandle,
               this`sendRunning, this`sendCounter, this`sent
      ensures Valid()
      ensures sendHandle == (old(sendHandle) || scanStopped)
      ensures sendRunning == (scanStopped && ready)
      ensures sent == if scanStopped && ready && writeOk
                      then old(sent) + [EarlyFrame(currentSpeedByte, velocityMultiplier)]
                      else old(sent)
      ensures sendCounter == if !scanStopped then old(sendCounter) else if ready then 1 else 0
      ensures scanStopped && ready ==> Mapped(hand, old(velocityMultiplier), true)
      ensures !(scanStopped && ready) ==>
                velocityMultiplier == old(velocityMultiplier) && currentSpeed == old(currentSpeed)
                && currentSpeedByte == old(currentSpeedByte)
    {
      if sendHandle {
        sendRunning := false;
      }
      if scanStopped {
        sendHandle, sendRunning, sendCounter := true, true, 0;
        SendTick(hand, writeOk);
      }
    }

    method StopDataTransmission()
      requires Valid()
      modifies this`sendHandle, this`sendRunning
      ensures Valid()
      ensures !sendHandle && !sendRunning
      ensures !old(sendHandle) ==> sendRunning == old(sendRunning)
    {
      if sendHandle {
        sendHandle, sendRunning := false, false;
      }
    }

    /** OnDiscoverPeripheral: only the two target names stop the scan and connect. */
    method OnDiscoverPeripheral(name: string)
      requires Valid()
      modifies this`scanStopped, this`connectingTo
      ensures Valid()
      ensures IsTargetName(name) ==> scanStopped && connectingTo == Some(name)
      ensures !IsTargetName(name) ==> scanStopped == old(scanStopped) && connectingTo == old(connectingTo)
    {
      if name != "ESP32-BLE" && name != "FeltSight BLE" {
        return;
      }
      scanStopped := true;
      connectingTo := Some(name);
    }

    /**
      OnDiscoverCharacteristic: the RX characteristic makes the link ready and
      starts transmission only when no handle exists yet.
    */
    method OnDiscoverCharacteristic(uuid: string, hand: Option<Vec3>, writeOk: bool)
      requires Valid()
      modifies this`hasCharacteristic, this`ready, this`velocityMultiplier, this`currentSpeed,
               this`currentSpeedByte, this`sendHandle, this`sendRunning, this`sendCounter, this`sent
      ensures Valid()
      ensures LinkState.IsRxCharacteristic(uuid) ==> ready && hasCharacteristic
      ensures !LinkState.IsRxCharacteristic(uuid) ==>
                && ready == old(ready) && hasCharacteristic == old(hasCharacteristic)
                && sendHandle == old(sendHandle) && sendRunning == old(sendRunning)
                && sendCounter == old(sendCounter) && sent == old(sent)
      ensures sendCounter == if LinkState.IsRxCharacteristic(uuid) && !old(sendHandle) && scanStopped then 1 else old(sendCounter)
      ensures LinkState.IsRxCharacteristic(uuid) && !old(sendHandle) ==> sendHandle == scanStopped && sendRunning == scanStopped
      ensures LinkState.IsRxCharacteristic(uuid) && old(sendHandle) ==> sendHandle && sendRunning == old(sendRunning) && sent == old(sent)
      ensures LinkState.IsRxCharacteristic(uuid) && !old(sendHandle) ==>
                sent == if scanStopped && writeOk then old(sent) + [EarlyFrame(currentSpeedByte, velocityMultiplier)] else old(sent)
      ensures LinkState.IsRxCharacteristic(uuid) && !old(sendHandle) && scanStopped ==> Mapped(hand, old(velocityMultiplier), true)
      ensures !(LinkState.IsRxCharacteristic(uuid) && !old(sendHandle) && scanStopped) ==>
                velocityMultiplier == old(velocityMultiplier) && currentSpeed == old(currentSpeed)
                && currentSpeedByte == old(currentSpeedByte)
    {
      if ToUpper(uuid) == LinkState.RxCharacteristicUuid {
        hasCharacteristic, ready := true, true;
        if !sendHandle {
          StartDataTransmission(hand, writeOk);
        }
      }
    }

    /** SendSingleData: one fresh frame, only on a ready, scan-stopped link with a characteristic. */
    method SendSingleData(hand: Option<Vec3>, writeOk: bool)
      requires Valid()
      modifies this`velocityMultiplier, this`currentSpeed, this`currentSpeedByte, this`sent
      ensures Valid()
      ensures sent == if ready && scanStopped && writeOk
                      then old(sent) + [EarlyFrame(currentSpeedByte, velocityMultiplier)]
                      else old(sent)
      ensures ready && scanStopped ==> Mapped(hand, old(velocityMultiplier), true)
      ensures !(ready && scanStopped) ==>
                velocityMultiplier == old(velocityMultiplier) && currentSpeed == old(currentSpeed)
                && currentSpeedByte == old(currentSpeedByte)
    {
      if ready && hasCharacteristic && scanStopped {
        UpdateFingerVelocityAndSpeed(hand);
        SendCurrentFrame(writeOk);
      }
    }

    /**
      SetVelocityMultiplier: keep the argument in 0.1..10, refresh the mapping
      (where, with tracking, the slider's value takes over again) and send a
      frame at once while a handle exists on a ready link. The velocity text
      is written first, reading the slider outside any try, so with a text
      and no slider the call throws after the refresh and sends nothing.
    */
    method SetVelocityMultiplier(multiplier: real, hand: Option<Vec3>, writeOk: bool) returns (threw: bool)
      requires Valid()
      modifies this`velocityMultiplier, this`currentSpeed, this`currentSpeedByte, this`sent
      ensures Valid()
      ensures threw <==> TextThrows()
      ensures slider.None? ==> velocityMultiplier == ClampedMultiplier(multiplier)
      ensures slider.Some? && sendHandle && ready ==> velocityMultiplier == slider.value
      ensures slider.Some? && !(sendHandle && ready) ==>
                velocityMultiplier == if hand.Some? then EffectiveMultiplier(slider.value) else ClampedMultiplier(multiplier)
      ensures sent == if sendHandle && ready && writeOk && !threw
                      then old(sent) + [EarlyFrame(currentSpeedByte, velocityMultiplier)]
                      else old(sent)
      ensures Mapped(hand, ClampedMultiplier(multiplier), sendHandle && ready && !threw)
    {
      velocityMultiplier := ClampedMultiplier(multiplier);
      UpdateFingerVelocityAndSpeed(hand);
      threw := TextThrows();
      if !threw && sendHandle && ready && hasCharacteristic {
        SendCurrentFrame(writeOk);
      }
    }

    /** Writing the velocity text reads the slider unguarded: that throws when a text is assigned and no slider is. */
    predicate TextThrows()
      reads this
    {
      velocityText && slider.None?
    }

    /** SetVelocityText: assign or remove the velocity text. */
    method SetVelocityText(present: bool)
      modifies this`velocityText
      ensures velocityText == present
      ensures TextThrows() <==> present && slider.None?
    {
      velocityText := present;
    }

    /** ToggleDataTransmission: stop when a handle exists; else start only when ready and the scan has stopped. */
    method ToggleDataTransmission(hand: Option<Vec3>, writeOk: bool)
      requires Valid()
      modifies this`velocityMultiplier, this`currentSpeed, this`currentSpeedByte, this`sendHandle,
               this`sendRunning, this`sendCounter, this`sent
      ensures Valid()
      ensures old(sendHandle) ==> !sendHandle && !sendRunning && sent == old(sent)
      ensures !old(sendHandle) && ready && scanStopped ==>
                && sendHandle && sendRunning && sendCounter == 1
                && sent == (if writeOk then old(sent) + [EarlyFrame(currentSpeedByte, velocityMultiplier)] else old(sent))
                && Mapped(hand, old(velocityMultiplier), true)
      ensures !old(sendHandle) && !(ready && scanStopped) ==>
                sendHandle == old(sendHandle) && sendRunning == old(sendRunning) && sent == old(sent)
                && sendCounter == old(sendCounter)
      ensures old(sendHandle) ==> sendCounter == old(sendCounter)
      ensures !(!old(sendHandle) && ready && scanStopped) ==>
                velocityMultiplier == old(velocityMultiplier) && currentSpeed == old(currentSpeed)
                && currentSpeedByte == old(currentSpeedByte)
    {
      if sendHandle {
        StopDataTransmission();
      } else if ready && scanStopped {
        StartDataTransmission(hand, writeOk);
      }
    }

    /** GetActualPlaybackRate: the rate the frames carry, within 1.0x..4.0x. */
    function GetActualPlaybackRate(): (rate: real)
      reads this
      ensures MinPlaybackRate <= rate <= MaxPlaybackRate
      ensures -0.5 <= rate * 10.0 - FinalSpeedByte(currentSpeedByte, velocityMultiplier) as real <= 0.5
    {
      PlaybackRate(currentSpeedByte, velocityMultiplier)
    }
  }
}
