/**
  The BLE test component (BLETEST): once the RX characteristic is found it
  sends, every eight seconds, a test frame whose ten blocks walk through the
  file indices 1..10, the volumes 50..100 and the speed bytes 10..40, shifted
  by a frame counter. `writeOk` is whether the characteristic write
  succeeds, and `sent` the frames the transport accepted.
*/
module TestLink {
  import opened EngineMath
  import opened Wrappers
  import opened Strings
  import opened GloveFrame
  import LinkState
  import EarlyLink

  /** The test block of `channel` in the frame numbered `counter`. */
  function TestChannel(counter: nat, channel: nat): (c: Channel)
    ensures 1 <= c.fileIndex <= 10 && c.fileIndex == (counter + channel) % 10 + 1
    ensures 50 <= c.volume <= 100 && c.volume == 50 + (counter + channel) % 51
    ensures 10 <= c.speed <= 40 && c.speed == 10 + (counter + channel) % 31
  {
    var n := counter + channel;
    Channel(ByteOf(n % 10 + 1), ByteOf(50 + n % 51), ByteOf(0x0A + n % 31))
  }

  /** The ten blocks of test frame `counter`. */
  function TestChannels(counter: nat): (channels: seq<Channel>)
    ensures |channels| == ChannelCount
    ensures forall c :: 0 <= c < ChannelCount ==> channels[c] == TestChannel(counter, c)
  {
    seq(ChannelCount, c requires 0 <= c < ChannelCount => TestChannel(counter, c))
  }

  /** A frame the receiver accepts whose blocks are all within the test ranges. */
  predicate IsTestCommand(frame: seq<Byte>) {
    Decode(frame).Some? &&
    (var channels := Decode(frame).value;
     forall i :: 0 <= i < ChannelCount ==>
       && 1 <= channels[i].fileIndex <= 10
       && 50 <= channels[i].volume <= 100
       && 10 <= channels[i].speed <= 40)
  }

  /** Every test frame passes LogTestDataContent's format check and yields its ten test blocks. */
  lemma TestFrameAccepted(counter: nat)
    ensures Decode(Encode(TestChannels(counter))) == Some(TestChannels(counter))
    ensures IsTestCommand(Encode(TestChannels(counter)))
  {
    DecodeEncode(TestChannels(counter));
  }

  /** The ten blocks of one frame name ten different files, so every file 1..10 is played once per frame. */
  lemma FileIndicesDistinct(counter: nat, c: nat, d: nat)
    requires c < d < ChannelCount
    ensures TestChannel(counter, c).fileIndex != TestChannel(counter, d).fileIndex
  {
    var n := counter + c;
    var k := d - c;
    assert 0 < k < 10;
    assert n + k == (n / 10) * 10 + (n % 10 + k);
    if n % 10 + k < 10 {
      assert (n + k) % 10 == n % 10 + k;
    } else {
      assert n + k == (n / 10 + 1) * 10 + (n % 10 + k - 10);
      assert (n + k) % 10 == n % 10 + k - 10;
    }
  }

  /** The next frame slides the pattern by one channel: its block c is this frame's block c + 1. */
  lemma NextFrameShifts(counter: nat, c: nat)
    requires c + 1 < ChannelCount
    ensures TestChannels(counter + 1)[c] == TestChannels(counter)[c + 1]
  {
    assert counter + 1 + c == counter + (c + 1);
  }

  /**
    GenerateTestData: a zeroed 32-byte buffer, the start marker, block
    `channel` written at offset 1 + 3 * channel for channels 0..9, the end
    marker.
  */
  method GenerateTestData(counter: nat) returns (frame: seq<Byte>)
    ensures frame == Encode(TestChannels(counter))
  {
    var data := new Byte[FrameLength](_ => 0);
    data[0] := StartMarker;
    ghost var channels := TestChannels(counter);
    for channel := 0 to ChannelCount
      invariant data[0] == StartMarker
      invariant forall k :: 1 <= k < 1 + 3 * channel ==> data[k] == ChannelByte(channels[(k - 1) / 3], (k - 1) % 3)
    {
      var offset := 1 + channel * 3;
      BlockPosition(channel, 0);
      BlockPosition(channel, 1);
      BlockPosition(channel, 2);
      data[offset] := ((counter + channel) % 10 + 1) as Byte;
      data[offset + 1] := (50 + (counter + channel) % 51) as Byte;
      data[offset + 2] := (0x0A + (counter + channel) % 31) as Byte;
    }
    data[FrameLength - 1] := EndMarker;
    frame := data[..];
    var expected := Encode(channels);
    forall k | 0 <= k < FrameLength
      ensures frame[k] == expected[k]
    {
      if 1 <= k < FrameLength - 1 {
        InnerPosition(k);
      }
    }
  }

  /** The discovery name test as written: the second name lacks its final "t". */
  predicate IsTargetNameAsWritten(name: string) {
    name == "ESP32-BLE" || name == "FeltSigh BLE"
  }

  /** As written, a glove advertising "FeltSight BLE" is never connected to, while the misspelt name is. */
  lemma NameTypoRejectsGlove()
    ensures !IsTargetNameAsWritten("FeltSight BLE")
    ensures IsTargetNameAsWritten("FeltSigh BLE")
    ensures EarlyLink.IsTargetName("FeltSight BLE")
  {
  }

  /** The corrected name test accepts exactly the two names the other links connect to. */
  lemma TargetNameCorrected(name: string)
    ensures IsTargetNameAsWritten(name) != EarlyLink.IsTargetName(name) <==> name == "FeltSigh BLE" || name == "FeltSight BLE"
  {
  }

  class Tester {
    var hasCharacteristic: bool
    var ready: bool
    /** The peripheral the discovery callback asked the transport to connect to. */
    var connectingTo: Option<string>
    /** testDataCoroutine is not null. */
    var sendHandle: bool
    /** The test coroutine is still running. */
    var sendRunning: bool
    /** The coroutine's testCounter. */
    var testCounter: nat
    var sent: seq<seq<Byte>>

    /** The characteristic and the ready flag are set together, a running loop has its handle, every frame sent is a test frame. */
    ghost predicate Valid()
      reads this
    {
      && ready == hasCharacteristic
      && (sendRunning ==> sendHandle)
      && (forall i :: 0 <= i < |sent| ==> IsTestCommand(sent[i]))
    }

    constructor ()
      ensures Valid()
      ensures !hasCharacteristic && !ready && connectingTo.None? && !sendHandle && !sendRunning && sent == []
    {
      hasCharacteristic, ready, connectingTo := false, false, None;
      sendHandle, sendRunning, testCounter := false, false, 0;
      sent := [];
    }

    /** SendDataToESP32: nothing without a characteristic or before the link is ready; a failed write is swallowed. */
    method SendDataToESP32(data: seq<Byte>, writeOk: bool)
      modifies this`sent
      ensures sent == if hasCharacteristic && ready && writeOk then old(sent) + [data] else old(sent)
    {
      if !hasCharacteristic || !ready {
        return;
      }
      if writeOk {
        sent := sent + [data];
      }
    }

    /**
      One pass of SendTestDataPeriodically: the loop runs only while the link
      is ready with a characteristic; each pass sends test frame
      `testCounter` and counts it.
    */
    method SendTick(writeOk: bool)
      requires Valid()
      modifies this`sendRunning, this`testCounter, this`sent
      ensures Valid()
      ensures sendRunning == (old(sendRunning) && ready && hasCharacteristic)
      ensures testCounter == if sendRunning then old(testCounter) + 1 else old(testCounter)
      ensures sent == if sendRunning && writeOk then old(sent) + [Encode(TestChannels(old(testCounter)))] else old(sent)
    {
      if !sendRunning {
        return;
      }
      if !(ready && hasCharacteristic) {
        sendRunning := false;
        return;
      }
      var data := GenerateTestData(testCounter);
      TestFrameAccepted(testCounter);
      SendDataToESP32(data, writeOk);
      testCounter := testCounter + 1;
    }

    /** StartTestDataTransmission: stop a running loop and start a new one from counter 0, running its first pass. */
    method StartTestDataTransmission(writeOk: bool)
      requires Valid()
      modifies this`sendHandle, this`sendRunning, this`testCounter, this`sent
      ensures Valid()
      ensures sendHandle
      ensures sendRunning == ready
      ensures sent == if ready && writeOk then old(sent) + [Encode(TestChannels(0))] else old(sent)
      ensures testCounter == if ready then 1 else 0
    {
      if sendHandle {
        sendRunning := false;
      }
      sendHandle, sendRunning, testCounter := true, true, 0;
      SendTick(writeOk);
    }

    method StopTestDataTransmission()
      requires Valid()
      modifies this`sendHandle, this`sendRunning
      ensures Valid()
      ensures !sendHandle && !sendRunning
      ensures !old(sendHandle) ==> sendRunning == old(sendRunning)
    {
      if sendHandle {
        sendHandle, sendRunning := false, false;
      }
    }

    /** OnDiscoverPeripheral with the corrected name test: a target name is connected to. */
    method OnDiscoverPeripheral(name: string)
      requires Valid()
      modifies this`connectingTo
      ensures Valid()
      ensures connectingTo == if EarlyLink.IsTargetName(name) then Some(name) else old(connectingTo)
    {
      if name != "ESP32-BLE" && name != "FeltSight BLE" {
        return;
      }
      connectingTo := Some(name);
    }

    /** OnDiscoverCharacteristic: the RX characteristic makes the link ready and (re)starts the test loop. */
    method OnDiscoverCharacteristic(uuid: string, writeOk: bool)
      requires Valid()
      modifies this`hasCharacteristic, this`ready, this`sendHandle, this`sendRunning, this`testCounter, this`sent
      ensures Valid()
      ensures LinkState.IsRxCharacteristic(uuid) ==>
                && ready && hasCharacteristic && sendHandle && sendRunning && testCounter == 1
                && sent == if writeOk then old(sent) + [Encode(TestChannels(0))] else old(sent)
      ensures !LinkState.IsRxCharacteristic(uuid) ==>
                && ready == old(ready) && hasCharacteristic == old(hasCharacteristic)
                && sendHandle == old(sendHandle) && sendRunning == old(sendRunning)
                && testCounter == old(testCounter) && sent == old(sent)
    {
      if ToUpper(uuid) == LinkState.RxCharacteristicUuid {
        hasCharacteristic, ready := true, true;
        StartTestDataTransmission(writeOk);
      }
    }

    /** SendSingleTestData: test frame 0, only on a ready link with a characteristic. */
    method SendSingleTestData(writeOk: bool)
      requires Valid()
      modifies this`sent
      ensures Valid()
      ensures sent == if ready && writeOk then old(sent) + [Encode(TestChannels(0))] else old(sent)
    {
      if ready && hasCharacteristic {
        var data := GenerateTestData(0);
        TestFrameAccepted(0);
        SendDataToESP32(data, writeOk);
      }
    }

    /** ToggleTestDataTransmission: stop when a handle exists, else start when ready. */
    method ToggleTestDataTransmission(writeOk: bool)
      requires Valid()
      modifies this`sendHandle, this`sendRunning, this`testCounter, this`sent
      ensures Valid()
      ensures old(sendHandle) ==> !sendHandle && !sendRunning && sent == old(sent)
      ensures !old(sendHandle) && ready ==>
                && sendHandle && sendRunning && testCounter == 1
                && sent == if writeOk then old(sent) + [Encode(TestChannels(0))] else old(sent)
      ensures old(sendHandle) || !ready ==> testCounter == old(testCounter)
      ensures !old(sendHandle) && !ready ==> sendHandle == old(sendHandle) && sendRunning == old(sendRunning) && sent == old(sent)
    {
      if sendHandle {
        StopTestDataTransmission();
      } else if ready {
        StartTestDataTransmission(writeOk);
      }
    }
  }
}
