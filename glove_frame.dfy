/**
  The 32-byte command frame the glove firmware accepts: a start marker 0xFE,
  ten 3-byte channel blocks (file index, volume, speed) and an end marker 0xFF.
  `Encode` is the layout, `Decode` the receiving side's format check and field
  extraction (the check LogDataContent performs before it reports the
  channels), and `FillUniformFrame` the loop the links run to write a frame
  whose ten blocks are all the same.
*/
module GloveFrame {
  import opened EngineMath
  import opened Wrappers

  const FrameLength: nat := 32
  const ChannelCount: nat := 10
  const StartMarker: Byte := 0xFE
  const EndMarker: Byte := 0xFF

  /** One channel block of a frame. */
  datatype Channel = Channel(fileIndex: Byte, volume: Byte, speed: Byte)

  /** Byte `field` (0, 1 or 2) of a channel block. */
  function ChannelByte(c: Channel, field: int): Byte {
    if field == 0 then c.fileIndex else if field == 1 then c.volume else c.speed
  }

  /** The frame layout: marker, the blocks of channel 0..9 at offsets 1 + 3i, marker. */
  function Encode(channels: seq<Channel>): (frame: seq<Byte>)
    requires |channels| == ChannelCount
    ensures |frame| == FrameLength
    ensures frame[0] == StartMarker && frame[FrameLength - 1] == EndMarker
  {
    seq(FrameLength, k requires 0 <= k < FrameLength => LayoutByte(channels, k))
  }

  /** Field f of channel i sits at offset 1 + 3i + f of the frame. */
  lemma EncodeAt(channels: seq<Channel>, i: int, f: int)
    requires |channels| == ChannelCount
    requires 0 <= i < ChannelCount && 0 <= f < 3
    ensures 1 + 3 * i + f < FrameLength - 1
    ensures Encode(channels)[1 + 3 * i + f] == ChannelByte(channels[i], f)
  {
    BlockPosition(i, f);
  }

  /** Byte `k` of the layout of `channels`. */
  function LayoutByte(channels: seq<Channel>, k: int): Byte
    requires |channels| == ChannelCount && 0 <= k < FrameLength
  {
    if k == 0 then StartMarker
    else if k == FrameLength - 1 then EndMarker
    else ChannelByte(channels[(k - 1) / 3], (k - 1) % 3)
  }

  /** Offset 1 + 3i + f lies in block i at field f. */
  lemma BlockPosition(i: int, f: int)
    requires 0 <= i < ChannelCount && 0 <= f < 3
    ensures 1 <= 1 + 3 * i + f < FrameLength - 1
    ensures (3 * i + f) / 3 == i && (3 * i + f) % 3 == f
  {
  }

  /** Every inner offset k is 1 + 3i + f for its block i and field f. */
  lemma InnerPosition(k: int)
    requires 1 <= k < FrameLength - 1
    ensures 0 <= (k - 1) / 3 < ChannelCount && k == 1 + 3 * ((k - 1) / 3) + (k - 1) % 3
  {
  }

  /** Ten copies of the same channel block. */
  function Uniform(c: Channel): (channels: seq<Channel>)
    ensures |channels| == ChannelCount
    ensures forall i :: 0 <= i < ChannelCount ==> channels[i] == c
  {
    seq(ChannelCount, _ => c)
  }

  /**
    The format check and field extraction of the receiving side: a frame is
    accepted exactly when it has 32 bytes and both markers, and then its
    channels are read from offsets 1 + 3i.
  */
  function Decode(data: seq<Byte>): (r: Option<seq<Channel>>)
    ensures r.Some? <==> |data| == FrameLength && data[0] == StartMarker && data[FrameLength - 1] == EndMarker
    ensures r.Some? ==> |r.value| == ChannelCount
  {
    if |data| != FrameLength || data[0] != StartMarker || data[FrameLength - 1] != EndMarker then None
    else Some(seq(ChannelCount, i requires 0 <= i < ChannelCount => Channel(data[1 + 3 * i], data[2 + 3 * i], data[3 + 3 * i])))
  }

  /** Every frame of the layout passes the check and yields the channels it was built from. */
  lemma DecodeEncode(channels: seq<Channel>)
    requires |channels| == ChannelCount
    ensures Decode(Encode(channels)) == Some(channels)
  {
    var frame := Encode(channels);
    var decoded := Decode(frame).value;
    forall i | 0 <= i < ChannelCount
      ensures decoded[i] == channels[i]
    {
      EncodeAt(channels, i, 0);
      EncodeAt(channels, i, 1);
      EncodeAt(channels, i, 2);
    }
    assert decoded == channels;
  }

  /** Every accepted frame is exactly the layout of the channels read from it. */
  lemma EncodeDecode(data: seq<Byte>)
    requires Decode(data).Some?
    ensures Encode(Decode(data).value) == data
  {
    var channels := Decode(data).value;
    var frame := Encode(channels);
    forall k | 0 <= k < FrameLength
      ensures frame[k] == data[k]
    {
      if 1 <= k < FrameLength - 1 {
        InnerPosition(k);
        var i, f := (k - 1) / 3, (k - 1) % 3;
        EncodeAt(channels, i, f);
        assert channels[i] == Channel(data[1 + 3 * i], data[2 + 3 * i], data[3 + 3 * i]);
      }
    }
  }

  /**
    GenerateData's loop: a zeroed 32-byte buffer, the start marker, the same
    block written at offsets 1 + 3i for channels 0..9, then the end marker.
  */
  method FillUniformFrame(c: Channel) returns (frame: seq<Byte>)
    ensures frame == Encode(Uniform(c))
  {
    var data := new Byte[FrameLength](_ => 0);
    data[0] := StartMarker;
    for channel := 0 to ChannelCount
      invariant data[0] == StartMarker
      invariant forall k :: 1 <= k < 1 + 3 * channel ==> data[k] == ChannelByte(c, (k - 1) % 3)
    {
      var offset := 1 + channel * 3;
      BlockPosition(channel, 0);
      BlockPosition(channel, 1);
      BlockPosition(channel, 2);
      data[offset] := c.fileIndex;
      data[offset + 1] := c.volume;
      data[offset + 2] := c.speed;
    }
    data[FrameLength - 1] := EndMarker;
    frame := data[..];
    var expected := Encode(Uniform(c));
    forall k | 0 <= k < FrameLength
      ensures frame[k] == expected[k]
    {
      if 1 <= k < FrameLength - 1 {
        InnerPosition(k);
      }
    }
  }
}
