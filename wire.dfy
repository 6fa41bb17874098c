/**
  Wire framing: one transport message is a one-byte command tag followed
  by the serialized payload, with no length prefix.
 */
module Wire {
  import opened Basics
  import opened Protocol

  /** The frame `[tag][payload]`. */
  function FrameOf(tag: CommandType, payload: seq<byte>): (frame: seq<byte>)
    ensures |frame| == CommandSize + |payload|
  {
    [tag] + payload
  }

  /**
    The tag occupies the first CommandSize bytes of a frame, and the
    payload is copied at offset CommandSize.
   */
  lemma TagOccupiesCommandSize(tag: CommandType, payload: seq<byte>)
    ensures FrameOf(tag, payload)[..CommandSize] == [tag]
    ensures FrameOf(tag, payload)[CommandSize..] == payload
  {
    assert FrameOf(tag, payload) == [tag] + payload;
  }

  datatype Envelope = Envelope(tag: CommandType, payload: seq<byte>)

  /** Splits a frame into its tag and its payload; a message shorter than one tag is malformed. */
  function Unframe(message: seq<byte>): (r: Option<Envelope>)
    ensures r.None? <==> |message| < CommandSize
    ensures r.Some? ==> |r.value.payload| == |message| - CommandSize
  {
    if |message| < CommandSize then None
    else Some(Envelope(message[0], message[CommandSize..]))
  }

  /** Framing then unframing recovers the tag and the payload, whatever the payload's length. */
  lemma UnframeFrameOf(tag: CommandType, payload: seq<byte>)
    ensures Unframe(FrameOf(tag, payload)) == Some(Envelope(tag, payload))
  {
    assert FrameOf(tag, payload)[CommandSize..] == payload;
  }

  /** Every well-formed message is the frame of its own tag and payload. */
  lemma FrameOfUnframe(message: seq<byte>)
    requires |message| >= CommandSize
    ensures FrameOf(Unframe(message).value.tag, Unframe(message).value.payload) == message
  {
  }

  /**
    ClientSession::sendSerializatedMessage's buffer: a vector of
    payload size + commandSize bytes, the tag copied to the front and the
    payload after it.
   */
  method BuildFrame(binaryMessage: seq<byte>, cmdType: CommandType) returns (message: seq<byte>)
    ensures message == FrameOf(cmdType, binaryMessage)
    ensures Unframe(message) == Some(Envelope(cmdType, binaryMessage))
  {
    var buffer := new byte[|binaryMessage| + CommandSize];
    buffer[0] := cmdType;
    var i := 0;
    while i < |binaryMessage|
      invariant 0 <= i <= |binaryMessage|
      invariant buffer[0] == cmdType
      invariant forall k :: 0 <= k < i ==> buffer[CommandSize + k] == binaryMessage[k]
    {
      buffer[CommandSize + i] := binaryMessage[i];
      i := i + 1;
    }
    message := buffer[..];
    assert message == FrameOf(cmdType, binaryMessage);
    UnframeFrameOf(cmdType, binaryMessage);
  }

  /**
    The bytes a C string reader takes from a buffer: everything before the
    first zero byte (QString(const char*), protobuf's set_x(const char*)).
   */
  function CutAtZero(bytes: seq<byte>): (r: seq<byte>)
    ensures r <= bytes
    ensures 0 !in r
    ensures |r| < |bytes| ==> bytes[|r|] == 0
  {
    if bytes == [] || bytes[0] == 0 then [] else [bytes[0]] + CutAtZero(bytes[1..])
  }

  /** A buffer without a zero byte is read whole. */
  lemma {:induction false} CutAtZeroNoZero(bytes: seq<byte>)
    requires 0 !in bytes
    ensures CutAtZero(bytes) == bytes
  {
    if bytes != [] {
      assert bytes[0] in bytes;
      assert 0 !in bytes[1..] by {
        forall k | 0 <= k < |bytes| - 1 ensures bytes[1..][k] != 0 {
          assert bytes[1..][k] == bytes[k + 1];
          assert bytes[k + 1] in bytes;
        }
      }
      CutAtZeroNoZero(bytes[1..]);
    }
  }

  /** A frame whose tag is 0 is read as nothing at all. */
  lemma CutFrameWithZeroTag(payload: seq<byte>)
    ensures CutAtZero(FrameOf(0, payload)) == []
  {
  }

  /** A frame survives the C string reader exactly when neither its tag nor its payload holds a zero byte. */
  lemma CutFrameSurvives(tag: CommandType, payload: seq<byte>)
    ensures CutAtZero(FrameOf(tag, payload)) == FrameOf(tag, payload) <==> tag != 0 && 0 !in payload
  {
    var frame := FrameOf(tag, payload);
    if tag != 0 && 0 !in payload {
      assert 0 !in frame by {
        forall k | 0 <= k < |frame| ensures frame[k] != 0 {
          if k > 0 { assert frame[k] == payload[k - 1]; }
        }
      }
      CutAtZeroNoZero(frame);
    } else if tag != 0 {
      assert 0 in frame by {
        var j :| 0 <= j < |payload| && payload[j] == 0;
        assert frame[j + 1] == 0;
      }
    }
  }
}
