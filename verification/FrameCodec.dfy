/** Request and reply frames: a length prefix, a preamble and an encoded message. */
module FrameCodec {
  import opened RasterTypes
  import opened ByteCodec

  const FRAME_MAGIC: UInt32 := 0x50465053
  const FRAME_VERSION: UInt16 := 1
  const MAXIMUM_FRAME: int := 512 * MIB

  /** How messages become bytes and back. */
  datatype MessageCodec<!M(!new)> = MessageCodec(encode: M -> seq<Byte>, decode: seq<Byte> -> Option<M>) {
    ghost predicate Inverts() {
      forall m :: decode(encode(m)) == Some(m)
    }
  }

  function Body<M(!new)>(codec: MessageCodec<M>, message: M): seq<Byte> {
    Put32(FRAME_MAGIC) + (Put16(FRAME_VERSION) + codec.encode(message))
  }

  /** A frame, or nothing when the message is too large. */
  function EncodeFrame<M(!new)>(codec: MessageCodec<M>, message: M): Option<seq<Byte>> {
    var body := Body(codec, message);
    if |body| > MAXIMUM_FRAME then None else Some(Put32(|body|) + body)
  }

  datatype Taken<M> = Incomplete | Invalid | Complete(message: M)

  function DecodeBody<M(!new)>(codec: MessageCodec<M>, body: seq<Byte>): Taken<M> {
    match Read32(body)
    case None => Invalid
    case Some((magic, s)) =>
      match Read16(s)
      case None => Invalid
      case Some((version, rest)) =>
        match codec.decode(rest)
        case None => Invalid
        case Some(message) => if magic != FRAME_MAGIC || version != FRAME_VERSION then Invalid else Complete(message)
  }

  /** What is at the front of a buffer, and what the buffer is afterwards. */
  function TakeFrame<M(!new)>(codec: MessageCodec<M>, buffer: seq<Byte>): (Taken<M>, seq<Byte>) {
    if |buffer| < 4 then (Incomplete, buffer)
    else
      var size := Get32(buffer[..4]) as int;
      if size == 0 || size > MAXIMUM_FRAME then (Invalid, buffer)
      else if |buffer| < 4 + size then (Incomplete, buffer)
      else (DecodeBody(codec, buffer[4..4 + size]), buffer[4 + size..])
  }

  class Connection {
    var buffer: seq<Byte>

    constructor ()
      ensures buffer == []
    {
      buffer := [];
    }

    method Receive(bytes: seq<Byte>)
      modifies this
      ensures buffer == old(buffer) + bytes
    {
      buffer := buffer + bytes;
    }

    /** Consumes one frame from the front of the buffer. */
    method Take<M(!new)>(codec: MessageCodec<M>) returns (taken: Taken<M>)
      modifies this
      ensures (taken, buffer) == TakeFrame(codec, old(buffer))
    {
      if |buffer| < 4 {
        return Incomplete;
      }
      var size := Get32(buffer[..4]) as int;
      if size == 0 || size > MAXIMUM_FRAME {
        return Invalid;
      }
      if |buffer| < 4 + size {
        return Incomplete;
      }
      var body := buffer[4..4 + size];
      buffer := buffer[4 + size..];
      taken := DecodeBody(codec, body);
    }
  }

  /** A whole frame is taken off whatever follows it, and yields its message. */
  lemma FrameBack<M(!new)>(codec: MessageCodec<M>, message: M, rest: seq<Byte>)
    requires codec.Inverts() && EncodeFrame(codec, message).Some?
    ensures TakeFrame(codec, EncodeFrame(codec, message).value + rest) == (Complete(message), rest)
  {
    var body := Body(codec, message);
    var buffer := Put32(|body|) + body + rest;
    assert buffer[..4] == Put32(|body|) && buffer[4..4 + |body|] == body && buffer[4 + |body|..] == rest;
    Get32Put(|body|);
    BodyBack(codec, message);
  }

  lemma BodyBack<M(!new)>(codec: MessageCodec<M>, message: M)
    requires codec.Inverts()
    ensures DecodeBody(codec, Body(codec, message)) == Complete(message)
  {
    Read32Back(FRAME_MAGIC, Put16(FRAME_VERSION) + codec.encode(message));
    Read16Back(FRAME_VERSION, codec.encode(message));
  }

  /** As long as a frame has not arrived completely, nothing is consumed. */
  lemma PartialFrameWaits<M(!new)>(codec: MessageCodec<M>, message: M, arrived: nat)
    requires EncodeFrame(codec, message).Some? && arrived < |EncodeFrame(codec, message).value|
    ensures TakeFrame(codec, EncodeFrame(codec, message).value[..arrived]) ==
            (Incomplete, EncodeFrame(codec, message).value[..arrived])
  {
    var body := Body(codec, message);
    var part := (Put32(|body|) + body)[..arrived];
    if 4 <= arrived {
      assert part[..4] == Put32(|body|);
      Get32Put(|body|);
    }
  }

  /** Frames back to back. */
  function Stream<M(!new)>(codec: MessageCodec<M>, messages: seq<M>): seq<Byte>
    requires forall m :: m in messages ==> EncodeFrame(codec, m).Some?
  {
    if messages == [] then []
    else
      assert messages[0] in messages && forall m :: m in messages[1..] ==> m in messages;
      EncodeFrame(codec, messages[0]).value + Stream(codec, messages[1..])
  }

  /** The messages taken off a buffer one after another. */
  function TakeAll<M(!new)>(codec: MessageCodec<M>, buffer: seq<Byte>, count: nat): Option<seq<M>> {
    if count == 0 then Some([])
    else
      var (taken, rest) := TakeFrame(codec, buffer);
      match taken
      case Complete(message) =>
        var others :- TakeAll(codec, rest, count - 1);
        Some([message] + others)
      case _ => None
  }

  /** Taking one frame first. */
  lemma TakeOne<M(!new)>(codec: MessageCodec<M>, first: M, others: seq<M>, tail: seq<Byte>)
    requires codec.Inverts() && EncodeFrame(codec, first).Some? && TakeAll(codec, tail, |others|) == Some(others)
    ensures TakeAll(codec, EncodeFrame(codec, first).value + tail, |others| + 1) == Some([first] + others)
  {
    FrameBack(codec, first, tail);
  }

  /** However many frames are sent back to back, the receiver takes off the same messages in the same order. */
  lemma {:induction false} StreamBack<M(!new)>(codec: MessageCodec<M>, messages: seq<M>, rest: seq<Byte>)
    requires codec.Inverts() && forall m :: m in messages ==> EncodeFrame(codec, m).Some?
    ensures TakeAll(codec, Stream(codec, messages) + rest, |messages|) == Some(messages)
  {
    if messages != [] {
      assert messages[0] in messages && forall m :: m in messages[1..] ==> m in messages;
      StreamBack(codec, messages[1..], rest);
      TakeOne(codec, messages[0], messages[1..], Stream(codec, messages[1..]) + rest);
      StreamCons(codec, messages, rest);
      assert [messages[0]] + messages[1..] == messages;
    }
  }

  lemma StreamCons<M(!new)>(codec: MessageCodec<M>, messages: seq<M>, rest: seq<Byte>)
    requires messages != [] && forall m :: m in messages ==> EncodeFrame(codec, m).Some?
    ensures EncodeFrame(codec, messages[0]).Some? && forall m :: m in messages[1..] ==> EncodeFrame(codec, m).Some?
    ensures Stream(codec, messages) + rest ==
            EncodeFrame(codec, messages[0]).value + (Stream(codec, messages[1..]) + rest)
  {
    assert messages[0] in messages && forall m :: m in messages[1..] ==> m in messages;
    Associative(EncodeFrame(codec, messages[0]).value, Stream(codec, messages[1..]), rest);
  }

  lemma Associative(a: seq<Byte>, b: seq<Byte>, c: seq<Byte>)
    ensures a + b + c == a + (b + c)
  {
  }
}
