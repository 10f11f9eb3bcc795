/** The logical frame model: one frame is one WebSocket message.

    Text is represented by its UTF-8 bytes throughout, because every length and every offset the
    protocol speaks of is a byte length or a byte offset.  An omitted field is `None`; a payload that
    is absent is `None` and a payload that is null is `Some(Null)`, so the two stay different frames.
  */
module Frames {

  datatype Option<+T> = None | Some(value: T)

  newtype Byte = b: int | 0 <= b < 0x100

  /** The UTF-8 bytes of a string. */
  type Text = seq<Byte>

  /** Every value a frame can carry for the application. */
  datatype Value =
    | Null
    | Bool(b: bool)
    | Int(n: int)
    | Str(text: Text)
    | Raw(bytes: seq<Byte>)
    | List(items: seq<Value>)
    | Dict(entries: seq<Field>)

  datatype Field = Field(key: Text, value: Value)

  /** Headers and trailers. */
  type Fields = seq<Field>

  /** What a fragment carries; `text` says that its bytes are UTF-8. */
  datatype Chunk = Chunk(text: bool, bytes: seq<Byte>)

  datatype FrameType =
    | OpenFrame
    | DataFrame
    | ResetFrame
    | PingFrame
    | PongFrame
    | GoawayFrame
    | OtherFrame(name: Text)

  datatype Frame = Frame(
    kind: FrameType,
    stream: Option<nat>,
    payload: Option<Value>,
    fragment: Option<Chunk>,
    more: bool,
    headers: Option<Fields>,
    end: bool,
    trailers: Option<Fields>,
    code: Option<int>,
    reason: Option<Text>,
    nonce: Option<Text>,
    lastStream: Option<nat>)

  /** A frame of type `kind` on `stream` with every other field at its default. */
  function Bare(kind: FrameType, stream: Option<nat>): Frame {
    Frame(kind, stream, None, None, false, None, false, None, None, None, None, None)
  }

  // The reset codes.  There is no 5.
  const APPLICATION_ERROR := 2
  const PROTOCOL_ERROR := 3
  const REFUSED := 4
  const PAYLOAD_TOO_LARGE := 7
  const INTERNAL_ERROR := 8
  const CONNECTION_CLOSED := 9

  /** True of a code `Stream.reset` accepts: a member of the enumeration other than CONNECTION_CLOSED. */
  predicate Sendable(code: int) {
    0 <= code <= 8 && code != 5
  }
}
