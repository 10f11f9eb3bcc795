/** What the protocol asks of a codec.  `encode` and `encodePayload` return `None` where the codec
    raises, for example for bytes under JSON; `decodePayload` returns `None` for a payload it cannot
    decode. */
module Codecs {
  import opened Frames
  import opened Utf8

  datatype Codec = Codec(
    encode: Frame -> Option<seq<Byte>>,
    encodePayload: Value -> Option<Chunk>,
    decodePayload: Chunk -> Option<Value>)

  /** What a frame costs against the cap. */
  function Size(codec: Codec, frame: Frame): Option<nat> {
    match codec.encode(frame)
    case None => None
    case Some(message) => Some(|message|)
  }

  /** A payload survives encoding, and a text codec's output is well-formed UTF-8. */
  ghost predicate Lawful(codec: Codec) {
    forall v :: codec.encodePayload(v).Some? ==>
      var whole := codec.encodePayload(v).value;
      && codec.decodePayload(whole) == Some(v)
      && (whole.text ==> ValidUtf8(whole.bytes))
  }
}
