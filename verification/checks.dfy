/**
 * The argument checks and the decoder selection of index.js, as pure functions.
 */
module Checks {
  import opened Types

  predicate IsStringOrBuffer(v: Value) {
    v.Str? || v.Buf?
  }

  function NotStringOrBufferMsg(prefix: string): string {
    prefix + " must be a string or a buffer"
  }

  function NotBufferMsg(prefix: string): string {
    prefix + " must be a buffer"
  }

  /** `throwIfNotStringOrBuffer`: a string or a buffer passes, anything else is a TypeError. */
  function ThrowIfNotStringOrBuffer(val: Value, prefix: string): (r: Outcome)
    ensures r.Pass? <==> IsStringOrBuffer(val)
    ensures r.Fail? ==> r.error == TypeError(NotStringOrBufferMsg(prefix))
  {
    if !val.Buf? && !val.Str? then Fail(TypeError(NotStringOrBufferMsg(prefix)))
    else Pass
  }

  /** `throwIfNotBuffer`: only a buffer passes. */
  function ThrowIfNotBuffer(val: Value, prefix: string): (r: Outcome)
    ensures r.Pass? <==> val.Buf?
    ensures r.Fail? ==> r.error == TypeError(NotBufferMsg(prefix))
  {
    if !val.Buf? then Fail(TypeError(NotBufferMsg(prefix))) else Pass
  }

  /** `outputEncoding && outputEncoding !== 'buffer'`: a non-empty name other than
      "buffer" asks for text output; absent, "" and "buffer" ask for raw bytes. */
  predicate DecodesOutput(outputEncoding: Option<string>) {
    outputEncoding.Some? && outputEncoding.value != "" && outputEncoding.value != "buffer"
  }

  /** `getDecoder`: reuse the bound decoder or create one for `encoding`; a decoder
      bound to another encoding is refused. A decoder is represented by its encoding. */
  function GetDecoder(decoder: Option<string>, encoding: string): (r: Result<string>)
    ensures r.Ok? <==> decoder == None || decoder == Some(encoding)
    ensures r.Ok? ==> r.value == encoding
    ensures r.Err? ==> r.error == StateError(ChangeEncodingMsg)
  {
    var d := if decoder.Some? then decoder.value else encoding;
    if d != encoding then Err(StateError(ChangeEncodingMsg)) else Ok(d)
  }

  /** The output encoding a call asks for is one the instance can serve: raw
      bytes, or text with no decoder bound yet or with the bound one. */
  predicate EncodingAccepted(decoder: Option<string>, outputEncoding: Option<string>) {
    !DecodesOutput(outputEncoding) || decoder == None || decoder == outputEncoding
  }
}
