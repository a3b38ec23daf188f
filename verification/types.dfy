/**
 * Values shared by the cipher-base model: the JavaScript values an operation
 * can be handed, the error kinds it throws, what it returns, the calls it makes
 * into the backend hooks, and the text services it relies on.
 */
module Types {

  type Byte = bv8
  type Bytes = seq<Byte>

  datatype Option<T> = None | Some(value: T)

  /** TypeError for a wrongly shaped argument; StateError for a plain `Error`
      thrown because of the lifecycle state; BackendError for whatever a hook throws. */
  datatype Error =
    | TypeError(message: string)
    | StateError(message: string)
    | BackendError(message: string)

  datatype Result<T> = Ok(value: T) | Err(error: Error)

  datatype Outcome = Pass | Fail(error: Error)

  /** The shapes of JavaScript value the operations distinguish. */
  datatype Value =
    | Str(text: string)
    | Buf(bytes: Bytes)
    | Bool(flag: bool)
    | Undefined
    | Null
    | Other

  /** `K_CIPHER` and `K_DECIPHER`. */
  datatype Kind = Cipher | Decipher

  /** `update` and `final` return raw bytes, or text once an output encoding is given. */
  datatype Output = Raw(bytes: Bytes) | Text(text: string)

  /** What an operation hands back: its output, `this` (for chaining), or a tag copy. */
  datatype Reply = Data(output: Output) | Self | Tag(tag: Bytes)

  /** One call into a backend hook. */
  datatype HookCall =
    | UpdateHook(input: Bytes)
    | FinalHook
    | AutoPaddingHook(padding: Value)
    | AADHook(aad: Bytes)
    | AuthModeQuery

  /** The runtime's text services: `Buffer.from(string, encoding)` and the
      `write`/`end` of a string decoder bound to an encoding name. */
  datatype Codec = Codec(
    fromString: (string, Option<string>) -> Bytes,
    write: (string, Bytes) -> string,
    end: (string, Bytes) -> string)

  const AddDataMsg := "Trying to add data in unsupported state"
  const ChangeEncodingMsg := "Cannot change encoding"
  const UnsupportedMsg := "Unsupported state"
  const AuthFailedMsg := "Unsupported state or unable to authenticate data"
  const AutoPaddingMsg := "Attempting to set auto padding in unsupported state"
  const GetTagMsg := "Attempting to get auth tag in unsupported state"
  const SetTagMsg := "Attempting to set auth tag in unsupported state"
  const AADMsg := "Attempting to set AAD in unsupported state"

  /** An output-returning result seen as a general reply. */
  function AsReply(r: Result<Output>): (q: Result<Reply>)
    ensures q.Ok? <==> r.Ok?
    ensures r.Ok? ==> q.value == Data(r.value)
    ensures r.Err? ==> q.error == r.error
  {
    match r
    case Ok(o) => Ok(Data(o))
    case Err(e) => Err(e)
  }
}
