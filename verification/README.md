# cipher-base in Dafny

A model of `CipherBase` (index.js), the adapter that sits in front of a cipher
or decipher implementation and gives it a one-shot `update`/`final` interface
and a transform-stream interface. The adapter itself transforms nothing: it
checks argument shapes, enforces the lifecycle (a one-way `_finalized` latch,
authenticated-mode rules for the tag and the AAD, one output encoding per
instance), wipes the authentication tag after a successful final, and hands
the real work to five hooks a concrete cipher overrides (`_update`, `_final`,
`_setAutoPadding`, `_setAAD`, `_isAuthenticatedMode`).

Layout:

- `types.dfy` (`Types`): values an operation is handed (`Value`: string,
  buffer, boolean, undefined, null, other), the error kinds (`TypeError`,
  `StateError` for a plain `Error` about the state, `BackendError`), outputs,
  the hook calls, the error messages, and `Codec`, the runtime text services.
- `checks.dfy` (`Checks`): `throwIfNotStringOrBuffer`, `throwIfNotBuffer`,
  `getDecoder` and the "output encoding asks for text" test, as functions.
- `machine.dfy` (`Machine`): the instance state (`_kind`, `_authTag`,
  `_decoder`, `_finalized`) and one pure step function per public operation,
  returning the next state, the reply or error, and the hook calls made in
  order; `Run` strings steps into a session. The session lemmas prove the
  lifecycle properties for every sequence of calls.
- `stream.dfy` (`Stream`): `_transform` and `_flush` as functions, streamed
  sessions, and the finding below.
- `cipher_base.dfy` (`Adapter`): `class CipherBase` with the instance fields,
  updated in place by methods that follow index.js statement by statement.
  Each method is proved to leave the instance in the state the matching
  `Machine` step gives (through `View()`), to make the same hook calls (the
  ghost `calls` log) and to return the same reply. `final` zero-fills the tag
  array in place before dropping it.
- `scenarios.dfy` (`Scenarios`): the situations of test/index.js, written as
  client code whose assertions follow from the class contracts alone.

How the backend is modelled. The hooks are code this repository does not
contain, and a concrete cipher replaces them. So every operation takes the
answer its hooks give as a parameter: what `_update` or `_final` returns or
throws (`Result<Bytes>`), whether `_setAutoPadding` or `_setAAD` throws
(`Outcome`), and what `_isAuthenticatedMode` returns or throws
(`Result<bool>`). A property proved for all such answers holds for every
backend, including the default hooks that throw "... is not implemented". The
ghost `calls` field records which hooks were called, with which arguments, in
which order, so "does not call the backend" is a statement about `calls`.

Text services. `Buffer.from(string, encoding)` and a string decoder's `write`
and `end` are runtime code; the instance receives them at construction as a
`Codec` of total functions. A decoder is represented by the name of its
encoding.

Behaviour of the code that the model keeps as written:

- There are two roles only, CIPHER and DECIPHER (index.js:6-7, 28); the
  constructor's argument picks one of them.
- A transform stream is expected to push what it produces, but `_transform`
  discards the output of `update` (index.js:43; see Findings).
- After final, `setAAD` still asks `_isAuthenticatedMode()` first
  (index.js:140), so when that hook throws, the caller sees its error rather
  than the state error. The same holds for a second `final` (index.js:82) and
  for `setAuthTag` (index.js:130). The model states both cases: the hook's own
  error when the query throws, the state message when it answers.
- `getAuthTag` (index.js:120-126) only copies the tag; the tag is wiped only by
  a successful final of an authenticated DECIPHER (index.js:95-98).

## Model

| member | source | states |
|---|---|---|
| `Checks.ThrowIfNotStringOrBuffer` | index.js:9-13 | passes exactly strings and buffers; anything else is a TypeError "<prefix> must be a string or a buffer" |
| `Checks.ThrowIfNotBuffer` | index.js:15-17 | passes exactly buffers; anything else is a TypeError "<prefix> must be a buffer" |
| `Checks.GetDecoder` | index.js:19-23 | succeeds iff no decoder is bound or the bound one has the requested encoding, and then yields a decoder for that encoding; otherwise "Cannot change encoding" |
| `Machine.Initial` | index.js:25-32 | a new instance is CIPHER iff the argument is true, has no tag, no decoder, and is not finalized |
| `Machine.UpdateStep` | index.js:62-74 | succeeds exactly when the data is a string or buffer, the instance is not finalized, `_update` answers and the output is raw or in an encoding the instance accepts (none bound yet, or the bound one); type check before state check, both changing nothing and calling no hook; otherwise `_update` runs once on the (converted) input before the encoding check and its error is passed through; raw output is the hook's bytes unchanged and leaves the decoder alone; the first text encoding binds the decoder, a bound one never changes and a different one is refused with "Cannot change encoding"; the kind, tag and latch are never touched |
| `Machine.FinalStep` | index.js:80-101 | every call leaves the instance finalized; a second call makes no `_final` call, only the mode query, and fails with the query's own error or with "Unsupported state or unable to authenticate data" / "Unsupported state" by mode; a first call runs `_final` exactly once, and only a DECIPHER past `_final` and the encoding check then queries the mode (a CIPHER never does); it succeeds exactly when `_final` answers, the encoding is accepted and, for a DECIPHER, the mode query answers, and otherwise fails with that hook's error or "Cannot change encoding", the instance staying finalized (a throwing `_final` changes nothing but the latch); once `_final` has answered, an accepted text encoding binds the decoder, even if a DECIPHER's mode query then throws; the tag changes exactly on a successful final of an authenticated DECIPHER holding one, and is then dropped |
| `Machine.SetAutoPaddingStep` | index.js:107-114 | never changes the state; refused after final without calling the hook; otherwise calls `_setAutoPadding` with the argument and returns `this` unless the hook throws |
| `Machine.GetAuthTagStep` | index.js:120-126 | succeeds iff CIPHER, a tag is present and finalized, and then returns that tag; otherwise the state error; no hook call, no change |
| `Machine.SetAuthTagStep` | index.js:128-136 | a non-buffer is a TypeError with no hook call and no change; otherwise the mode is queried once, and a throwing query's error is passed through; succeeds iff authenticated mode, DECIPHER and not finalized, storing the argument's bytes and returning `this`; any other answer is the state error; a refusal changes nothing |
| `Machine.SetAADStep` | index.js:138-146 | a non-buffer is a TypeError with no hook call; the mode is queried first, and a throwing query's error is passed through; the hook calls are exactly the mode query followed, only when it answers "authenticated" and the instance is not finalized, by `_setAAD` with the argument's bytes, and otherwise the call fails with the state error; succeeds iff in addition `_setAAD` does not throw, whose error is passed through; never changes the state |
| `Machine.InertAfterFinal` | index.js:62-146 | from a finalized state, any session leaves the state unchanged, every call but getAuthTag fails, and the only hook call is the mode query |
| `Machine.FinalizedAfterFinal` | index.js:80-92 | after any call to final in a session, succeeded or not, the instance is finalized and stays so to the end |
| `Machine.NothingSucceedsAfterFinal` | index.js:62-146 | in any session, every update, final, setAutoPadding, setAuthTag and setAAD that comes after a final fails |
| `Machine.FinalHookAtMostOnce` | index.js:80-89 | in any session `_final` is called at most once, and never if the instance starts finalized |
| `Machine.DecoderNeverRebinds` | index.js:62-101 | once the decoder is bound to an encoding it stays bound to it for the rest of any session; every update or final asking for another text encoding fails; and until the first final, every update on a string or buffer and every final asking for raw output or for the bound encoding, with hooks that answer, succeeds |
| `Stream.TransformAsWritten` | index.js:40-49 | `_transform` moves the state as update on the chunk does, passes the caught error or null to its callback, and pushes nothing |
| `Stream.TransformForwarding` | index.js:40-49 | the corrected `_transform`: as above, and pushes the update's output bytes exactly when the update succeeded |
| `Stream.Flush` | index.js:51-60 | `_flush` moves the state as final does, passes the caught error or null to its callback, and pushes final's bytes exactly when final succeeded; after finalization it pushes nothing |
| `Stream.AsWrittenPipePushesNothing` | index.js:40-49 | streaming any chunks through `_transform` as written ends in the same state with the same callbacks as calling update on each, and pushes nothing |
| `Stream.ForwardingPipeMatchesUpdates` | index.js:40-49 | with the corrected `_transform`, streaming any chunks ends in the same state as calling update on each, with one callback per update, and pushes exactly the outputs of the successful updates, in order |
| `Stream.StreamedOutputIsLost` | index.js:40-49 | a chunk that update turns into one byte reaches the readable side through the corrected bridge but not through the bridge as written |
| `Adapter.CipherBase.constructor` | index.js:25-32 | the fields start as `Machine.Initial`, with no tag array, an empty hook log and nothing pushed |
| `Adapter.CipherBase.Transform` | index.js:40-49 | moves the instance, makes the hook calls and yields the callback argument that `Stream.TransformAsWritten` gives; pushes nothing |
| `Adapter.CipherBase.Flush` | index.js:51-60 | moves the instance and pushes as `Stream.Flush` gives; the tag array is zeroed when released and untouched otherwise |
| `Adapter.CipherBase.Update` | index.js:62-74 | new state, reply and hook calls are those of `Machine.UpdateStep`; the tag array is not touched |
| `Adapter.CipherBase.Final` | index.js:80-101 | new state, reply and hook calls are those of `Machine.FinalStep`; when the tag is released every byte of the old tag array is 0, and otherwise the array and its bytes are unchanged |
| `Adapter.CipherBase.SetAutoPadding` | index.js:107-114 | state, reply and hook calls as `Machine.SetAutoPaddingStep`; success returns this object |
| `Adapter.CipherBase.GetAuthTag` | index.js:120-126 | succeeds iff CIPHER, a tag array is present and finalized; the result is a fresh array equal to the tag |
| `Adapter.CipherBase.SetAuthTag` | index.js:128-136 | state, reply and hook calls as `Machine.SetAuthTagStep`; on success the stored tag is a fresh array, not shared with anyone |
| `Adapter.CipherBase.SetAAD` | index.js:138-146 | state, reply and hook calls as `Machine.SetAADStep`; success returns this object |

## Left out

- Node's `stream.Transform` (index.js:2, 26, 34): the stream machinery is not modelled; `push` appends to the ghost `pushed` sequence and the callback's argument is the method's result, so "called exactly once" holds by construction.
- The `inherits` helper and overriding hooks on the prototype (index.js:3, 34, 36-38, 76-78, 103-105, 116-118, 148-150): replaced by hook answers passed as parameters; the default "... is not implemented" hooks are the special case of an answer that is an error.
- String decoding (index.js:4, 71, 92): `write` and `end` are functions of the encoding name and the bytes of one call, so the multi-byte carry between calls is not modelled; nor is the decoder's normalisation of encoding names (it reports "utf8" for "UTF-8", which `getDecoder` then compares against the requested name), nor its refusal of an unknown encoding.
- `Buffer.from(string, encoding)` (index.js:66): a function of the codec; its default of utf8 and its errors for unknown encodings belong to the runtime.
- JavaScript truthiness beyond strings: the constructor's argument and the mode query's answer are booleans, and an output encoding is an optional string (non-string truthy values are not modelled).
- A concrete cipher producing its tag by assigning `_authTag` during its own `_final` (and the tests doing the same): the class fields are public and `Scenarios` assigns them, but `Machine.Op` has no such call, so in a `Machine.Run` session a CIPHER never holds a tag.
- The cipher algorithms themselves, which are not in this repository.

## Findings

| source | as written | input that shows it | evidently intended | confidence | as-written member | corrected member |
|---|---|---|---|---|---|---|
| index.js:40-49 | `_transform` calls `update(chunk, encoding)` and drops its return value, so nothing an update produces is ever pushed downstream | a CIPHER whose `_update` turns the chunk `[0x68]` into `[0x68]`: update returns it, the stream pushes nothing (`Stream.StreamedOutputIsLost`, `Stream.AsWrittenPipePushesNothing`) | push the output of each successful update, so that streaming yields what one-shot updates return | not executed; a transform stream is expected to push its output, and test/index.js:36-63 checks only the callback | `Stream.TransformAsWritten` | `Stream.TransformForwarding` (its property: `Stream.ForwardingPipeMatchesUpdates`) |

`Adapter.CipherBase.Transform` keeps the behaviour as written, since it models
index.js line for line; the streamed-session lemmas use the corrected bridge.
