/**
 * The CipherBase state machine as pure functions. A state holds the four
 * fields of an instance; each operation maps a state to the next state, the
 * reply (or the error thrown) and the hook calls made, in order. Every hook's
 * answer is a parameter, so a property proved for all answers holds for every
 * backend.
 */
module Machine {
  import opened Types
  import opened Checks

  /** `_kind`, `_authTag` (its bytes), `_decoder` (its encoding) and `_finalized`. */
  datatype State = State(kind: Kind, tag: Option<Bytes>, decoder: Option<string>, finalized: bool)

  datatype Step = Step(next: State, out: Result<Reply>, calls: seq<HookCall>)

  /** The `CipherBase` constructor: a truthy argument selects CIPHER. */
  function Initial(cipher: bool): (s: State)
    ensures s.kind == Cipher <==> cipher
    ensures s.tag == None && s.decoder == None && !s.finalized
  {
    State(if cipher then Cipher else Decipher, None, None, false)
  }

  /** The bytes handed to `_update`: a buffer as is, a string converted with the input encoding. */
  function InputBytes(data: Value, inputEncoding: Option<string>, codec: Codec): Bytes
    requires IsStringOrBuffer(data)
  {
    if data.Buf? then data.bytes else codec.fromString(data.text, inputEncoding)
  }

  /** `update`. */
  function UpdateStep(s: State, data: Value, inputEncoding: Option<string>,
                      outputEncoding: Option<string>, hook: Result<Bytes>, codec: Codec): (r: Step)
    // update never touches the kind, the tag or the latch
    ensures r.next.kind == s.kind && r.next.tag == s.tag && r.next.finalized == s.finalized
    // the type check comes first, whatever the state, and changes nothing
    ensures !IsStringOrBuffer(data) ==>
      r == Step(s, Err(TypeError(NotStringOrBufferMsg("Cipher data"))), [])
    // after final: refused, nothing changed, no hook called
    ensures IsStringOrBuffer(data) && s.finalized ==> r == Step(s, Err(StateError(AddDataMsg)), [])
    // otherwise `_update` runs exactly once, before any encoding check
    ensures IsStringOrBuffer(data) && !s.finalized ==>
      r.calls == [UpdateHook(InputBytes(data, inputEncoding, codec))]
    // a hook failure is passed through
    ensures IsStringOrBuffer(data) && !s.finalized && hook.Err? ==> r.out == Err(hook.error)
    // raw output: the hook's bytes unchanged, decoder untouched
    ensures !DecodesOutput(outputEncoding) ==> r.next.decoder == s.decoder
    ensures !DecodesOutput(outputEncoding) && r.out.Ok? ==> r.out.value == Data(Raw(hook.value))
    // text output: the first choice binds, a bound encoding never changes
    ensures s.decoder.Some? ==> r.next.decoder == s.decoder
    ensures DecodesOutput(outputEncoding) && r.out.Ok? ==>
      r.next.decoder == outputEncoding &&
      r.out.value == Data(Text(codec.write(outputEncoding.value, hook.value)))
    ensures r.out.Err? ==> r.next == s
    // a different encoding is refused once the hook has answered
    ensures IsStringOrBuffer(data) && !s.finalized && hook.Ok? && DecodesOutput(outputEncoding) ==>
      (r.out == Err(StateError(ChangeEncodingMsg)) <==>
       s.decoder.Some? && s.decoder.value != outputEncoding.value)
    // and these are the only ways it fails
    ensures r.out.Ok? <==>
      IsStringOrBuffer(data) && !s.finalized && hook.Ok? && EncodingAccepted(s.decoder, outputEncoding)
  {
    match ThrowIfNotStringOrBuffer(data, "Cipher data")
    case Fail(e) => Step(s, Err(e), [])
    case Pass =>
      if s.finalized then Step(s, Err(StateError(AddDataMsg)), [])
      else
        var call := [UpdateHook(InputBytes(data, inputEncoding, codec))];
        match hook
        case Err(e) => Step(s, Err(e), call)
        case Ok(out) =>
          if DecodesOutput(outputEncoding) then
            match GetDecoder(s.decoder, outputEncoding.value)
            case Err(e) => Step(s, Err(e), call)
            case Ok(enc) => Step(s.(decoder := Some(enc)), Ok(Data(Text(codec.write(enc, out)))), call)
          else Step(s, Ok(Data(Raw(out))), call)
  }

  /** `final`. `hook` answers `_final`, `auth` answers `_isAuthenticatedMode`. */
  function FinalStep(s: State, outputEncoding: Option<string>, hook: Result<Bytes>,
                     auth: Result<bool>, codec: Codec): (r: Step)
    ensures r.next.kind == s.kind
    // the latch: set by every call, whatever the backend does, and never cleared
    ensures r.next.finalized
    // a second call: refused without calling `_final`; the message tells the modes apart
    ensures s.finalized ==> r.next == s && r.calls == [AuthModeQuery] && r.out.Err?
    ensures s.finalized && auth.Ok? ==>
      r.out == Err(StateError(if auth.value then AuthFailedMsg else UnsupportedMsg))
    // ... unless the mode query throws, whose error is passed through
    ensures s.finalized && auth.Err? ==> r.out == Err(auth.error)
    // a first call runs `_final` exactly once, first; only a DECIPHER that got
    // past `_final` and the encoding check then asks for the mode
    ensures !s.finalized ==>
      r.calls == if hook.Ok? && EncodingAccepted(s.decoder, outputEncoding) && s.kind == Decipher
                 then [FinalHook, AuthModeQuery] else [FinalHook]
    ensures !s.finalized && hook.Err? ==> r.out == Err(hook.error) && r.next == s.(finalized := true)
    ensures (!s.finalized && hook.Ok? && EncodingAccepted(s.decoder, outputEncoding) &&
             s.kind == Decipher && auth.Err?) ==> r.out == Err(auth.error)
    // a first call succeeds exactly when `_final` answers, the encoding is
    // accepted and, for a DECIPHER, the mode query answers
    ensures r.out.Ok? <==>
      !s.finalized && hook.Ok? && EncodingAccepted(s.decoder, outputEncoding) &&
      (s.kind == Decipher ==> auth.Ok?)
    ensures DecodesOutput(outputEncoding) && r.out.Ok? ==> r.next.decoder == outputEncoding
    // the decoder is bound once `_final` has answered, even if the mode query then throws
    ensures (!s.finalized && hook.Ok? && DecodesOutput(outputEncoding) &&
             EncodingAccepted(s.decoder, outputEncoding)) ==> r.next.decoder == outputEncoding
    // the output encoding follows the same rule as in update
    ensures s.decoder.Some? ==> r.next.decoder == s.decoder
    ensures !DecodesOutput(outputEncoding) ==> r.next.decoder == s.decoder
    ensures !DecodesOutput(outputEncoding) && r.out.Ok? ==> r.out.value == Data(Raw(hook.value))
    ensures DecodesOutput(outputEncoding) && r.out.Ok? ==>
      r.out.value == Data(Text(codec.end(outputEncoding.value, hook.value)))
    ensures !s.finalized && hook.Ok? && DecodesOutput(outputEncoding) &&
            s.decoder.Some? && s.decoder.value != outputEncoding.value ==>
      r.out == Err(StateError(ChangeEncodingMsg)) && r.next == s.(finalized := true)
    // the tag is dropped exactly by a successful final of an authenticated DECIPHER holding one
    ensures r.next.tag != s.tag <==>
      !s.finalized && r.out.Ok? && s.kind == Decipher && auth == Ok(true) && s.tag.Some?
    ensures r.next.tag != s.tag ==> r.next.tag == None
  {
    if s.finalized then
      match auth
      case Err(e) => Step(s, Err(e), [AuthModeQuery])
      case Ok(a) => Step(s, Err(StateError(if a then AuthFailedMsg else UnsupportedMsg)), [AuthModeQuery])
    else
      var latched := s.(finalized := true);
      match hook
      case Err(e) => Step(latched, Err(e), [FinalHook])
      case Ok(out) =>
        var decoded: Result<(Option<string>, Output)> :=
          if DecodesOutput(outputEncoding) then
            match GetDecoder(s.decoder, outputEncoding.value)
            case Err(e) => Err(e)
            case Ok(enc) => Ok((Some(enc), Text(codec.end(enc, out))))
          else Ok((s.decoder, Raw(out)));
        match decoded
        case Err(e) => Step(latched, Err(e), [FinalHook])
        case Ok((dec, o)) =>
          var t := latched.(decoder := dec);
          if t.kind == Decipher then
            match auth
            case Err(e) => Step(t, Err(e), [FinalHook, AuthModeQuery])
            case Ok(a) =>
              Step(if a && t.tag.Some? then t.(tag := None) else t, Ok(Data(o)), [FinalHook, AuthModeQuery])
          else Step(t, Ok(Data(o)), [FinalHook])
  }

  /** `setAutoPadding`. */
  function SetAutoPaddingStep(s: State, padding: Value, hook: Outcome): (r: Step)
    ensures r.next == s
    ensures s.finalized ==> r == Step(s, Err(StateError(AutoPaddingMsg)), [])
    ensures !s.finalized ==> r.calls == [AutoPaddingHook(padding)]
    ensures r.out.Ok? <==> !s.finalized && hook.Pass?
    ensures r.out.Ok? ==> r.out.value == Self
    ensures !s.finalized && hook.Fail? ==> r.out == Err(hook.error)
  {
    if s.finalized then Step(s, Err(StateError(AutoPaddingMsg)), [])
    else
      match hook
      case Fail(e) => Step(s, Err(e), [AutoPaddingHook(padding)])
      case Pass => Step(s, Ok(Self), [AutoPaddingHook(padding)])
  }

  /** `getAuthTag`. */
  function GetAuthTagStep(s: State): (r: Step)
    ensures r.next == s && r.calls == []
    ensures r.out.Ok? <==> s.kind == Cipher && s.tag.Some? && s.finalized
    ensures r.out.Ok? ==> r.out.value == Tag(s.tag.value)
    ensures r.out.Err? ==> r.out.error == StateError(GetTagMsg)
  {
    if s.kind != Cipher || s.tag.None? || !s.finalized then Step(s, Err(StateError(GetTagMsg)), [])
    else Step(s, Ok(Tag(s.tag.value)), [])
  }

  /** `setAuthTag`. */
  function SetAuthTagStep(s: State, tag: Value, auth: Result<bool>): (r: Step)
    ensures r.next.kind == s.kind && r.next.decoder == s.decoder && r.next.finalized == s.finalized
    ensures !tag.Buf? ==> r == Step(s, Err(TypeError(NotBufferMsg("Auth tag"))), [])
    ensures tag.Buf? ==> r.calls == [AuthModeQuery]
    ensures r.out.Ok? <==> tag.Buf? && auth == Ok(true) && s.kind == Decipher && !s.finalized
    ensures r.out.Ok? ==> r.out.value == Self && r.next.tag == Some(tag.bytes)
    ensures r.out.Err? ==> r.next == s
    ensures tag.Buf? && auth.Ok? && r.out.Err? ==> r.out.error == StateError(SetTagMsg)
    ensures tag.Buf? && auth.Err? ==> r.out == Err(auth.error)
  {
    match ThrowIfNotBuffer(tag, "Auth tag")
    case Fail(e) => Step(s, Err(e), [])
    case Pass =>
      match auth
      case Err(e) => Step(s, Err(e), [AuthModeQuery])
      case Ok(a) =>
        if !a || s.kind != Decipher || s.finalized then Step(s, Err(StateError(SetTagMsg)), [AuthModeQuery])
        else Step(s.(tag := Some(tag.bytes)), Ok(Self), [AuthModeQuery])
  }

  /** `setAAD`. */
  function SetAADStep(s: State, aad: Value, auth: Result<bool>, hook: Outcome): (r: Step)
    ensures r.next == s
    ensures !aad.Buf? ==> r == Step(s, Err(TypeError(NotBufferMsg("AAD"))), [])
    // the mode is queried first; `_setAAD` is called only when that check passes
    ensures aad.Buf? ==>
      r.calls == if auth == Ok(true) && !s.finalized then [AuthModeQuery, AADHook(aad.bytes)] else [AuthModeQuery]
    ensures r.out.Ok? <==> aad.Buf? && auth == Ok(true) && !s.finalized && hook.Pass?
    ensures r.out.Ok? ==> r.out.value == Self
    ensures aad.Buf? && auth.Ok? && (!auth.value || s.finalized) ==> r.out == Err(StateError(AADMsg))
    // hook errors are passed through untouched
    ensures aad.Buf? && auth.Err? ==> r.out == Err(auth.error)
    ensures aad.Buf? && auth == Ok(true) && !s.finalized && hook.Fail? ==> r.out == Err(hook.error)
  {
    match ThrowIfNotBuffer(aad, "AAD")
    case Fail(e) => Step(s, Err(e), [])
    case Pass =>
      match auth
      case Err(e) => Step(s, Err(e), [AuthModeQuery])
      case Ok(a) =>
        if !a || s.finalized then Step(s, Err(StateError(AADMsg)), [AuthModeQuery])
        else
          match hook
          case Fail(e) => Step(s, Err(e), [AuthModeQuery, AADHook(aad.bytes)])
          case Pass => Step(s, Ok(Self), [AuthModeQuery, AADHook(aad.bytes)])
  }

  /** One public call on an instance, with the answers its hooks give. */
  datatype Op =
    | Update(data: Value, inputEncoding: Option<string>, outputEncoding: Option<string>, hook: Result<Bytes>)
    | Final(outputEncoding: Option<string>, finalHook: Result<Bytes>, auth: Result<bool>)
    | SetAutoPadding(padding: Value, paddingHook: Outcome)
    | GetAuthTag
    | SetAuthTag(tag: Value, auth: Result<bool>)
    | SetAAD(aad: Value, auth: Result<bool>, aadHook: Outcome)

  function Apply(s: State, op: Op, codec: Codec): (r: Step)
    ensures r.next.kind == s.kind
    ensures r.next.finalized == (s.finalized || op.Final?)
  {
    match op
    case Update(data, ie, oe, h) => UpdateStep(s, data, ie, oe, h, codec)
    case Final(oe, h, a) => FinalStep(s, oe, h, a, codec)
    case SetAutoPadding(p, h) => SetAutoPaddingStep(s, p, h)
    case GetAuthTag => GetAuthTagStep(s)
    case SetAuthTag(t, a) => SetAuthTagStep(s, t, a)
    case SetAAD(d, a, h) => SetAADStep(s, d, a, h)
  }

  /** A session: the last state, one reply per call, and every hook call in order. */
  datatype Trace = Trace(last: State, replies: seq<Result<Reply>>, calls: seq<HookCall>)

  function Run(s: State, ops: seq<Op>, codec: Codec): (t: Trace)
    ensures |t.replies| == |ops|
    ensures t.last.kind == s.kind
    decreases |ops|
  {
    if ops == [] then Trace(s, [], [])
    else
      var step := Apply(s, ops[0], codec);
      var rest := Run(step.next, ops[1..], codec);
      Trace(rest.last, [step.out] + rest.replies, step.calls + rest.calls)
  }

  /** Concatenation regroups; stated once so the session proofs need not rediscover it. */
  lemma SeqAssoc<T>(x: seq<T>, y: seq<T>, z: seq<T>)
    ensures x + (y + z) == (x + y) + z
  {
  }

  /** One call, then the rest of the session. */
  lemma RunCons(s: State, ops: seq<Op>, codec: Codec)
    requires ops != []
    ensures var step := Apply(s, ops[0], codec);
            var rest := Run(step.next, ops[1..], codec);
            Run(s, ops, codec) == Trace(rest.last, [step.out] + rest.replies, step.calls + rest.calls)
  {
  }

  /** Running two sessions back to back is running their concatenation. */
  lemma {:induction false} RunAppend(s: State, a: seq<Op>, b: seq<Op>, codec: Codec)
    ensures var ta := Run(s, a, codec);
            var tb := Run(ta.last, b, codec);
            Run(s, a + b, codec) == Trace(tb.last, ta.replies + tb.replies, ta.calls + tb.calls)
    decreases |a|
  {
    if a == [] {
      assert a + b == b;
    } else {
      var step := Apply(s, a[0], codec);
      assert (a + b)[0] == a[0];
      assert (a + b)[1..] == a[1..] + b;
      RunCons(s, a, codec);
      RunCons(s, a + b, codec);
      RunAppend(step.next, a[1..], b, codec);
      var rest := Run(step.next, a[1..], codec);
      var tb := Run(rest.last, b, codec);
      SeqAssoc([step.out], rest.replies, tb.replies);
      SeqAssoc(step.calls, rest.calls, tb.calls);
    }
  }

  /**
   * Once finalized, an instance is inert: no call changes its state, every call
   * but getAuthTag fails, and the backend is only asked whether it is in
   * authenticated mode.
   */
  lemma {:induction false} InertAfterFinal(s: State, ops: seq<Op>, codec: Codec)
    requires s.finalized
    ensures var t := Run(s, ops, codec);
            t.last == s &&
            (forall i :: 0 <= i < |ops| && !ops[i].GetAuthTag? ==> t.replies[i].Err?) &&
            (forall i :: 0 <= i < |t.calls| ==> t.calls[i] == AuthModeQuery)
    decreases |ops|
  {
    if ops != [] {
      var step := Apply(s, ops[0], codec);
      assert step.next == s;
      assert forall i :: 0 <= i < |step.calls| ==> step.calls[i] == AuthModeQuery;
      InertAfterFinal(s, ops[1..], codec);
      var t := Run(s, ops, codec);
      forall i | 0 <= i < |ops| && !ops[i].GetAuthTag?
        ensures t.replies[i].Err?
      {
        if i > 0 { assert ops[i] == ops[1..][i - 1]; }
      }
    }
  }

  /** The latch: after any call to final, in any session, the instance is finalized for good. */
  lemma {:induction false} FinalizedAfterFinal(s: State, ops: seq<Op>, codec: Codec, i: nat)
    requires i < |ops| && ops[i].Final?
    ensures Run(s, ops[..i + 1], codec).last.finalized
    ensures Run(s, ops, codec).last.finalized
  {
    var pre := ops[..i];
    assert ops[..i + 1] == pre + [ops[i]];
    RunAppend(s, pre, [ops[i]], codec);
    var mid := Run(s, ops[..i + 1], codec).last;
    assert ops == ops[..i + 1] + ops[i + 1..];
    RunAppend(s, ops[..i + 1], ops[i + 1..], codec);
    InertAfterFinal(mid, ops[i + 1..], codec);
  }

  /**
   * Post-final lockout: after a call to final, whether it succeeded or not,
   * every later update, final, setAutoPadding, setAuthTag and setAAD fails.
   */
  lemma {:induction false} NothingSucceedsAfterFinal(s: State, ops: seq<Op>, codec: Codec, i: nat, j: nat)
    requires i < j < |ops| && ops[i].Final? && !ops[j].GetAuthTag?
    ensures Run(s, ops, codec).replies[j].Err?
  {
    FinalizedAfterFinal(s, ops, codec, i);
    var pre, post := ops[..i + 1], ops[i + 1..];
    assert ops == pre + post;
    RunAppend(s, pre, post, codec);
    var ta := Run(s, pre, codec);
    var tb := Run(ta.last, post, codec);
    InertAfterFinal(ta.last, post, codec);
    var k := j - (i + 1);
    assert post[k] == ops[j];
    assert tb.replies[k].Err?;
    assert Run(s, ops, codec).replies == ta.replies + tb.replies;
    assert (ta.replies + tb.replies)[j] == tb.replies[k];
  }

  function CountFinalHooks(calls: seq<HookCall>): (n: nat)
    ensures n <= |calls|
  {
    if calls == [] then 0
    else (if calls[0] == FinalHook then 1 else 0) + CountFinalHooks(calls[1..])
  }

  lemma {:induction false} CountFinalHooksAppend(a: seq<HookCall>, b: seq<HookCall>)
    ensures CountFinalHooks(a + b) == CountFinalHooks(a) + CountFinalHooks(b)
    decreases |a|
  {
    if a != [] {
      assert (a + b)[0] == a[0];
      assert (a + b)[1..] == a[1..] + b;
      assert CountFinalHooks(a + b) == (if a[0] == FinalHook then 1 else 0) + CountFinalHooks(a[1..] + b);
      CountFinalHooksAppend(a[1..], b);
    } else {
      assert a + b == b;
    }
  }

  /** A single call runs `_final` only if it is the first call to final. */
  lemma StepFinalHooks(s: State, op: Op, codec: Codec)
    ensures CountFinalHooks(Apply(s, op, codec).calls) <= if op.Final? && !s.finalized then 1 else 0
  {
  }

  /** The backend's `_final` is called at most once per instance, and never after finalization. */
  lemma {:induction false} FinalHookAtMostOnce(s: State, ops: seq<Op>, codec: Codec)
    ensures CountFinalHooks(Run(s, ops, codec).calls) <= if s.finalized then 0 else 1
    decreases |ops|
  {
    if ops != [] {
      var step := Apply(s, ops[0], codec);
      FinalHookAtMostOnce(step.next, ops[1..], codec);
      CountFinalHooksAppend(step.calls, Run(step.next, ops[1..], codec).calls);
      StepFinalHooks(s, ops[0], codec);
    }
  }

  /** The encoding a call asks its output to be decoded with, if any. */
  function RequestedEncoding(op: Op): Option<string> {
    match op
    case Update(_, _, oe, _) => if DecodesOutput(oe) then oe else None
    case Final(oe, _, _) => if DecodesOutput(oe) then oe else None
    case _ => None
  }

  /**
   * An update or final that an unfinalized instance of `kind`, with its decoder
   * bound to `enc`, carries out: valid data, hooks that answer, and raw output
   * or text in `enc`.
   */
  predicate Serviceable(op: Op, kind: Kind, enc: string) {
    match op
    case Update(data, _, _, hook) => IsStringOrBuffer(data) && hook.Ok? && (RequestedEncoding(op) in {None, Some(enc)})
    case Final(_, hook, auth) => hook.Ok? && (RequestedEncoding(op) in {None, Some(enc)}) && (kind == Decipher ==> auth.Ok?)
    case _ => false
  }

  /**
   * Encoding stability: once the decoder is bound to `enc`, it stays bound to
   * `enc`, every later update or final asking for another encoding fails, and,
   * until the first final, every update or final asking for raw output or for
   * `enc` on valid data, with hooks that answer, succeeds.
   */
  lemma {:induction false} DecoderNeverRebinds(s: State, ops: seq<Op>, codec: Codec, enc: string)
    requires s.decoder == Some(enc)
    ensures var t := Run(s, ops, codec);
            t.last.decoder == Some(enc) &&
            (forall i :: (0 <= i < |ops| && RequestedEncoding(ops[i]).Some? &&
                          RequestedEncoding(ops[i]).value != enc) ==> t.replies[i].Err?) &&
            (forall i :: (0 <= i < |ops| && !s.finalized && (forall j :: 0 <= j < i ==> !ops[j].Final?) &&
                          Serviceable(ops[i], s.kind, enc)) ==> t.replies[i].Ok?)
    decreases |ops|
  {
    if ops != [] {
      var step := Apply(s, ops[0], codec);
      DecoderNeverRebinds(step.next, ops[1..], codec, enc);
      var t := Run(s, ops, codec);
      var rest := Run(step.next, ops[1..], codec);
      forall i | 0 <= i < |ops| && RequestedEncoding(ops[i]).Some? && RequestedEncoding(ops[i]).value != enc
        ensures t.replies[i].Err?
      {
        if i > 0 { assert ops[i] == ops[1..][i - 1]; }
      }
      forall i | 0 <= i < |ops| && !s.finalized && (forall j :: 0 <= j < i ==> !ops[j].Final?) &&
                 Serviceable(ops[i], s.kind, enc)
        ensures t.replies[i].Ok?
      {
        if i > 0 {
          assert !ops[0].Final?;
          assert ops[i] == ops[1..][i - 1];
          assert forall j :: 0 <= j < i - 1 ==> ops[1..][j] == ops[j + 1];
          assert t.replies[i] == rest.replies[i - 1];
        }
      }
    }
  }
}
