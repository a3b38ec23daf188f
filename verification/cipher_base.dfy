/**
 * The CipherBase object: the four instance fields, updated in place by the
 * public operations, and the stream hooks built on them. Each method is proved
 * to move the instance exactly as the matching step of `Machine` does, to make
 * the same hook calls, and to return the same reply; the properties of those
 * steps are proved in `Machine` and `Stream`.
 */
module Adapter {
  import opened Types
  import opened Checks
  import Machine
  import Stream

  /** A chaining reply (`return this`) seen as a general reply. */
  function Chained<C>(r: Result<C>): (q: Result<Reply>)
    ensures q.Ok? <==> r.Ok?
    ensures q.Ok? ==> q.value == Self
    ensures r.Err? ==> q == Err(r.error)
  {
    if r.Ok? then Ok(Self) else Err(r.error)
  }

  class CipherBase {
    const kind: Kind
    /** The runtime's text services this instance converts strings and output with. */
    const codec: Codec
    var authTag: array?<Byte>
    /** The bound string decoder, represented by its encoding. */
    var decoder: Option<string>
    var finalized: bool
    /** Every call made into the backend hooks, in order. */
    ghost var calls: seq<HookCall>
    /** Everything pushed to the readable side of the stream. */
    ghost var pushed: seq<Bytes>

    ghost function View(): Machine.State
      reads this, authTag
    {
      Machine.State(kind, if authTag == null then None else Some(authTag[..]), decoder, finalized)
    }

    constructor (cipher: bool, codec: Codec)
      ensures View() == Machine.Initial(cipher) && authTag == null
      ensures this.codec == codec && calls == [] && pushed == []
    {
      kind := if cipher then Cipher else Decipher;
      this.codec := codec;
      authTag := null;
      decoder := None;
      finalized := false;
      calls := [];
      pushed := [];
    }

    /** `_transform`: update on the chunk; the callback gets null or the error caught. */
    method Transform(chunk: Value, encoding: Option<string>, hook: Result<Bytes>)
      returns (callback: Option<Error>)
      modifies this
      ensures var c := Stream.Chunk(chunk, encoding, hook);
              var b := Stream.TransformAsWritten(old(View()), c, codec);
              View() == b.next && callback == b.callback && pushed == old(pushed) + b.pushed &&
              calls == old(calls) + Machine.Apply(old(View()), Stream.AsUpdate(c), codec).calls
      ensures authTag == old(authTag)
    {
      var r := Update(chunk, encoding, None, hook);
      callback := if r.Err? then Some(r.error) else None;
    }

    /** `_flush`: final's result is pushed when it succeeds; the callback gets null or the error. */
    method Flush(hook: Result<Bytes>, auth: Result<bool>) returns (callback: Option<Error>)
      modifies this, authTag
      ensures var b := Stream.Flush(old(View()), hook, auth, codec);
              View() == b.next && callback == b.callback && pushed == old(pushed) + b.pushed &&
              calls == old(calls) + Machine.FinalStep(old(View()), None, hook, auth, codec).calls
      ensures old(authTag) != null && authTag == null ==>
        forall i :: 0 <= i < old(authTag).Length ==> old(authTag)[i] == 0
      ensures authTag != null ==> authTag == old(authTag) && authTag[..] == old(authTag[..])
    {
      var r := Final(None, hook, auth);
      if r.Ok? {
        pushed := pushed + [r.value.bytes];
        callback := None;
      } else {
        callback := Some(r.error);
      }
    }

    /** `update`; `hook` is what `_update` answers. */
    method Update(data: Value, inputEncoding: Option<string>, outputEncoding: Option<string>,
                  hook: Result<Bytes>) returns (r: Result<Output>)
      modifies this
      ensures var step := Machine.UpdateStep(old(View()), data, inputEncoding, outputEncoding, hook, codec);
              View() == step.next && AsReply(r) == step.out && calls == old(calls) + step.calls
      ensures authTag == old(authTag) && pushed == old(pushed)
    {
      var check := ThrowIfNotStringOrBuffer(data, "Cipher data");
      if check.Fail? {
        return Err(check.error);
      }
      if finalized {
        return Err(StateError(AddDataMsg));
      }
      var input := if data.Buf? then data.bytes else codec.fromString(data.text, inputEncoding);
      calls := calls + [UpdateHook(input)];
      if hook.Err? {
        return Err(hook.error);
      }
      if DecodesOutput(outputEncoding) {
        var d := GetDecoder(decoder, outputEncoding.value);
        if d.Err? {
          return Err(d.error);
        }
        decoder := Some(d.value);
        return Ok(Text(codec.write(d.value, hook.value)));
      }
      return Ok(Raw(hook.value));
    }

    /** `final`; `hook` is what `_final` answers, `auth` what `_isAuthenticatedMode` answers. */
    method Final(outputEncoding: Option<string>, hook: Result<Bytes>, auth: Result<bool>)
      returns (r: Result<Output>)
      modifies this, authTag
      ensures var step := Machine.FinalStep(old(View()), outputEncoding, hook, auth, codec);
              View() == step.next && AsReply(r) == step.out && calls == old(calls) + step.calls
      ensures pushed == old(pushed)
      // the tag buffer is overwritten with zeros, in place, before it is released
      ensures old(authTag) != null && authTag == null ==>
        forall i :: 0 <= i < old(authTag).Length ==> old(authTag)[i] == 0
      // otherwise it is left untouched
      ensures authTag != null ==> authTag == old(authTag) && authTag[..] == old(authTag[..])
    {
      if finalized {
        calls := calls + [AuthModeQuery];
        if auth.Err? {
          return Err(auth.error);
        }
        var msg := if auth.value then AuthFailedMsg else UnsupportedMsg;
        return Err(StateError(msg));
      }
      finalized := true;

      calls := calls + [FinalHook];
      if hook.Err? {
        return Err(hook.error);
      }
      var data := Raw(hook.value);
      if DecodesOutput(outputEncoding) {
        var d := GetDecoder(decoder, outputEncoding.value);
        if d.Err? {
          return Err(d.error);
        }
        decoder := Some(d.value);
        data := Text(codec.end(d.value, hook.value));
      }

      if kind == Decipher {
        calls := calls + [AuthModeQuery];
        if auth.Err? {
          return Err(auth.error);
        }
        if auth.value && authTag != null {
          forall i | 0 <= i < authTag.Length {
            authTag[i] := 0;
          }
          authTag := null;
        }
      }
      return Ok(data);
    }

    /** `setAutoPadding`; `hook` is what `_setAutoPadding` does. */
    method SetAutoPadding(padding: Value, hook: Outcome) returns (r: Result<CipherBase>)
      modifies this
      ensures var step := Machine.SetAutoPaddingStep(old(View()), padding, hook);
              View() == step.next && Chained(r) == step.out && calls == old(calls) + step.calls
      ensures r.Ok? ==> r.value == this
      ensures authTag == old(authTag) && pushed == old(pushed)
    {
      if finalized {
        return Err(StateError(AutoPaddingMsg));
      }
      calls := calls + [AutoPaddingHook(padding)];
      if hook.Fail? {
        return Err(hook.error);
      }
      return Ok(this);
    }

    /** `getAuthTag`: a fresh copy of the tag. */
    method GetAuthTag() returns (r: Result<array<Byte>>)
      ensures r.Ok? <==> kind == Cipher && authTag != null && finalized
      ensures r.Ok? ==> fresh(r.value) && r.value[..] == authTag[..] &&
                        Machine.GetAuthTagStep(View()).out == Ok(Tag(r.value[..]))
      ensures r.Err? ==> Machine.GetAuthTagStep(View()).out == Err(r.error)
    {
      if kind != Cipher || authTag == null || !finalized {
        return Err(StateError(GetTagMsg));
      }
      var copy := new Byte[authTag.Length];
      forall i | 0 <= i < authTag.Length {
        copy[i] := authTag[i];
      }
      return Ok(copy);
    }

    /** `setAuthTag`: stores a fresh copy of the buffer. */
    method SetAuthTag(tag: Value, auth: Result<bool>) returns (r: Result<CipherBase>)
      modifies this
      ensures var step := Machine.SetAuthTagStep(old(View()), tag, auth);
              View() == step.next && Chained(r) == step.out && calls == old(calls) + step.calls
      ensures r.Ok? ==> r.value == this && fresh(authTag)
      ensures r.Err? ==> authTag == old(authTag)
      ensures pushed == old(pushed)
    {
      var check := ThrowIfNotBuffer(tag, "Auth tag");
      if check.Fail? {
        return Err(check.error);
      }
      calls := calls + [AuthModeQuery];
      if auth.Err? {
        return Err(auth.error);
      }
      if !auth.value || kind != Decipher || finalized {
        return Err(StateError(SetTagMsg));
      }
      var bytes := tag.bytes;
      var copy := new Byte[|bytes|];
      forall i | 0 <= i < |bytes| {
        copy[i] := bytes[i];
      }
      assert copy[..] == bytes;
      authTag := copy;
      return Ok(this);
    }

    /** `setAAD`; `hook` is what `_setAAD` does. */
    method SetAAD(aad: Value, auth: Result<bool>, hook: Outcome) returns (r: Result<CipherBase>)
      modifies this
      ensures var step := Machine.SetAADStep(old(View()), aad, auth, hook);
              View() == step.next && Chained(r) == step.out && calls == old(calls) + step.calls
      ensures r.Ok? ==> r.value == this
      ensures authTag == old(authTag) && pushed == old(pushed)
    {
      var check := ThrowIfNotBuffer(aad, "AAD");
      if check.Fail? {
        return Err(check.error);
      }
      calls := calls + [AuthModeQuery];
      if auth.Err? {
        return Err(auth.error);
      }
      if !auth.value || finalized {
        return Err(StateError(AADMsg));
      }
      calls := calls + [AADHook(aad.bytes)];
      if hook.Fail? {
        return Err(hook.error);
      }
      return Ok(this);
    }
  }
}
