/**
 * Client code: the situations exercised by test/index.js, written against the
 * contracts of `CipherBase` alone, so that each assertion shows what a caller
 * can rely on. `Ok([])` stands for a hook that returns nothing.
 */
module Scenarios {
  import opened Types
  import opened Adapter

  /** test/index.js:170-183: a second final fails, with a message that depends on the mode. */
  method SecondFinalFails(codec: Codec) {
    var c := new CipherBase(true, codec);
    var first := c.Final(None, Ok([]), Ok(true));
    assert first == Ok(Raw([]));
    var second := c.Final(None, Ok([]), Ok(true));
    assert second == Err(StateError(AuthFailedMsg));
    var third := c.Final(None, Ok([]), Ok(false));
    assert third == Err(StateError(UnsupportedMsg));
    assert c.finalized;
  }

  /** test/index.js:98-105, 246-253, 393-400: after final, update, setAutoPadding and setAAD fail. */
  method LockedOutAfterFinal(codec: Codec) {
    var c := new CipherBase(true, codec);
    var _ := c.Final(None, Ok([]), Ok(true));
    var u := c.Update(Buf([]), None, None, Ok([1]));
    assert u == Err(StateError(AddDataMsg));
    var p := c.SetAutoPadding(Undefined, Pass);
    assert p.Err? && p.error == StateError(AutoPaddingMsg);
    var a := c.SetAAD(Buf([]), Ok(true), Pass);
    assert a.Err? && a.error == StateError(AADMsg);
  }

  /** test/index.js:142-149 and 206-214: the first output encoding is the only one allowed. */
  method EncodingCannotChange(codec: Codec) {
    var c := new CipherBase(true, codec);
    var first := c.Update(Buf([]), None, Some("utf8"), Ok([]));
    assert first.Ok? && c.decoder == Some("utf8");
    var raw := c.Update(Buf([7]), None, Some("buffer"), Ok([9]));
    assert raw == Ok(Raw([9]));
    var second := c.Update(Buf([]), None, Some("hex"), Ok([]));
    assert second == Err(StateError(ChangeEncodingMsg));
    var last := c.Final(Some("hex"), Ok([]), Ok(false));
    assert last == Err(StateError(ChangeEncodingMsg));
    assert c.decoder == Some("utf8") && c.finalized;
  }

  /** test/index.js:216-225: final on an authenticated DECIPHER zero-fills and drops the tag. */
  method TagIsDestroyed(codec: Codec) {
    var d := new CipherBase(false, codec);
    var tagbuf := new Byte[1];
    tagbuf[0] := 0x42;
    d.authTag := tagbuf;
    var r := d.Final(None, Ok([]), Ok(true));
    assert r == Ok(Raw([]));
    assert tagbuf[0] == 0 && d.authTag == null;
  }

  /** test/index.js:285-322: only a finalized CIPHER holding a tag hands out a copy of it. */
  method AuthTagOnlyFromFinalizedCipher(codec: Codec) {
    var d := new CipherBase(false, codec);
    var refused := d.GetAuthTag();
    assert refused.Err? && refused.error == StateError(GetTagMsg);
    var c := new CipherBase(true, codec);
    var tagbuf := new Byte[2];
    tagbuf[0], tagbuf[1] := 0x0a, 0x0b;
    c.authTag := tagbuf;
    var early := c.GetAuthTag();
    assert early.Err?;
    c.finalized := true;
    var got := c.GetAuthTag();
    assert got.Ok? && got.value != tagbuf && got.value[..] == [0x0a, 0x0b];
  }

  /** test/index.js:338-378: setAuthTag wants a buffer, authenticated mode, a DECIPHER, no final yet. */
  method SetAuthTagRules(codec: Codec) {
    var d := new CipherBase(false, codec);
    var notBuffer := d.SetAuthTag(Null, Ok(true));
    assert notBuffer.Err? && notBuffer.error == TypeError(Checks.NotBufferMsg("Auth tag"));
    var notAuth := d.SetAuthTag(Buf([]), Ok(false));
    assert notAuth.Err? && notAuth.error == StateError(SetTagMsg);
    var c := new CipherBase(true, codec);
    var onCipher := c.SetAuthTag(Buf([]), Ok(true));
    assert onCipher.Err?;
    var ok := d.SetAuthTag(Buf([1, 2]), Ok(true));
    assert ok.Ok? && ok.value == d && d.authTag != null && d.authTag[..] == [1, 2];
  }

  /** A DECIPHER not in authenticated mode refuses AAD. */
  method AADNeedsAuthenticatedMode(codec: Codec) {
    var d := new CipherBase(false, codec);
    var r := d.SetAAD(Buf([1]), Ok(false), Pass);
    assert r.Err? && r.error == StateError(AADMsg);
    assert d.calls == [AuthModeQuery];
  }

  /** The stream bridge: errors reach the callback, and only `_flush` pushes. */
  method StreamBridge(codec: Codec) {
    var c := new CipherBase(true, codec);
    var cb1 := c.Transform(Buf([1]), None, Ok([2]));
    assert cb1 == None && c.pushed == [];
    var cb2 := c.Transform(Null, None, Ok([2]));
    assert cb2 == Some(TypeError(Checks.NotStringOrBufferMsg("Cipher data")));
    var cb3 := c.Flush(Ok([3]), Ok(false));
    assert cb3 == None && c.pushed == [[3]];
    var cb4 := c.Flush(Ok([4]), Ok(false));
    assert cb4 == Some(StateError(UnsupportedMsg)) && c.pushed == [[3]];
  }
}
