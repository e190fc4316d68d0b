/** Encrypted primary keys in URLs: percent-encoding around an abstract cipher. */
module PrimaryKeys {
  import opened Prelude

  predicate IsAlnum(c: char) {
    'A' <= c <= 'Z' || 'a' <= c <= 'z' || '0' <= c <= '9'
  }

  /** The alphabet of base64, section 4 of RFC 4648, with its padding. */
  predicate IsBase64(s: string) {
    forall i | 0 <= i < |s| :: IsAlnum(s[i]) || s[i] in "+/="
  }

  type Base64 = s: string | IsBase64(s)

  /** Random salting makes every encryption different: the salt is an argument here.
      Decryption fails on text that was not encrypted with the key. */
  datatype Cipher = Cipher(encrypt: (string, string, nat) -> Base64, decrypt: (string, string) -> Option<string>)

  /** What is taken for granted of the cipher: decryption undoes encryption. */
  ghost predicate Sound(c: Cipher) {
    forall v, key, salt :: c.decrypt(c.encrypt(v, key, salt), key) == Some(v)
  }

  // ---- Percent-encoding, section 2.1 of RFC 3986 ----

  predicate IsAscii(s: string) {
    forall i | 0 <= i < |s| :: s[i] < 128 as char
  }

  predicate IsUnescaped(c: char) {
    IsAlnum(c) || c in "-_.!~*'()"
  }

  function HexDigit(d: nat): char
    requires d < 16
  {
    if d < 10 then ('0' as int + d) as char else ('A' as int + d - 10) as char
  }

  function HexValue(c: char): Option<nat> {
    if '0' <= c <= '9' then Some(c as nat - '0' as nat)
    else if 'A' <= c <= 'F' then Some(c as nat - 'A' as nat + 10)
    else if 'a' <= c <= 'f' then Some(c as nat - 'a' as nat + 10)
    else None
  }

  function Escape(c: char): string
    requires c < 128 as char
  {
    if IsUnescaped(c) then [c] else ['%', HexDigit(c as nat / 16), HexDigit(c as nat % 16)]
  }

  function EncodeUriComponent(s: string): string
    requires IsAscii(s)
  {
    if s == "" then "" else Escape(s[0]) + EncodeUriComponent(s[1..])
  }

  /** Stray percent signs are an error; so, here, are escaped bytes from 128 up. */
  function DecodeUriComponent(s: string): Option<string> {
    if s == "" then Some("")
    else if s[0] != '%' then
      var rest := DecodeUriComponent(s[1..]);
      if rest.None? then None else Some([s[0]] + rest.value)
    else if |s| < 3 || HexValue(s[1]).None? || HexValue(s[2]).None? || HexValue(s[1]).value >= 8 then None
    else
      var rest := DecodeUriComponent(s[3..]);
      if rest.None? then None
      else Some([(16 * HexValue(s[1]).value + HexValue(s[2]).value) as char] + rest.value)
  }

  lemma {:induction false} DecodeUndoesEncode(s: string)
    requires IsAscii(s)
    ensures DecodeUriComponent(EncodeUriComponent(s)) == Some(s)
  {
    if s != "" {
      var c, rest := s[0], EncodeUriComponent(s[1..]);
      DecodeUndoesEncode(s[1..]);
      if IsUnescaped(c) {
        assert ([c] + rest)[1..] == rest && s == [c] + s[1..];
      } else {
        var e := Escape(c);
        assert (e + rest)[3..] == rest && s == [c] + s[1..];
        assert HexValue(e[1]) == Some(c as nat / 16) && HexValue(e[2]) == Some(c as nat % 16);
        assert 16 * (c as nat / 16) + c as nat % 16 == c as nat;
      }
    }
  }

  /** Decoding never lengthens, and shortens wherever it meets an escape. */
  lemma {:induction false} DecodeShortens(s: string)
    ensures var d := DecodeUriComponent(s);
            d.Some? ==> |d.value| <= |s| && ('%' in s ==> |d.value| < |s|)
  {
    if s != "" {
      DecodeShortens(s[if s[0] == '%' && |s| >= 3 then 3 else 1..]);
    }
  }

  lemma {:induction false} DecodeKeepsPlain(s: string)
    requires '%' !in s
    ensures DecodeUriComponent(s) == Some(s)
  {
    if s != "" {
      DecodeKeepsPlain(s[1..]);
      assert s == [s[0]] + s[1..];
    }
  }

  /** Text survives decoding unchanged exactly when it has no percent sign; only such
      text may safely be decoded once too often. */
  lemma DecodeIsIdentityIff(s: string)
    ensures DecodeUriComponent(s) == Some(s) <==> '%' !in s
  {
    if '%' in s { DecodeShortens(s); } else { DecodeKeepsPlain(s); }
  }

  /** What encoding lets into a URL: unreserved marks, letters, digits and escapes. */
  lemma {:induction false} EncodedIsUrlSafe(s: string)
    requires IsAscii(s)
    ensures forall i | 0 <= i < |EncodeUriComponent(s)| ::
              IsUnescaped(EncodeUriComponent(s)[i]) || EncodeUriComponent(s)[i] == '%'
  {
    if s != "" {
      EncodedIsUrlSafe(s[1..]);
      assert forall i | 0 <= i < |Escape(s[0])| :: IsUnescaped(Escape(s[0])[i]) || Escape(s[0])[i] == '%';
    }
  }

  /** Letters and digits stay, the other three characters of base64 become escapes; and an
      escape may be written in either letter case. */
  lemma EscapesOfBase64(c: char)
    ensures IsAlnum(c) ==> Escape(c) == [c]
    ensures Escape('+') == "%2B" && Escape('/') == "%2F" && Escape('=') == "%3D"
    ensures DecodeUriComponent("%2b") == DecodeUriComponent("%2B") == Some("+")
    ensures 'a' <= c <= 'f' ==> HexValue(c) == HexValue((c as int - 'a' as int + 'A' as int) as char)
  {
    var lower, upper := "%2b", "%2B";
    assert lower[3..] == upper[3..] == "" && DecodeUriComponent("") == Some("");
    assert HexValue('2') == Some(2) && HexValue('b') == HexValue('B') == Some(11) && (16 * 2 + 11) as char == '+';
    assert ['+'] + "" == "+";
  }

  lemma Base64IsPlainAscii(s: string)
    requires IsBase64(s)
    ensures IsAscii(s) && '%' !in s
  {
  }

  // ---- Primary keys ----

  function EncryptPrimaryKey(c: Cipher, value: string, key: string, salt: nat): string {
    EncodeUriComponent(c.encrypt(value, key, salt))
  }

  function DecryptPrimaryKey(c: Cipher, value: string, key: string): Option<string> {
    var text := DecodeUriComponent(value);
    if text.None? then None else c.decrypt(text.value, key)
  }

  datatype PipeError = InvalidEncryptedParameter

  /** The pipe on encrypted path parameters. */
  function Transform(c: Cipher, value: string, key: string): Result<string, PipeError> {
    var decrypted := DecryptPrimaryKey(c, value, key);
    if decrypted.None? || decrypted.value == "" then Err(InvalidEncryptedParameter) else Ok(decrypted.value)
  }

  /** As often as a router or a proxy decodes the path before the pipe does. */
  function DecodedTimes(s: string, times: nat): Option<string> {
    if times == 0 then Some(s)
    else
      var once := DecodedTimes(s, times - 1);
      if once.None? then None else DecodeUriComponent(once.value)
  }

  lemma {:induction false} DecodedAgainAndAgain(c: Cipher, value: string, key: string, salt: nat, times: nat)
    requires Sound(c)
    ensures DecodedTimes(EncryptPrimaryKey(c, value, key, salt), times)
         == Some(if times == 0 then EncryptPrimaryKey(c, value, key, salt) else c.encrypt(value, key, salt))
  {
    if times > 0 {
      var text := c.encrypt(value, key, salt);
      Base64IsPlainAscii(text);
      DecodedAgainAndAgain(c, value, key, salt, times - 1);
      DecodeUndoesEncode(text);
      DecodeKeepsPlain(text);
    }
  }

  /** The round trip: however often the encrypted key is percent-decoded on its way
      back, decrypting it gives the value. */
  lemma PrimaryKeyRoundTrip(c: Cipher, value: string, key: string, salt: nat, times: nat)
    requires Sound(c)
    ensures var arrived := DecodedTimes(EncryptPrimaryKey(c, value, key, salt), times);
            arrived.Some? && DecryptPrimaryKey(c, arrived.value, key) == Some(value)
  {
    var text := c.encrypt(value, key, salt);
    DecodedAgainAndAgain(c, value, key, salt, times);
    Base64IsPlainAscii(text);
    DecodeUndoesEncode(text);
    DecodeKeepsPlain(text);
  }

  /** The pipe recovers every value but the empty one, which it refuses. */
  lemma PipeRecoversIff(c: Cipher, value: string, key: string, salt: nat, times: nat)
    requires Sound(c)
    ensures var arrived := DecodedTimes(EncryptPrimaryKey(c, value, key, salt), times);
            arrived.Some? && (Transform(c, arrived.value, key) == Ok(value) <==> value != "")
  {
    PrimaryKeyRoundTrip(c, value, key, salt, times);
  }

  /** Different values never share an encrypted key, whatever the salts. */
  lemma EncryptedKeysAreDistinct(c: Cipher, v: string, w: string, key: string, salt: nat, salt': nat)
    requires Sound(c) && EncryptPrimaryKey(c, v, key, salt) == EncryptPrimaryKey(c, w, key, salt')
    ensures v == w
  {
    PrimaryKeyRoundTrip(c, v, key, salt, 0);
    PrimaryKeyRoundTrip(c, w, key, salt', 0);
  }

  /** An encrypted key is one segment of a path: it has no character that would end the
      segment, the path or the URL. */
  lemma EncryptedKeyIsOneSegment(c: Cipher, value: string, key: string, salt: nat)
    ensures var k := EncryptPrimaryKey(c, value, key, salt);
            '/' !in k && '?' !in k && '#' !in k && '&' !in k && ' ' !in k
  {
    Base64IsPlainAscii(c.encrypt(value, key, salt));
    EncodedIsUrlSafe(c.encrypt(value, key, salt));
  }
}
