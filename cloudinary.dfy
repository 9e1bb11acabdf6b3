/** The request signature for a profile-photo upload: the signed parameters in
    alphabetical order, the string to sign, and the lower-case hex encoding of the
    SHA-1 digest. The digest itself comes from the browser's crypto API and is an input. */
module Cloudinary {
  import opened JsText

  newtype byte = b: int | 0 <= b < 256

  const UploadFolder: string := "profile_photos"

  /** `Math.round(nowMs / 1000)`: the current time in whole seconds, halves rounded up. */
  function UploadTimestamp(nowMs: nat): (seconds: nat)
    ensures seconds * 1000 <= nowMs + 500 < seconds * 1000 + 1000
  {
    (nowMs + 500) / 1000
  }

  /** One signed parameter, `key=value`. */
  function Field(key: string, value: string): string {
    key + "=" + value
  }

  /** `paramsToSign`: `folder=profile_photos&timestamp=<seconds>`, keys in alphabetical order. */
  function ParamsToSign(timestamp: nat): string {
    Field("folder", UploadFolder) + "&" + Field("timestamp", NatToRadix(timestamp, 10))
  }

  /** `stringToSign`: the signed parameters immediately followed by the API secret. */
  function StringToSign(timestamp: nat, apiSecret: string): (r: string)
    ensures ParamsToSign(timestamp) <= r
    ensures r[|ParamsToSign(timestamp)|..] == apiSecret
  {
    ParamsToSign(timestamp) + apiSecret
  }

  /** Reading the signed parameters back: two fields separated by '&', each splitting
      into its key and value, with the keys in alphabetical order. */
  lemma ParamsToSignReadsBack(timestamp: nat)
    ensures Split(ParamsToSign(timestamp), '&') == [Field("folder", UploadFolder), Field("timestamp", NatToRadix(timestamp, 10))]
    ensures Split(Field("folder", UploadFolder), '=') == ["folder", UploadFolder]
    ensures Split(Field("timestamp", NatToRadix(timestamp, 10)), '=') == ["timestamp", NatToRadix(timestamp, 10)]
    ensures "folder"[0] < "timestamp"[0]
  {
    ParamsToSignFields(timestamp);
    FolderFieldSplits();
    KeyValueField("timestamp", NatToRadix(timestamp, 10));
  }

  /** The value read back from the timestamp field parses to the timestamp signed. */
  lemma TimestampReadsBack(timestamp: nat)
    ensures var parts := Split(Field("timestamp", NatToRadix(timestamp, 10)), '=');
            |parts| == 2 && ParseInt(parts[1], false) == Some(timestamp as int)
  {
    DecimalHasNoSeparators(timestamp);
    KeyValueField("timestamp", NatToRadix(timestamp, 10));
    ParseIntOfDecimal(timestamp, false);
  }

  lemma FolderFieldSplits()
    ensures Split(Field("folder", UploadFolder), '=') == ["folder", UploadFolder]
  {
    KeyValueField("folder", UploadFolder);
  }

  /** A `key=value` field splits at its one '=' into the key and the value. */
  lemma KeyValueField(key: string, value: string)
    requires '=' !in key && '=' !in value
    ensures Split(Field(key, value), '=') == [key, value]
  {
    assert key + "=" + value == key + ['='] + value;
    SplitAtFirst(key, '=', value);
    SplitWithoutSeparator(value, '=');
  }

  lemma DecimalHasNoSeparators(n: nat)
    ensures '&' !in NatToRadix(n, 10) && '=' !in NatToRadix(n, 10)
  {
    var digits := NatToRadix(n, 10);
    forall i | 0 <= i < |digits| ensures digits[i] != '&' && digits[i] != '=' {
      assert DigitValue(digits[i], 10) >= 0;
    }
  }

  lemma ParamsToSignFields(timestamp: nat)
    ensures Split(ParamsToSign(timestamp), '&') == [Field("folder", UploadFolder), Field("timestamp", NatToRadix(timestamp, 10))]
    ensures '=' !in NatToRadix(timestamp, 10)
  {
    var digits := NatToRadix(timestamp, 10);
    DecimalHasNoSeparators(timestamp);
    var first := Field("folder", UploadFolder);
    var second := Field("timestamp", digits);
    assert ParamsToSign(timestamp) == first + ['&'] + second;
    SplitAtFirst(first, '&', second);
    SplitWithoutSeparator(second, '&');
  }

  /** Two signatures over the same timestamp sign different strings for different secrets. */
  lemma StringToSignDeterminesSecret(timestamp: nat, secret1: string, secret2: string)
    requires StringToSign(timestamp, secret1) == StringToSign(timestamp, secret2)
    ensures secret1 == secret2
  {
    var n := |ParamsToSign(timestamp)|;
    assert secret1 == StringToSign(timestamp, secret1)[n..];
  }

  predicate IsLowerHexDigit(c: char) {
    '0' <= c <= '9' || 'a' <= c <= 'f'
  }

  /** The two lower-case hex digits of a byte, high nibble first. */
  function ByteHex(b: byte): (hex: string)
    ensures |hex| == 2 && IsLowerHexDigit(hex[0]) && IsLowerHexDigit(hex[1])
  {
    [DigitChar(b as nat / 16), DigitChar(b as nat % 16)]
  }

  /** The nibble form is exactly `b.toString(16).padStart(2, '0')`. */
  lemma ByteHexIsPaddedToString(b: byte)
    ensures ByteHex(b) == PadStart(NatToRadix(b as nat, 16), 2, '0')
  {
    var n := b as nat;
    var digits := NatToRadix(n, 16);
    if n >= 16 {
      assert digits == NatToRadix(n / 16, 16) + [DigitChar(n % 16)];
      assert NatToRadix(n / 16, 16) == [DigitChar(n / 16)];
    } else {
      assert DigitChar(0) == '0';
    }
  }

  /** `Array.from(digest).map(b => ...).join('')`. */
  function HexEncode(digest: seq<byte>): (hex: string)
    ensures |hex| == 2 * |digest|
  {
    if digest == [] then [] else ByteHex(digest[0]) + HexEncode(digest[1..])
  }

  /** The value of a lower-case hex digit. */
  function HexDigitValue(c: char): (d: int)
    ensures IsLowerHexDigit(c) ==> 0 <= d < 16
  {
    if '0' <= c <= '9' then c as int - '0' as int
    else if 'a' <= c <= 'f' then c as int - 'a' as int + 10
    else -1
  }

  /** The inverse of HexEncode: pairs of lower-case hex digits back to bytes. */
  function HexDecode(hex: string): (bytes: Option<seq<byte>>)
    ensures bytes.Some? ==> 2 * |bytes.value| == |hex|
    decreases |hex|
  {
    if hex == [] then Some([])
    else if |hex| == 1 || !IsLowerHexDigit(hex[0]) || !IsLowerHexDigit(hex[1]) then None
    else
      match HexDecode(hex[2..])
      case None => None
      case Some(rest) => Some([(HexDigitValue(hex[0]) * 16 + HexDigitValue(hex[1])) as byte] + rest)
  }

  /** One byte's two digits decode back to that byte, ahead of whatever follows. */
  lemma HexDecodeByte(b: byte, rest: string)
    ensures HexDecode(ByteHex(b) + rest) ==
            match HexDecode(rest)
            case None => None
            case Some(bytes) => Some([b] + bytes)
  {
    var hex := ByteHex(b) + rest;
    assert hex[2..] == rest;
    assert HexDigitValue(hex[0]) == b as nat / 16;
    assert HexDigitValue(hex[1]) == b as nat % 16;
  }

  /** Decoding the signature recovers the digest, and every character is a lower-case
      hex digit. */
  lemma {:induction false} HexRoundTrip(digest: seq<byte>)
    ensures HexDecode(HexEncode(digest)) == Some(digest)
    ensures forall i :: 0 <= i < |HexEncode(digest)| ==> IsLowerHexDigit(HexEncode(digest)[i])
  {
    if digest != [] {
      var b := digest[0];
      var tail := HexEncode(digest[1..]);
      HexRoundTrip(digest[1..]);
      HexDecodeByte(b, tail);
      assert HexEncode(digest) == ByteHex(b) + tail;
      assert [b] + digest[1..] == digest;
      var hex := HexEncode(digest);
      forall i | 0 <= i < |hex| ensures IsLowerHexDigit(hex[i]) {
        if i >= 2 { assert hex[i] == tail[i - 2]; }
      }
    }
  }

  /** A SHA-1 digest (20 bytes) gives a 40-character signature. */
  lemma Sha1SignatureLength(digest: seq<byte>)
    requires |digest| == 20
    ensures |HexEncode(digest)| == 40
  {
  }
}
