/**
 * CloudStackApiClient.encodeUrl: trim, then java.net.URLEncoder.encode with
 * UTF-8 (application/x-www-form-urlencoded, HTML 4.01 section 17.13.4.1),
 * then every `+` rewritten to `%20`.
 *
 * The two steps are modelled as the source writes them; PercentEncode is an
 * independent one-step reading (space becomes `%20` directly) and the two are
 * proved equal. DecodeBytes reads an encoded string back to UTF-8 bytes, and
 * the round trip shows that the encoding loses nothing.
 */
module UrlEncoding {

  import opened Wrappers
  import opened Text

  type Byte = b: int | 0 <= b < 256

  /** The characters URLEncoder leaves as they are. */
  predicate IsUnreserved(c: char) {
    'a' <= c <= 'z' || 'A' <= c <= 'Z' || '0' <= c <= '9' || c == '.' || c == '-' || c == '*' || c == '_'
  }

  /** UTF-8 (RFC 3629 section 3) of one Unicode scalar value. */
  function Utf8(c: char): (r: seq<Byte>)
    ensures 1 <= |r| <= 4
    ensures c as int < 0x80 ==> r == [c as int]
    ensures c as int >= 0x80 ==> forall i :: 0 <= i < |r| ==> r[i] >= 0x80
  {
    var n := c as int;
    if n < 0x80 then [n]
    else if n < 0x800 then [0xC0 + n / 64, 0x80 + n % 64]
    else if n < 0x10000 then [0xE0 + n / 4096, 0x80 + (n / 64) % 64, 0x80 + n % 64]
    else [0xF0 + n / 262144, 0x80 + (n / 4096) % 64, 0x80 + (n / 64) % 64, 0x80 + n % 64]
  }

  /** UTF-8 of a whole string. */
  function Utf8String(s: string): seq<Byte> {
    if s == [] then [] else Utf8(s[0]) + Utf8String(s[1..])
  }

  /** Upper-case hexadecimal digit, as URLEncoder writes it. */
  function HexDigit(d: int): char
    requires 0 <= d < 16
  {
    if d < 10 then (d + '0' as int) as char else (d - 10 + 'A' as int) as char
  }

  predicate IsHexDigit(c: char) {
    '0' <= c <= '9' || 'A' <= c <= 'F'
  }

  function HexValue(c: char): (d: int)
    requires IsHexDigit(c)
    ensures 0 <= d < 16 && HexDigit(d) == c
  {
    if c <= '9' then c as int - '0' as int else c as int - 'A' as int + 10
  }

  /** `%XY` for every byte. */
  function Percent(bytes: seq<Byte>): (r: string)
    ensures |r| == 3 * |bytes|
  {
    if bytes == [] then [] else ['%', HexDigit(bytes[0] / 16), HexDigit(bytes[0] % 16)] + Percent(bytes[1..])
  }

  /** What URLEncoder.encode(_, "UTF-8") writes for one character. */
  function FormEncodeChar(c: char): string {
    if IsUnreserved(c) then [c] else if c == ' ' then "+" else Percent(Utf8(c))
  }

  /** URLEncoder.encode(s, "UTF-8"). */
  function FormEncode(s: string): string {
    if s == [] then [] else FormEncodeChar(s[0]) + FormEncode(s[1..])
  }

  /** `replaceAll("\\+", "%20")`. */
  function ReplacePlus(s: string): string {
    if s == [] then [] else (if s[0] == '+' then "%20" else [s[0]]) + ReplacePlus(s[1..])
  }

  /** Reference reading: unreserved characters stay, every other one is percent-encoded as UTF-8. */
  function PercentEncode(s: string): string {
    if s == [] then []
    else (if IsUnreserved(s[0]) then [s[0]] else Percent(Utf8(s[0]))) + PercentEncode(s[1..])
  }

  /** A character that can appear in an encoded value. */
  predicate IsEncodedChar(c: char) {
    IsUnreserved(c) || c == '%' || IsHexDigit(c)
  }

  predicate IsEncoded(s: string) {
    forall i :: 0 <= i < |s| ==> IsEncodedChar(s[i])
  }

  /** Neither `+` nor a space is an encoded character. */
  lemma EncodedLacksPlusAndSpace(s: string)
    requires IsEncoded(s)
    ensures '+' !in s && ' ' !in s
  {
    assert !IsEncodedChar('+') && !IsEncodedChar(' ');
  }

  /** encodeUrl: null stays null; otherwise trim, form-encode, and write `+` as `%20`. */
  function EncodeUrl(value: Option<string>): (r: Option<string>)
    ensures r.None? <==> value.None?
    ensures r.Some? ==> IsEncoded(r.value) && r.value == PercentEncode(Trim(value.value))
    ensures r.Some? ==> (r.value == [] <==> IsBlank(value.value))
    ensures r.Some? ==> '+' !in r.value && ' ' !in r.value
  {
    match value
    case None => None
    case Some(v) =>
      FormEncodeThenReplaceIsPercentEncode(Trim(v));
      PercentEncodeIsEncoded(Trim(v));
      EncodedLacksPlusAndSpace(PercentEncode(Trim(v)));
      Some(ReplacePlus(FormEncode(Trim(v))))
  }

  lemma {:induction false} ReplacePlusConcat(a: string, b: string)
    ensures ReplacePlus(a + b) == ReplacePlus(a) + ReplacePlus(b)
    decreases |a|
  {
    if a == [] {
      assert a + b == b;
    } else {
      assert (a + b)[0] == a[0] && (a + b)[1..] == a[1..] + b;
      ReplacePlusConcat(a[1..], b);
    }
  }

  lemma {:induction false} PercentIsEncoded(bytes: seq<Byte>)
    ensures IsEncoded(Percent(bytes)) && ReplacePlus(Percent(bytes)) == Percent(bytes)
    decreases |bytes|
  {
    if bytes != [] {
      var head: string := ['%', HexDigit(bytes[0] / 16), HexDigit(bytes[0] % 16)];
      PercentIsEncoded(bytes[1..]);
      ReplacePlusConcat(head, Percent(bytes[1..]));
      assert ReplacePlus(head) == head by {
        var x, y := head[1], head[2];
        assert x != '+' && y != '+';
        assert head[1..] == [x, y] && head[1..][1..] == [y] && [y][1..] == [];
        assert ReplacePlus([y]) == [y];
        assert ReplacePlus([x, y]) == [x] + ReplacePlus([y]);
      }
    }
  }

  /** The two-step encoding of the source equals the one-step reference encoding. */
  lemma {:induction false} FormEncodeThenReplaceIsPercentEncode(s: string)
    ensures ReplacePlus(FormEncode(s)) == PercentEncode(s)
    decreases |s|
  {
    if s != [] {
      var c := s[0];
      FormEncodeThenReplaceIsPercentEncode(s[1..]);
      ReplacePlusConcat(FormEncodeChar(c), FormEncode(s[1..]));
      if IsUnreserved(c) {
      } else if c == ' ' {
        assert Percent(Utf8(c)) == "%20";
      } else {
        PercentIsEncoded(Utf8(c));
      }
    }
  }

  lemma {:induction false} PercentEncodeIsEncoded(s: string)
    ensures IsEncoded(PercentEncode(s))
    ensures PercentEncode(s) == [] <==> s == []
    decreases |s|
  {
    if s != [] {
      PercentEncodeIsEncoded(s[1..]);
      PercentIsEncoded(Utf8(s[0]));
      var head := if IsUnreserved(s[0]) then [s[0]] else Percent(Utf8(s[0]));
      var t := head + PercentEncode(s[1..]);
      forall i | 0 <= i < |t| ensures IsEncodedChar(t[i]) {
        if i >= |head| {
          assert t[i] == PercentEncode(s[1..])[i - |head|];
        }
      }
    }
  }

  /** Prefix known bytes to a decoding result. */
  function Prepend(bytes: seq<Byte>, rest: Option<seq<Byte>>): Option<seq<Byte>> {
    match rest
    case None => None
    case Some(r) => Some(bytes + r)
  }

  /** Percent-decoding to bytes: `%XY` is one byte, any other ASCII character stands for itself. */
  function DecodeBytes(t: string): Option<seq<Byte>>
    decreases |t|
  {
    if t == [] then Some([])
    else if t[0] == '%' then
      if |t| >= 3 && IsHexDigit(t[1]) && IsHexDigit(t[2])
      then Prepend([16 * HexValue(t[1]) + HexValue(t[2])], DecodeBytes(t[3..]))
      else None
    else if t[0] as int < 0x80 then Prepend([t[0] as int], DecodeBytes(t[1..]))
    else None
  }

  lemma HexDigitRoundTrip(d: int)
    requires 0 <= d < 16
    ensures IsHexDigit(HexDigit(d)) && HexValue(HexDigit(d)) == d
  {
  }

  /** One `%XY` triple decodes to its byte. */
  lemma DecodeTriple(b: Byte, tail: string)
    ensures DecodeBytes(['%', HexDigit(b / 16), HexDigit(b % 16)] + tail) == Prepend([b], DecodeBytes(tail))
  {
    var t := ['%', HexDigit(b / 16), HexDigit(b % 16)] + tail;
    HexDigitRoundTrip(b / 16);
    HexDigitRoundTrip(b % 16);
    assert t[1] == HexDigit(b / 16) && t[2] == HexDigit(b % 16) && t[3..] == tail;
  }

  lemma PrependTwice(a: seq<Byte>, b: seq<Byte>, rest: Option<seq<Byte>>)
    ensures Prepend(a, Prepend(b, rest)) == Prepend(a + b, rest)
  {
    match rest
    case None =>
    case Some(r) => assert a + (b + r) == (a + b) + r;
  }

  lemma {:induction false} DecodePercent(bytes: seq<Byte>, rest: string)
    ensures DecodeBytes(Percent(bytes) + rest) == Prepend(bytes, DecodeBytes(rest))
    decreases |bytes|
  {
    if bytes == [] {
      assert Percent(bytes) + rest == rest;
      match DecodeBytes(rest)
      case None =>
      case Some(r) => assert bytes + r == r;
    } else {
      var b := bytes[0];
      var head: string := ['%', HexDigit(b / 16), HexDigit(b % 16)];
      var tail := Percent(bytes[1..]) + rest;
      assert Percent(bytes) == head + Percent(bytes[1..]);
      assert Percent(bytes) + rest == head + tail;
      DecodeTriple(b, tail);
      DecodePercent(bytes[1..], rest);
      PrependTwice([b], bytes[1..], DecodeBytes(rest));
      assert [b] + bytes[1..] == bytes;
    }
  }

  /** Decoding an encoded string gives back the UTF-8 bytes of the original: nothing is lost. */
  lemma {:induction false} DecodeEncodeRoundTrip(s: string)
    ensures DecodeBytes(PercentEncode(s)) == Some(Utf8String(s))
    decreases |s|
  {
    if s != [] {
      var c := s[0];
      DecodeEncodeRoundTrip(s[1..]);
      if IsUnreserved(c) {
        var t := PercentEncode(s);
        assert t == [c] + PercentEncode(s[1..]);
        assert t[1..] == PercentEncode(s[1..]);
      } else {
        DecodePercent(Utf8(c), PercentEncode(s[1..]));
      }
    }
  }
}
