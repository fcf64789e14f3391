/** The JavaScript global `encodeURIComponent`, which the pages use to put a
    path into a `redirect` query parameter, and its strict inverse
    `decodeURIComponent`, with which the model reads that parameter back.
    The pages read it through `useSearchParams`, whose form decoding never
    fails; the two readers agree on everything `encodeURIComponent` writes.

    Strings are sequences of Unicode scalar values, so the case in which
    JavaScript throws a URIError (a lone UTF-16 surrogate) cannot arise. */
module Uri {
  import opened Wrappers

  /** The characters `encodeURIComponent` leaves as they are:
      ASCII letters, digits and `- _ . ! ~ * ' ( )`. */
  predicate Unreserved(c: char) {
    ('A' <= c <= 'Z') || ('a' <= c <= 'z') || ('0' <= c <= '9') ||
    c == '-' || c == '_' || c == '.' || c == '!' || c == '~' ||
    c == '*' || c == '\'' || c == '(' || c == ')'
  }

  predicate UpperHex(c: char) {
    ('0' <= c <= '9') || ('A' <= c <= 'F')
  }

  /** Upper-case hexadecimal digit of `n`, as the encoder writes it. */
  function HexDigit(n: nat): (c: char)
    requires n < 16
    ensures UpperHex(c)
    ensures HexValue(c) == Some(n)
  {
    if n < 10 then ('0' as int + n) as char else ('A' as int + n - 10) as char
  }

  /** Value of a hexadecimal digit of either case, as the decoder reads it. */
  function HexValue(c: char): (r: Option<nat>)
    ensures r.Some? ==> r.value < 16
  {
    if '0' <= c <= '9' then Some(c as int - '0' as int)
    else if 'A' <= c <= 'F' then Some(c as int - 'A' as int + 10)
    else if 'a' <= c <= 'f' then Some(c as int - 'a' as int + 10)
    else None
  }

  /** One octet of a UTF-8 encoding. */
  type Byte = b: int | 0 <= b < 256

  /** The UTF-8 encoding of one scalar value: one to four bytes, a lead
      byte whose high bits give the length, then continuation bytes. */
  function Utf8(c: char): (bytes: seq<Byte>)
    ensures 1 <= |bytes| <= 4
    ensures (c as int < 0x80) <==> |bytes| == 1
    ensures |bytes| == 1 ==> bytes[0] == c as int
  {
    var cp := c as int;
    if cp < 0x80 then [cp]
    else if cp < 0x800 then [0xC0 + cp / 64, 0x80 + cp % 64]
    else if cp < 0x10000 then [0xE0 + cp / 4096, 0x80 + (cp / 64) % 64, 0x80 + cp % 64]
    else [0xF0 + cp / 262144, 0x80 + (cp / 4096) % 64, 0x80 + (cp / 64) % 64, 0x80 + cp % 64]
  }

  /** `%XX` for each byte, with upper-case hexadecimal digits. */
  function PercentBytes(bytes: seq<Byte>): (r: string)
    ensures |r| == 3 * |bytes|
  {
    if bytes == [] then []
    else ['%', HexDigit(bytes[0] / 16), HexDigit(bytes[0] % 16)] + PercentBytes(bytes[1..])
  }

  lemma {:induction false} PercentBytesAlphabet(bytes: seq<Byte>)
    ensures forall i :: 0 <= i < |PercentBytes(bytes)| ==>
      PercentBytes(bytes)[i] == '%' || UpperHex(PercentBytes(bytes)[i])
  {
    if bytes != [] {
      PercentBytesAlphabet(bytes[1..]);
    }
  }

  function EncodeChar(c: char): (r: string)
    ensures Unreserved(c) ==> r == [c]
    ensures !Unreserved(c) ==> r == PercentBytes(Utf8(c))
  {
    if Unreserved(c) then [c] else PercentBytes(Utf8(c))
  }

  /** `encodeURIComponent(s)`. Its output holds nothing but unreserved
      characters and `%XX` escapes; in particular no `&`, `=`, `+` or `#`,
      so it survives as one query value. */
  function EncodeUriComponent(s: string): (r: string)
    ensures forall i :: 0 <= i < |r| ==> Unreserved(r[i]) || r[i] == '%' || UpperHex(r[i])
    ensures |r| >= |s|
  {
    if s == [] then []
    else
      var head := EncodeChar(s[0]);
      assert forall i :: 0 <= i < |head| ==> Unreserved(head[i]) || head[i] == '%' || UpperHex(head[i]) by {
        if !Unreserved(s[0]) {
          PercentBytesAlphabet(Utf8(s[0]));
        }
      }
      head + EncodeUriComponent(s[1..])
  }

  /** The byte written as `%XX` at position `i` of `s`, if there is one. */
  function ReadByte(s: string, i: nat): (r: Option<Byte>)
    ensures r.Some? ==> i + 3 <= |s|
  {
    if i + 3 <= |s| && s[i] == '%' && HexValue(s[i + 1]).Some? && HexValue(s[i + 2]).Some? then
      Some(HexValue(s[i + 1]).value * 16 + HexValue(s[i + 2]).value)
    else None
  }

  /** Number of bytes a UTF-8 sequence has, judged from its lead byte;
      0 for a byte that cannot start a sequence. */
  function SequenceLength(b0: int): nat {
    if b0 < 0x80 then 1
    else if 0xC0 <= b0 < 0xE0 then 2
    else if 0xE0 <= b0 < 0xF0 then 3
    else if 0xF0 <= b0 < 0xF8 then 4
    else 0
  }

  predicate Continuation(b: int) { 0x80 <= b < 0xC0 }

  /** Smallest scalar value a sequence of `n` bytes may encode (shorter,
      "overlong" forms are rejected). */
  function MinScalar(n: nat): int {
    if n == 2 then 0x80 else if n == 3 then 0x800 else 0x10000
  }

  predicate ValidScalar(cp: int) {
    (0 <= cp < 0xD800) || (0xE000 <= cp < 0x110000)
  }

  /** The scalar value of a well-formed multi-byte sequence. */
  function Combine(bytes: seq<Byte>): int
    requires 2 <= |bytes| <= 4
  {
    var b := seq(|bytes|, i requires 0 <= i < |bytes| => bytes[i] as int);
    if |b| == 2 then (b[0] - 0xC0) * 64 + (b[1] - 0x80)
    else if |b| == 3 then (b[0] - 0xE0) * 4096 + (b[1] - 0x80) * 64 + (b[2] - 0x80)
    else (b[0] - 0xF0) * 262144 + (b[1] - 0x80) * 4096 + (b[2] - 0x80) * 64 + (b[3] - 0x80)
  }

  /** Reads the `n` escaped bytes starting at the beginning of `s`. */
  function ReadBytes(s: string, n: nat): (r: Option<seq<Byte>>)
    ensures r.Some? ==> |r.value| == n && 3 * n <= |s|
  {
    if n == 0 then Some([])
    else
      match ReadByte(s, 0)
      case None => None
      case Some(b) =>
        match ReadBytes(s[3..], n - 1)
        case None => None
        case Some(rest) => Some([b] + rest)
  }

  /** Decodes one escaped UTF-8 sequence at the start of `s` (which begins
      with `%`): the character and how many characters of `s` it took. */
  function DecodeEscape(s: string): (r: Option<(char, nat)>)
    ensures r.Some? ==> 3 <= r.value.1 <= |s|
  {
    match ReadByte(s, 0)
    case None => None
    case Some(b0) =>
      var n := SequenceLength(b0);
      if n == 0 then None
      else if n == 1 then Some((b0 as char, 3))
      else
        match ReadBytes(s, n)
        case None => None
        case Some(bytes) =>
          if exists i :: 1 <= i < n && !Continuation(bytes[i]) then None
          else
            var cp := Combine(bytes);
            if cp < MinScalar(n) || !ValidScalar(cp) then None
            else Some((cp as char, 3 * n))
  }

  /** `decodeURIComponent(s)`; `None` where JavaScript throws a URIError. */
  function DecodeUriComponent(s: string): Option<string>
    decreases |s|
  {
    if s == [] then Some([])
    else if s[0] != '%' then
      match DecodeUriComponent(s[1..])
      case None => None
      case Some(t) => Some([s[0]] + t)
    else
      match DecodeEscape(s)
      case None => None
      case Some((c, used)) =>
        match DecodeUriComponent(s[used..])
        case None => None
        case Some(t) => Some([c] + t)
  }

  lemma ReadByteOfEscape(b: Byte, rest: string)
    ensures ReadByte(['%', HexDigit(b / 16), HexDigit(b % 16)] + rest, 0) == Some(b)
  {
    var s := ['%', HexDigit(b / 16), HexDigit(b % 16)] + rest;
    assert s[1] == HexDigit(b / 16) && s[2] == HexDigit(b % 16);
  }

  /** The first escape of `PercentBytes`, and what follows it. */
  lemma PercentBytesHead(bytes: seq<Byte>, t: string)
    requires bytes != []
    ensures PercentBytes(bytes) + t ==
      ['%', HexDigit(bytes[0] / 16), HexDigit(bytes[0] % 16)] + (PercentBytes(bytes[1..]) + t)
  {
  }

  lemma ReadByteOfPercent(bytes: seq<Byte>, t: string)
    requires bytes != []
    ensures ReadByte(PercentBytes(bytes) + t, 0) == Some(bytes[0])
    ensures (PercentBytes(bytes) + t)[3..] == PercentBytes(bytes[1..]) + t
  {
    var head := ['%', HexDigit(bytes[0] / 16), HexDigit(bytes[0] % 16)];
    var rest := PercentBytes(bytes[1..]) + t;
    PercentBytesHead(bytes, t);
    assert (head + rest)[3..] == rest;
    ReadByteOfEscape(bytes[0], rest);
  }

  lemma {:induction false} ReadBytesOfPercent(bytes: seq<Byte>, t: string)
    ensures ReadBytes(PercentBytes(bytes) + t, |bytes|) == Some(bytes)
  {
    if bytes != [] {
      ReadByteOfPercent(bytes, t);
      ReadBytesOfPercent(bytes[1..], t);
      assert [bytes[0]] + bytes[1..] == bytes;
    }
  }

  /** The lead byte gives the length, the others are continuation bytes,
      the combined value is the character itself and is not overlong. */
  lemma Utf8WellFormed(c: char)
    requires c as int >= 0x80
    ensures SequenceLength(Utf8(c)[0]) == |Utf8(c)|
    ensures forall i :: 1 <= i < |Utf8(c)| ==> Continuation(Utf8(c)[i])
    ensures Combine(Utf8(c)) == c as int
    ensures c as int >= MinScalar(|Utf8(c)|)
  {
    var cp := c as int;
    assert cp == 64 * (cp / 64) + cp % 64;
    assert cp / 64 == 64 * (cp / 4096) + (cp / 64) % 64;
    assert cp / 4096 == 64 * (cp / 262144) + (cp / 4096) % 64;
  }

  lemma DecodeEscapeOfEncoded(c: char, t: string)
    requires !Unreserved(c)
    ensures DecodeEscape(EncodeChar(c) + t) == Some((c, |EncodeChar(c)|))
  {
    var bytes := Utf8(c);
    var s := EncodeChar(c) + t;
    ReadByteOfPercent(bytes, t);
    if c as int >= 0x80 {
      Utf8WellFormed(c);
      ReadBytesOfPercent(bytes, t);
    }
  }

  lemma DecodeEncodedChar(c: char, t: string)
    ensures DecodeUriComponent(EncodeChar(c) + t) ==
      match DecodeUriComponent(t)
      case None => None
      case Some(u) => Some([c] + u)
  {
    var s := EncodeChar(c) + t;
    if Unreserved(c) {
      assert s[1..] == t;
    } else {
      DecodeEscapeOfEncoded(c, t);
      assert s[|EncodeChar(c)|..] == t;
    }
  }

  /** Decoding undoes encoding: the value put into a query parameter with
      `encodeURIComponent` is read back unchanged. */
  lemma {:induction false} DecodeEncode(s: string)
    ensures DecodeUriComponent(EncodeUriComponent(s)) == Some(s)
  {
    if s != [] {
      DecodeEncode(s[1..]);
      DecodeEncodedChar(s[0], EncodeUriComponent(s[1..]));
      assert [s[0]] + s[1..] == s;
    }
  }

  /** Two different strings never encode to the same text. */
  lemma EncodeInjective(s: string, t: string)
    requires EncodeUriComponent(s) == EncodeUriComponent(t)
    ensures s == t
  {
    DecodeEncode(s);
    DecodeEncode(t);
  }

  /** `${path}?redirect=${encodeURIComponent(target)}`: how the pages build
      an address that carries a return target. */
  function WithRedirect(path: string, target: string): string {
    path + "?redirect=" + EncodeUriComponent(target)
  }

  /** The decoded `redirect` value of an address `path?redirect=...` with
      that single parameter, read with the strict decoder; `None` when the
      address does not begin with `path?redirect=` or the value does not
      decode. Everything after `redirect=` is the value: a further
      `&name=value` or a `#fragment` is read into it. On values
      `encodeURIComponent` wrote this is what `useSearchParams().get("redirect")`
      reports; on a malformed escape the page's form decoding keeps the raw
      text (or writes U+FFFD) where this gives `None`. */
  function RedirectOf(href: string, path: string): Option<string> {
    var prefix := path + "?redirect=";
    if |prefix| <= |href| && href[..|prefix|] == prefix then DecodeUriComponent(href[|prefix|..])
    else None
  }

  /** An address built with `WithRedirect` hands its target back unchanged. */
  lemma RedirectRoundTrip(path: string, target: string)
    ensures RedirectOf(WithRedirect(path, target), path) == Some(target)
  {
    var prefix := path + "?redirect=";
    var href := WithRedirect(path, target);
    assert href == prefix + EncodeUriComponent(target);
    assert href[..|prefix|] == prefix && href[|prefix|..] == EncodeUriComponent(target);
    DecodeEncode(target);
  }

  /** Encoding works character by character. */
  lemma {:induction false} EncodeAppend(a: string, b: string)
    ensures EncodeUriComponent(a + b) == EncodeUriComponent(a) + EncodeUriComponent(b)
  {
    if a != [] {
      assert (a + b)[0] == a[0];
      assert (a + b)[1..] == a[1..] + b;
      EncodeAppend(a[1..], b);
      calc {
        EncodeUriComponent(a + b);
        EncodeChar(a[0]) + EncodeUriComponent(a[1..] + b);
        EncodeChar(a[0]) + (EncodeUriComponent(a[1..]) + EncodeUriComponent(b));
        (EncodeChar(a[0]) + EncodeUriComponent(a[1..])) + EncodeUriComponent(b);
      }
    } else {
      assert a + b == b;
    }
  }

  /** Text made only of unreserved characters is left as it is. */
  lemma {:induction false} EncodeUnreserved(s: string)
    requires forall i :: 0 <= i < |s| ==> Unreserved(s[i])
    ensures EncodeUriComponent(s) == s
  {
    if s != [] {
      EncodeUnreserved(s[1..]);
    }
  }

  /** A path separator is written `%2F`; the path segment after it, made of
      letters, digits and `-`, stays as it is. */
  lemma EncodeSegment(segment: string, rest: string)
    requires forall i :: 0 <= i < |segment| ==> Unreserved(segment[i])
    ensures EncodeUriComponent("/" + segment + rest) == "%2F" + segment + EncodeUriComponent(rest)
  {
    EncodeAppend("/" + segment, rest);
    EncodeAppend("/", segment);
    EncodeUnreserved(segment);
    assert EncodeUriComponent("/") == "%2F" by {
      assert !Unreserved('/');
      assert Utf8('/') == [0x2F];
      assert HexDigit(2) == '2' && HexDigit(15) == 'F';
      assert PercentBytes([0x2F]) == ['%', HexDigit(2), HexDigit(15)] + PercentBytes([]);
      assert EncodeUriComponent("/") == EncodeChar('/') + EncodeUriComponent([]);
    }
  }

  /** A three-segment path such as `/product/vessel/booking`, encoded:
      each `/` becomes `%2F` and the segments are kept. */
  lemma EncodeThreeSegments(a: string, b: string, c: string)
    requires forall i :: 0 <= i < |a| ==> Unreserved(a[i])
    requires forall i :: 0 <= i < |b| ==> Unreserved(b[i])
    requires forall i :: 0 <= i < |c| ==> Unreserved(c[i])
    ensures EncodeUriComponent("/" + a + ("/" + b + ("/" + c + ""))) == "%2F" + a + ("%2F" + b + ("%2F" + c + ""))
  {
    EncodeSegment(c, "");
    EncodeSegment(b, "/" + c + "");
    EncodeSegment(a, "/" + b + ("/" + c + ""));
  }
}
