/**
 * `encodeURIComponent` and the `key=value&...` query strings the
 * authorization URL is made of.
 */
module Uri {
  import opened Wrappers
  import opened Text

  /** The characters `encodeURIComponent` leaves alone. */
  predicate Unreserved(c: char)
  {
    || ('A' <= c <= 'Z') || ('a' <= c <= 'z') || ('0' <= c <= '9')
    || c == '-' || c == '_' || c == '.' || c == '!' || c == '~' || c == '*' || c == '\'' || c == '(' || c == ')'
  }

  const HexDigits: string := "0123456789ABCDEF"

  /** The UTF-8 bytes of one character. */
  function Utf8(c: char): (bytes: seq<int>)
    ensures 1 <= |bytes| <= 4
    ensures forall k :: 0 <= k < |bytes| ==> 0 <= bytes[k] < 256
    ensures (c as int < 0x80) <==> bytes == [c as int]
  {
    var n := c as int;
    if n < 0x80 then [n]
    else if n < 0x800 then [0xC0 + n / 0x40, 0x80 + n % 0x40]
    else if n < 0x1_0000 then [0xE0 + n / 0x1000, 0x80 + (n / 0x40) % 0x40, 0x80 + n % 0x40]
    else [0xF0 + n / 0x4_0000, 0x80 + (n / 0x1000) % 0x40, 0x80 + (n / 0x40) % 0x40, 0x80 + n % 0x40]
  }

  /** `%XY` with upper-case hexadecimal digits. */
  function PercentByte(b: int): (escape: string)
    requires 0 <= b < 256
    ensures |escape| == 3 && escape[0] == '%' && escape[1] in HexDigits && escape[2] in HexDigits
  {
    ['%', HexDigits[b / 16], HexDigits[b % 16]]
  }

  function PercentBytes(bytes: seq<int>): (escapes: string)
    requires forall k :: 0 <= k < |bytes| ==> 0 <= bytes[k] < 256
    ensures |escapes| == 3 * |bytes|
    ensures forall k :: 0 <= k < |escapes| ==> escapes[k] == '%' || escapes[k] in HexDigits
  {
    if bytes == [] then "" else PercentByte(bytes[0]) + PercentBytes(bytes[1..])
  }

  /** One character, kept or escaped byte by byte. */
  function EncodeChar(c: char): (piece: string)
    ensures Unreserved(c) ==> piece == [c]
    ensures !Unreserved(c) ==> 3 <= |piece| <= 12 && piece[0] == '%'
  {
    if Unreserved(c) then [c] else PercentBytes(Utf8(c))
  }

  /** What an encoded component is made of. */
  predicate Safe(c: char)
  {
    Unreserved(c) || c == '%' || c in HexDigits
  }

  /** `encodeURIComponent(s)`. Every Dafny character is a Unicode scalar value, so the lone-surrogate error cannot arise. */
  function EncodeURIComponent(s: string): (r: string)
    ensures |r| >= |s|
    ensures forall k :: 0 <= k < |r| ==> Safe(r[k])
    ensures (forall k :: 0 <= k < |s| ==> Unreserved(s[k])) ==> r == s
  {
    if s == [] then "" else EncodeChar(s[0]) + EncodeURIComponent(s[1..])
  }

  /** An encoded component never holds a separator of the query string. */
  lemma {:induction false} EncodedHasNoSeparators(s: string)
    ensures '&' !in EncodeURIComponent(s) && '=' !in EncodeURIComponent(s) && '?' !in EncodeURIComponent(s)
  {
    var r := EncodeURIComponent(s);
    forall k | 0 <= k < |r|
      ensures r[k] != '&' && r[k] != '=' && r[k] != '?'
    {
      assert Safe(r[k]);
    }
  }

  /** The value of a hexadecimal digit, either case. */
  function HexValue(c: char): Option<int>
  {
    if '0' <= c <= '9' then Some(c as int - '0' as int)
    else if 'A' <= c <= 'F' then Some(c as int - 'A' as int + 10)
    else if 'a' <= c <= 'f' then Some(c as int - 'a' as int + 10)
    else None
  }

  /** `decodeURIComponent` for text whose escapes are single-byte (ASCII): a reference to check the encoding against. */
  function DecodeAscii(s: string): (r: Option<string>)
    decreases |s|
  {
    if s == [] then Some("")
    else if s[0] != '%' then
      match DecodeAscii(s[1..])
      case None => None
      case Some(rest) => Some([s[0]] + rest)
    else if |s| < 3 then None
    else
      match (HexValue(s[1]), HexValue(s[2]), DecodeAscii(s[3..]))
      case (Some(hi), Some(lo), Some(rest)) =>
        if hi * 16 + lo < 0x80 then Some([(hi * 16 + lo) as char] + rest) else None
      case _ => None
  }

  lemma HexDigitValue(v: int)
    requires 0 <= v < 16
    ensures HexValue(HexDigits[v]) == Some(v)
  {
  }

  /** Text made of ASCII characters only. */
  predicate Ascii(s: string)
  {
    forall k :: 0 <= k < |s| ==> s[k] as int < 0x80
  }

  /** Decoding reads one escaped ASCII byte back. */
  lemma DecodePercentByte(b: int, tail: string, rest: string)
    requires 0 <= b < 0x80
    requires DecodeAscii(tail) == Some(rest)
    ensures DecodeAscii(PercentByte(b) + tail) == Some([b as char] + rest)
  {
    var hi, lo := b / 16, b % 16;
    HexDigitValue(hi);
    HexDigitValue(lo);
    assert hi * 16 + lo == b;
    var r := PercentByte(b) + tail;
    assert r[0] == '%' && HexValue(r[1]) == Some(hi) && HexValue(r[2]) == Some(lo);
    assert r[3..] == tail;
  }

  /** Decoding undoes the encoding of one ASCII character in front of decodable text. */
  lemma DecodeEncodedChar(c: char, tail: string, rest: string)
    requires c as int < 0x80
    requires DecodeAscii(tail) == Some(rest)
    ensures DecodeAscii(EncodeChar(c) + tail) == Some([c] + rest)
  {
    if Unreserved(c) {
      assert ([c] + tail)[1..] == tail;
    } else {
      var b := c as int;
      assert Utf8(c) == [b];
      assert PercentBytes([b]) == PercentByte(b) + PercentBytes([]);
      DecodePercentByte(b, tail, rest);
    }
  }

  /** Decoding undoes the encoding of ASCII text. */
  lemma {:induction false} DecodeEncodeAscii(s: string)
    requires Ascii(s)
    ensures DecodeAscii(EncodeURIComponent(s)) == Some(s)
    decreases |s|
  {
    if s != [] {
      DecodeEncodeAscii(s[1..]);
      DecodeEncodedChar(s[0], EncodeURIComponent(s[1..]), s[1..]);
      assert s == [s[0]] + s[1..];
    }
  }

  /** One `key=value` piece of a query string. */
  function Param(key: string, value: string): string
  {
    key + "=" + value
  }

  /** The pieces `key=value`, joined with `&`. */
  function QueryString(pairs: seq<(string, string)>): string
  {
    Join(seq(|pairs|, k requires 0 <= k < |pairs| => Param(pairs[k].0, pairs[k].1)), '&')
  }

  /** The query string of five pairs, written out. */
  lemma QueryStringFive(p0: (string, string), p1: (string, string), p2: (string, string), p3: (string, string), p4: (string, string))
    ensures QueryString([p0, p1, p2, p3, p4])
      == Param(p0.0, p0.1) + "&" + (Param(p1.0, p1.1) + "&" + (Param(p2.0, p2.1) + "&" + (Param(p3.0, p3.1) + "&" + Param(p4.0, p4.1))))
  {
    var ps := [p0, p1, p2, p3, p4];
    var pieces := seq(|ps|, k requires 0 <= k < |ps| => Param(ps[k].0, ps[k].1));
    assert Join(pieces[4..], '&') == pieces[4];
    assert Join(pieces[3..], '&') == pieces[3] + "&" + Join(pieces[4..], '&') by {
      assert pieces[3..][1..] == pieces[4..];
    }
    assert Join(pieces[2..], '&') == pieces[2] + "&" + Join(pieces[3..], '&') by {
      assert pieces[2..][1..] == pieces[3..];
    }
    assert Join(pieces[1..], '&') == pieces[1] + "&" + Join(pieces[2..], '&') by {
      assert pieces[1..][1..] == pieces[2..];
    }
  }

  /** A query piece split at its first `=`; a piece without one is a key with an empty value. */
  function ParsePair(piece: string): (string, string)
  {
    var parts := Split(piece, '=');
    (parts[0], if |parts| == 1 then "" else Join(parts[1..], '='))
  }

  /** The `key=value` pairs of a query string, in order. */
  function ParseQuery(query: string): seq<(string, string)>
  {
    var pieces := Split(query, '&');
    seq(|pieces|, k requires 0 <= k < |pieces| => ParsePair(pieces[k]))
  }

  /** A key without `=` comes back whole, and so does its value. */
  lemma {:induction false} ParsePairOf(key: string, value: string)
    requires '=' !in key
    ensures ParsePair(Param(key, value)) == (key, value)
  {
    var rest := Split(value, '=');
    assert Split("=" + value, '=') == [""] + rest by {
      assert ("=" + value)[1..] == value;
    }
    SplitPrefix(key, "=" + value, '=');
    assert key + "=" + value == key + ("=" + value);
    assert key + "" == key;
    var parts := Split(key + "=" + value, '=');
    assert parts == [key] + rest;
    assert parts[1..] == rest;
    JoinSplit(value, '=');
  }

  /** Parsing a query string gives back its pairs when no key holds `=` and nothing holds `&`. */
  lemma {:induction false} ParseQueryString(pairs: seq<(string, string)>)
    requires |pairs| >= 1
    requires forall k :: 0 <= k < |pairs| ==> '&' !in pairs[k].0 && '=' !in pairs[k].0 && '&' !in pairs[k].1
    ensures ParseQuery(QueryString(pairs)) == pairs
  {
    var pieces := seq(|pairs|, k requires 0 <= k < |pairs| => Param(pairs[k].0, pairs[k].1));
    forall k | 0 <= k < |pieces|
      ensures '&' !in pieces[k]
    {
      assert pieces[k] == pairs[k].0 + "=" + pairs[k].1;
    }
    SplitJoin(pieces, '&');
    forall k | 0 <= k < |pairs|
      ensures ParsePair(pieces[k]) == pairs[k]
    {
      ParsePairOf(pairs[k].0, pairs[k].1);
    }
  }
}
