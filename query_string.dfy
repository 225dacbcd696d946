/**
 * `toQueryString` of the login screen and the `encodeURIComponent` it
 * relies on (section 18.2.6.5 of ECMA-262, 2015 edition), together with
 * their inverses: `decodeURIComponent` (section 18.2.6.3) and a parser for
 * the query strings that `toQueryString` writes.
 */
module QueryString {
  import opened Wrappers
  import Strings

  // ------------------------------------------------------ encodeURIComponent

  /** The characters `encodeURIComponent` copies as they are: ASCII letters,
      digits and - _ . ! ~ * ' ( ) */
  predicate IsUnreserved(c: char)
  {
    || ('A' <= c <= 'Z') || ('a' <= c <= 'z') || ('0' <= c <= '9')
    || c == '-' || c == '_' || c == '.' || c == '!' || c == '~'
    || c == '*' || c == '\'' || c == '(' || c == ')'
  }

  type Byte = b: int | 0 <= b < 256

  /** An upper-case hexadecimal digit, as the encoder writes them. */
  function HexDigit(d: nat): (c: char)
    requires d < 16
  {
    if d < 10 then ('0' as int + d) as char else ('A' as int + d - 10) as char
  }

  /** The value of a hexadecimal digit of either case. */
  function HexValue(c: char): (v: Option<nat>)
    ensures v.Some? ==> v.value < 16
  {
    if '0' <= c <= '9' then Some(c as int - '0' as int)
    else if 'A' <= c <= 'F' then Some(c as int - 'A' as int + 10)
    else if 'a' <= c <= 'f' then Some(c as int - 'a' as int + 10)
    else None
  }

  /** `%XY`: one byte as an escape with two upper-case hexadecimal digits. */
  function Escape(b: Byte): string
  {
    ['%', HexDigit(b / 16), HexDigit(b % 16)]
  }

  function EscapeAll(bytes: seq<Byte>): (s: string)
    ensures |s| == 3 * |bytes|
    decreases |bytes|
  {
    if bytes == [] then [] else Escape(bytes[0]) + EscapeAll(bytes[1..])
  }

  /** The UTF-8 encoding of a Unicode scalar value. */
  function Utf8(c: char): (bytes: seq<Byte>)
    ensures 1 <= |bytes| <= 4
  {
    var n := c as int;
    if n < 0x80 then [n]
    else if n < 0x800 then [0xC0 + n / 64, 0x80 + n % 64]
    else if n < 0x1_0000 then [0xE0 + n / 64 / 64, 0x80 + n / 64 % 64, 0x80 + n % 64]
    else [0xF0 + n / 64 / 64 / 64, 0x80 + n / 64 / 64 % 64, 0x80 + n / 64 % 64, 0x80 + n % 64]
  }

  /** One character of `encodeURIComponent`: an unreserved character stands
      for itself, any other one becomes the escapes of its UTF-8 bytes. */
  function EncodeChar(c: char): string
  {
    if IsUnreserved(c) then [c] else EscapeAll(Utf8(c))
  }

  /** `encodeURIComponent(s)`. Its output holds only unreserved characters
      and `%`; in particular no `&`, `=`, `?`, `/` or `#`. A string of
      unreserved characters is left as it is. */
  function EncodeURIComponent(s: string): (e: string)
    ensures forall i :: 0 <= i < |e| ==> IsUnreserved(e[i]) || e[i] == '%'
    ensures (forall i :: 0 <= i < |s| ==> IsUnreserved(s[i])) ==> e == s
    decreases |s|
  {
    if s == [] then []
    else
      EscapesAreUnreserved(Utf8(s[0]));
      assert s == [s[0]] + s[1..];
      EncodeChar(s[0]) + EncodeURIComponent(s[1..])
  }

  lemma {:induction false} EscapesAreUnreserved(bytes: seq<Byte>)
    ensures forall i :: 0 <= i < |EscapeAll(bytes)| ==> IsUnreserved(EscapeAll(bytes)[i]) || EscapeAll(bytes)[i] == '%'
    decreases |bytes|
  {
    if bytes != [] {
      EscapesAreUnreserved(bytes[1..]);
    }
  }

  // ------------------------------------------------------ decodeURIComponent

  /** The byte of an escape at the start of `s`. */
  function EscapedByte(s: string): Option<Byte>
  {
    if |s| >= 3 && s[0] == '%' then
      match (HexValue(s[1]), HexValue(s[2]))
      case (Some(high), Some(low)) => Some(high * 16 + low)
      case _ => None
    else None
  }

  /** The bytes of `k` escapes in a row at the start of `s`. */
  function ReadEscapes(s: string, k: nat): (r: Option<seq<Byte>>)
    ensures r.Some? ==> |r.value| == k && 3 * k <= |s|
    decreases k
  {
    if k == 0 then Some([])
    else
      match EscapedByte(s)
      case None => None
      case Some(b) =>
        match ReadEscapes(s[3..], k - 1)
        case None => None
        case Some(bs) => Some([b] + bs)
  }

  /** How many bytes a UTF-8 sequence with this first byte has; 0 for a byte
      that cannot start one. */
  function SequenceLength(lead: Byte): nat
  {
    if lead < 0x80 then 1
    else if 0xC0 <= lead < 0xE0 then 2
    else if 0xE0 <= lead < 0xF0 then 3
    else if 0xF0 <= lead < 0xF8 then 4
    else 0
  }

  predicate IsContinuation(b: Byte)
  {
    0x80 <= b < 0xC0
  }

  /** The scalar value a well-formed UTF-8 sequence stands for; None for an
      ill-formed one (a bad continuation byte, an over-long form, a
      surrogate, or a value past U+10FFFF). */
  function DecodeUtf8(bytes: seq<Byte>): Option<char>
  {
    if |bytes| == 1 && bytes[0] < 0x80 then
      Some(bytes[0] as char)
    else if |bytes| == 2 && 0xC0 <= bytes[0] < 0xE0 && IsContinuation(bytes[1]) then
      var n: int := (bytes[0] as int - 0xC0) * 64 + (bytes[1] - 0x80);
      if 0x80 <= n then Some(n as char) else None
    else if |bytes| == 3 && 0xE0 <= bytes[0] < 0xF0 && IsContinuation(bytes[1]) && IsContinuation(bytes[2]) then
      var n: int := ((bytes[0] as int - 0xE0) * 64 + (bytes[1] - 0x80)) * 64 + (bytes[2] - 0x80);
      if 0x800 <= n && !(0xD800 <= n < 0xE000) then Some(n as char) else None
    else if |bytes| == 4 && 0xF0 <= bytes[0] < 0xF8 && IsContinuation(bytes[1]) && IsContinuation(bytes[2])
            && IsContinuation(bytes[3]) then
      var n: int := (((bytes[0] as int - 0xF0) * 64 + (bytes[1] - 0x80)) * 64 + (bytes[2] - 0x80)) * 64 + (bytes[3] - 0x80);
      if 0x1_0000 <= n < 0x11_0000 then Some(n as char) else None
    else None
  }

  function Prepend(c: char, rest: Option<string>): Option<string>
  {
    match rest
    case None => None
    case Some(t) => Some([c] + t)
  }

  /** `decodeURIComponent(s)`; None where the function throws a URIError. */
  function DecodeURIComponent(s: string): Option<string>
    decreases |s|
  {
    if s == [] then Some([])
    else if s[0] != '%' then Prepend(s[0], DecodeURIComponent(s[1..]))
    else
      match EscapedByte(s)
      case None => None
      case Some(lead) =>
        var len := SequenceLength(lead);
        if len == 0 then None
        else
          match ReadEscapes(s, len)
          case None => None
          case Some(bytes) =>
            match DecodeUtf8(bytes)
            case None => None
            case Some(c) => Prepend(c, DecodeURIComponent(s[3 * len..]))
  }

  lemma HexDigitValue(d: nat)
    requires d < 16
    ensures HexValue(HexDigit(d)) == Some(d)
  {
  }

  lemma EscapedByteOfEscape(b: Byte, rest: string)
    ensures EscapedByte(Escape(b) + rest) == Some(b)
  {
    HexDigitValue(b / 16);
    HexDigitValue(b % 16);
  }

  lemma {:induction false} ReadEscapesOfEscapeAll(bytes: seq<Byte>, rest: string)
    ensures ReadEscapes(EscapeAll(bytes) + rest, |bytes|) == Some(bytes)
    decreases |bytes|
  {
    if bytes != [] {
      var s := EscapeAll(bytes) + rest;
      assert s == Escape(bytes[0]) + (EscapeAll(bytes[1..]) + rest);
      EscapedByteOfEscape(bytes[0], EscapeAll(bytes[1..]) + rest);
      assert s[3..] == EscapeAll(bytes[1..]) + rest;
      ReadEscapesOfEscapeAll(bytes[1..], rest);
      assert [bytes[0]] + bytes[1..] == bytes;
    }
  }

  /** UTF-8 decoding undoes UTF-8 encoding, and the first byte announces
      the length of the sequence. */
  lemma DecodeUtf8OfUtf8(c: char)
    ensures SequenceLength(Utf8(c)[0]) == |Utf8(c)|
    ensures DecodeUtf8(Utf8(c)) == Some(c)
  {
    var n := c as int;
    if n < 0x80 {
    } else if n < 0x800 {
      assert (n / 64) * 64 + n % 64 == n;
    } else if n < 0x1_0000 {
      var q := n / 64;
      assert (q / 64) * 64 + q % 64 == q;
      assert q * 64 + n % 64 == n;
    } else {
      var q := n / 64;
      var q2 := q / 64;
      assert (q2 / 64) * 64 + q2 % 64 == q2;
      assert q2 * 64 + q % 64 == q;
      assert q * 64 + n % 64 == n;
    }
  }

  /** Decoding the encoding of one character gives that character back and
      goes on right after its encoding. */
  lemma DecodeEncodeChar(c: char, rest: string)
    ensures DecodeURIComponent(EncodeChar(c) + rest) == Prepend(c, DecodeURIComponent(rest))
  {
    var s := EncodeChar(c) + rest;
    if IsUnreserved(c) {
      assert s[0] == c && s[1..] == rest;
    } else {
      var bytes := Utf8(c);
      DecodeUtf8OfUtf8(c);
      assert s == Escape(bytes[0]) + (EscapeAll(bytes[1..]) + rest);
      EscapedByteOfEscape(bytes[0], EscapeAll(bytes[1..]) + rest);
      ReadEscapesOfEscapeAll(bytes, rest);
      assert s[3 * |bytes|..] == rest;
    }
  }

  /** `decodeURIComponent(encodeURIComponent(s)) == s` for every string. */
  lemma {:induction false} DecodeEncode(s: string)
    ensures DecodeURIComponent(EncodeURIComponent(s)) == Some(s)
    decreases |s|
  {
    if s != [] {
      DecodeEncode(s[1..]);
      DecodeEncodeChar(s[0], EncodeURIComponent(s[1..]));
      assert [s[0]] + s[1..] == s;
    }
  }

  // ---------------------------------------------------------- toQueryString

  /** `${encodeURIComponent(key)}=${encodeURIComponent(value)}` */
  function EncodePair(entry: (string, string)): string
  {
    EncodeURIComponent(entry.0) + "=" + EncodeURIComponent(entry.1)
  }

  /** `Object.entries(params).map(...)`: one encoded pair per entry, in order. */
  function EncodePairs(entries: seq<(string, string)>): (pairs: seq<string>)
    ensures |pairs| == |entries|
    ensures forall i :: 0 <= i < |entries| ==> pairs[i] == EncodePair(entries[i])
    decreases |entries|
  {
    if entries == [] then [] else [EncodePair(entries[0])] + EncodePairs(entries[1..])
  }

  /** `toQueryString(params)`, the object given as its entries in the order
      `Object.entries` lists them. */
  function ToQueryString(entries: seq<(string, string)>): (q: string)
    ensures |q| >= 1 && q[0] == '?'
    ensures entries == [] <==> q == "?"
  {
    var joined := Strings.Join(EncodePairs(entries), '&');
    assert entries != [] ==> |joined| > 0 by {
      if entries != [] {
        var pairs := EncodePairs(entries);
        assert '=' in pairs[0];
        assert |pairs| > 1 ==> joined == pairs[0] + ['&'] + Strings.Join(pairs[1..], '&');
      }
    }
    "?" + joined
  }

  // ------------------------------------------------------ reading it back

  /** A `key=value` piece, both halves decoded; None if it has no single `=`
      or a half does not decode. */
  function ParsePair(piece: string): Option<(string, string)>
  {
    var halves := Strings.Split(piece, '=');
    if |halves| != 2 then None
    else
      match (DecodeURIComponent(halves[0]), DecodeURIComponent(halves[1]))
      case (Some(key), Some(value)) => Some((key, value))
      case _ => None
  }

  function ParsePairs(pieces: seq<string>): Option<seq<(string, string)>>
    decreases |pieces|
  {
    if pieces == [] then Some([])
    else
      match (ParsePair(pieces[0]), ParsePairs(pieces[1..]))
      case (Some(entry), Some(entries)) => Some([entry] + entries)
      case _ => None
  }

  /** Reads a query string: `?`, then `&`-separated `key=value` pieces. */
  function ParseQuery(q: string): Option<seq<(string, string)>>
  {
    if |q| == 0 || q[0] != '?' then None
    else if q == "?" then Some([])
    else ParsePairs(Strings.Split(q[1..], '&'))
  }

  /** An encoded pair splits on `=` into exactly its encoded key and value. */
  lemma PairSplitsOnEquals(entry: (string, string))
    ensures Strings.Split(EncodePair(entry), '=') == [EncodeURIComponent(entry.0), EncodeURIComponent(entry.1)]
    ensures '&' !in EncodePair(entry)
  {
    var k, v := EncodeURIComponent(entry.0), EncodeURIComponent(entry.1);
    assert '=' !in k && '=' !in v;
    assert Strings.Join([k, v], '=') == EncodePair(entry);
    Strings.SplitJoin([k, v], '=');
  }

  /** After the `?`, splitting on `&` and then on `=` recovers the encoded
      key and value of every entry, in entry order. */
  lemma QuerySplitsIntoEncodedPairs(entries: seq<(string, string)>)
    requires entries != []
    ensures var pieces := Strings.Split(ToQueryString(entries)[1..], '&');
            |pieces| == |entries| &&
            forall i :: 0 <= i < |entries| ==>
              Strings.Split(pieces[i], '=') == [EncodeURIComponent(entries[i].0), EncodeURIComponent(entries[i].1)]
  {
    var pairs := EncodePairs(entries);
    forall i | 0 <= i < |pairs|
      ensures '&' !in pairs[i]
      ensures Strings.Split(pairs[i], '=') == [EncodeURIComponent(entries[i].0), EncodeURIComponent(entries[i].1)]
    {
      PairSplitsOnEquals(entries[i]);
    }
    assert ToQueryString(entries)[1..] == Strings.Join(pairs, '&');
    Strings.SplitJoin(pairs, '&');
  }

  lemma {:induction false} ParseEncodedPairs(entries: seq<(string, string)>)
    ensures ParsePairs(EncodePairs(entries)) == Some(entries)
    decreases |entries|
  {
    if entries != [] {
      var entry := entries[0];
      PairSplitsOnEquals(entry);
      DecodeEncode(entry.0);
      DecodeEncode(entry.1);
      ParseEncodedPairs(entries[1..]);
      assert EncodePairs(entries)[1..] == EncodePairs(entries[1..]);
      assert [entry] + entries[1..] == entries;
    }
  }

  /** Reading a query string back gives exactly the entries it was built
      from, in order: toQueryString loses nothing, whatever the keys and
      values contain. */
  lemma QueryRoundTrip(entries: seq<(string, string)>)
    ensures ParseQuery(ToQueryString(entries)) == Some(entries)
  {
    if entries != [] {
      QuerySplitsIntoEncodedPairs(entries);
      var pairs := EncodePairs(entries);
      forall i | 0 <= i < |pairs| ensures '&' !in pairs[i] {
        PairSplitsOnEquals(entries[i]);
      }
      assert ToQueryString(entries)[1..] == Strings.Join(pairs, '&');
      Strings.SplitJoin(pairs, '&');
      ParseEncodedPairs(entries);
    }
  }
}
