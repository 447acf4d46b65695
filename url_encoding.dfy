// Query strings as Python's urllib.parse builds and reads them: `urlencode`
// with `quote_plus` over the UTF-8 bytes of each text on the way out, and
// `urlparse(...).query` with `parse_qs` (separator '&', blank values
// dropped, undecodable bytes replaced by U+FFFD) on the way back.
module UrlEncoding {
  import opened Wrappers
  import opened Text

  type Byte = b: int | 0 <= b < 256

  // ------------------------------------------------------------ UTF-8

  /** The UTF-8 bytes of one character. */
  function CharBytes(c: char): (r: seq<Byte>)
    ensures 1 <= |r| <= 4
  {
    var n := c as int;
    if n < 0x80 then [n]
    else if n < 0x800 then [0xC0 + n / 64, 0x80 + n % 64]
    else if n < 0x10000 then [0xE0 + n / 4096, 0x80 + n / 64 % 64, 0x80 + n % 64]
    else [0xF0 + n / 262144, 0x80 + n / 4096 % 64, 0x80 + n / 64 % 64, 0x80 + n % 64]
  }

  /** `s.encode('utf-8')`. */
  function Utf8(s: string): (r: seq<Byte>)
    ensures |r| >= |s|
  {
    if s == [] then [] else CharBytes(s[0]) + Utf8(s[1..])
  }

  /** How many bytes a sequence opened by this byte has; 0 for a byte that opens none. */
  function SeqLength(lead: Byte): nat
  {
    if lead < 0x80 then 1
    else if 0xC2 <= lead <= 0xDF then 2
    else if 0xE0 <= lead <= 0xEF then 3
    else if 0xF0 <= lead <= 0xF4 then 4
    else 0
  }

  /** The range of the byte after a lead byte in well-formed UTF-8 (no overlong forms, surrogates or code points past U+10FFFF). */
  function SecondLow(lead: Byte): int
  {
    if lead == 0xE0 then 0xA0 else if lead == 0xF0 then 0x90 else 0x80
  }

  function SecondHigh(lead: Byte): int
  {
    if lead == 0xED then 0x9F else if lead == 0xF4 then 0x8F else 0xBF
  }

  predicate Continuation(b: Byte) { 0x80 <= b <= 0xBF }

  /**
   * The length of the longest start of `bs` that begins some well-formed
   * sequence, at least 1: what the decoder consumes before emitting a
   * character, or one U+FFFD for the maximal invalid part.
   */
  function Prefix(bs: seq<Byte>): (k: nat)
    requires bs != []
    ensures 1 <= k <= |bs| && k <= 4
  {
    var n := SeqLength(bs[0]);
    if n <= 1 || |bs| < 2 || !(SecondLow(bs[0]) <= bs[1] <= SecondHigh(bs[0])) then 1
    else if n == 2 || |bs| < 3 || !Continuation(bs[2]) then 2
    else if n == 3 || |bs| < 4 || !Continuation(bs[3]) then 3
    else 4
  }

  /** The start of `bs` is a whole well-formed sequence. */
  predicate Complete(bs: seq<Byte>)
  {
    bs != [] && Prefix(bs) == SeqLength(bs[0])
  }

  /** The code point of the well-formed sequence at the start of `bs`. */
  function CodePoint(bs: seq<Byte>): int
    requires Complete(bs)
  {
    var n := SeqLength(bs[0]);
    var b0: int := bs[0];
    if n == 1 then b0
    else if n == 2 then (b0 - 0xC0) * 64 + (bs[1] as int - 0x80)
    else if n == 3 then (b0 - 0xE0) * 4096 + (bs[1] as int - 0x80) * 64 + (bs[2] as int - 0x80)
    else (b0 - 0xF0) * 262144 + (bs[1] as int - 0x80) * 4096 + (bs[2] as int - 0x80) * 64 + (bs[3] as int - 0x80)
  }

  /** A well-formed sequence decodes to a Unicode scalar value. */
  lemma {:induction false} CodePointIsScalar(bs: seq<Byte>)
    requires Complete(bs)
    ensures 0 <= CodePoint(bs) < 0xD800 || 0xE000 <= CodePoint(bs) <= 0x10FFFF
  {
    var n := SeqLength(bs[0]);
    var b0: int := bs[0];
    if n == 3 {
      if bs[0] == 0xED {
        assert bs[1] <= 0x9F;
      } else if bs[0] >= 0xEE {
        assert (b0 - 0xE0) * 4096 >= 0xE000;
      } else {
        assert (b0 - 0xE0) * 4096 <= 0xC000;
      }
    } else if n == 4 {
      if bs[0] == 0xF4 {
        assert bs[1] <= 0x8F;
      } else {
        assert (b0 - 0xF0) * 262144 <= 3 * 262144;
      }
    }
  }

  /** `bs.decode('utf-8', 'replace')`. */
  function Decode(bs: seq<Byte>): string
    decreases |bs|
  {
    if bs == [] then []
    else
      var k := Prefix(bs);
      if k == SeqLength(bs[0]) then
        CodePointIsScalar(bs);
        [CodePoint(bs) as char] + Decode(bs[k..])
      else
        ['�'] + Decode(bs[k..])
  }

  /** A character's bytes open a whole well-formed sequence whose code point is the character's. */
  lemma {:induction false} CharBytesComplete(c: char, tail: seq<Byte>)
    ensures var bs := CharBytes(c) + tail;
      Prefix(bs) == |CharBytes(c)| == SeqLength(bs[0]) && CodePoint(bs) == c as int
  {
    var n := c as int;
    if n < 0x80 {
    } else if n < 0x800 {
      assert n == n / 64 * 64 + n % 64;
    } else if n < 0x10000 {
      ThreeBytes(n, tail);
    } else {
      FourBytes(n, tail);
    }
  }

  lemma {:induction false} ThreeBytes(n: int, tail: seq<Byte>)
    requires 0x800 <= n < 0x10000 && !(0xD800 <= n < 0xE000)
    ensures var bs := [0xE0 + n / 4096, 0x80 + n / 64 % 64, 0x80 + n % 64] + tail;
      Prefix(bs) == 3 == SeqLength(bs[0]) && CodePoint(bs) == n
  {
    assert n / 64 == n / 4096 * 64 + n / 64 % 64;
    assert n == n / 64 * 64 + n % 64;
    if n / 4096 == 0 {
      assert n / 64 % 64 >= 32;
    }
    if n / 4096 == 13 {
      assert n / 64 % 64 <= 31;
    }
  }

  lemma {:induction false} FourBytes(n: int, tail: seq<Byte>)
    requires 0x10000 <= n <= 0x10FFFF
    ensures var bs := [0xF0 + n / 262144, 0x80 + n / 4096 % 64, 0x80 + n / 64 % 64, 0x80 + n % 64] + tail;
      Prefix(bs) == 4 == SeqLength(bs[0]) && CodePoint(bs) == n
  {
    assert n / 4096 == n / 262144 * 64 + n / 4096 % 64;
    assert n / 64 == n / 4096 * 64 + n / 64 % 64;
    assert n == n / 64 * 64 + n % 64;
    if n / 262144 == 0 {
      assert n / 4096 % 64 >= 16;
    }
    if n / 262144 == 4 {
      assert n / 4096 % 64 <= 15;
    }
  }

  /** Decoding a character's bytes gives the character back, whatever follows. */
  lemma {:induction false} DecodeChar(c: char, tail: seq<Byte>)
    ensures Decode(CharBytes(c) + tail) == [c] + Decode(tail)
  {
    var e := CharBytes(c);
    var bs := e + tail;
    assert bs[|e|..] == tail;
    CharBytesComplete(c, tail);
  }

  /** UTF-8 decoding undoes UTF-8 encoding. */
  lemma {:induction false} DecodeUtf8(s: string)
    ensures Decode(Utf8(s)) == s
  {
    if s != [] {
      DecodeChar(s[0], Utf8(s[1..]));
      DecodeUtf8(s[1..]);
      assert [s[0]] + s[1..] == s;
    }
  }

  // ------------------------------------------------------------ quoting

  /** `_ALWAYS_SAFE`: the ASCII letters and digits and `_.-~`, which quoting leaves as they are. */
  predicate AlwaysSafe(b: int)
  {
    'A' as int <= b <= 'Z' as int || 'a' as int <= b <= 'z' as int || '0' as int <= b <= '9' as int ||
    b == '_' as int || b == '.' as int || b == '-' as int || b == '~' as int
  }

  /** An upper-case hexadecimal digit, as `quote` writes them. */
  function HexDigit(d: int): (c: char)
    requires 0 <= d < 16
  {
    if d < 10 then ('0' as int + d) as char else ('A' as int + d - 10) as char
  }

  /** A hexadecimal digit in either case, as `unquote` accepts them. */
  predicate IsHex(c: char)
  {
    '0' <= c <= '9' || 'a' <= c <= 'f' || 'A' <= c <= 'F'
  }

  function HexValue(c: char): (d: int)
    requires IsHex(c)
    ensures 0 <= d < 16
  {
    if '0' <= c <= '9' then c as int - '0' as int
    else if 'a' <= c <= 'f' then c as int - 'a' as int + 10
    else c as int - 'A' as int + 10
  }

  /** `quote_plus` of one byte: safe bytes as they are, a space as '+', anything else as `%XX`. */
  function QuoteByte(b: Byte): string
  {
    if AlwaysSafe(b) then [b as char]
    else if b == 0x20 then "+"
    else ['%', HexDigit(b / 16), HexDigit(b % 16)]
  }

  function QuoteBytes(bs: seq<Byte>): string
  {
    if bs == [] then [] else QuoteByte(bs[0]) + QuoteBytes(bs[1..])
  }

  /** `quote_plus(s, safe='')`. */
  function QuotePlus(s: string): string
  {
    QuoteBytes(Utf8(s))
  }

  /** The characters quoting produces. */
  predicate QuotedChar(c: char)
  {
    AlwaysSafe(c as int) || c == '+' || c == '%'
  }

  lemma {:induction false} QuoteBytesChars(bs: seq<Byte>)
    ensures forall i | 0 <= i < |QuoteBytes(bs)| :: QuotedChar(QuoteBytes(bs)[i])
    ensures |QuoteBytes(bs)| >= |bs|
  {
    if bs != [] {
      QuoteBytesChars(bs[1..]);
      var q := QuoteByte(bs[0]);
      assert forall i | 0 <= i < |q| :: QuotedChar(q[i]);
    }
  }

  /** What quoting produces has no '&', '=', '#' or '?', so it cannot break the query around it. */
  lemma QuotePlusIsPlain(s: string)
    ensures '&' !in QuotePlus(s) && '=' !in QuotePlus(s) && '#' !in QuotePlus(s) && '?' !in QuotePlus(s)
    ensures QuotePlus(s) == [] <==> s == []
  {
    QuoteBytesChars(Utf8(s));
  }

  // ------------------------------------------------------------ unquoting

  /** A piece of a text being unquoted: a byte (an ASCII character or a `%XX` escape) or a wider character kept as it is. */
  datatype Unit = Raw(b: Byte) | Wide(c: char)

  function Units(s: string): seq<Unit>
  {
    if s == [] then []
    else if s[0] == '%' && |s| >= 3 && IsHex(s[1]) && IsHex(s[2]) then
      [Raw(HexValue(s[1]) * 16 + HexValue(s[2]))] + Units(s[3..])
    else if s[0] as int < 0x80 then [Raw(s[0] as int)] + Units(s[1..])
    else [Wide(s[0])] + Units(s[1..])
  }

  /** Each run of bytes decoded as UTF-8 with replacement; wider characters kept. `run` holds the bytes of the run so far. */
  function DecodeUnits(u: seq<Unit>, run: seq<Byte>): string
  {
    if u == [] then Decode(run)
    else if u[0].Raw? then DecodeUnits(u[1..], run + [u[0].b])
    else Decode(run) + [u[0].c] + DecodeUnits(u[1..], [])
  }

  /** `unquote(s)`: escapes and ASCII bytes decoded as UTF-8 run by run, other characters unchanged. */
  function Unquote(s: string): string
  {
    DecodeUnits(Units(s), [])
  }

  /** `unquote(s.replace('+', ' '))`, as `parse_qsl` reads names and values. */
  function UnquotePlus(s: string): string
  {
    Unquote(ReplaceChar(s, '+', ' '))
  }

  function RawUnits(bs: seq<Byte>): seq<Unit>
  {
    if bs == [] then [] else [Raw(bs[0])] + RawUnits(bs[1..])
  }

  lemma {:induction false} ReplaceCharAppend(a: string, b: string, x: char, y: char)
    ensures ReplaceChar(a + b, x, y) == ReplaceChar(a, x, y) + ReplaceChar(b, x, y)
  {
    var l := ReplaceChar(a + b, x, y);
    var r := ReplaceChar(a, x, y) + ReplaceChar(b, x, y);
    assert |l| == |r|;
    forall i | 0 <= i < |l|
      ensures l[i] == r[i]
    {
      if i < |a| {
        assert (a + b)[i] == a[i];
      } else {
        assert (a + b)[i] == b[i - |a|];
      }
    }
  }

  lemma {:induction false} HexDigitValue(d: int)
    requires 0 <= d < 16
    ensures IsHex(HexDigit(d)) && HexValue(HexDigit(d)) == d
  {
  }

  /** One quoted byte, with '+' turned back into a space, reads as that byte whatever follows it. */
  lemma {:induction false} UnitsOfQuotedByte(b: Byte, rest: string)
    ensures Units(ReplaceChar(QuoteByte(b), '+', ' ') + rest) == [Raw(b)] + Units(rest)
  {
    var s := ReplaceChar(QuoteByte(b), '+', ' ') + rest;
    if AlwaysSafe(b) {
      assert s == [b as char] + rest;
      assert s[1..] == rest;
    } else if b == 0x20 {
      assert s == [' '] + rest;
      assert s[1..] == rest;
    } else {
      HexDigitValue(b / 16);
      HexDigitValue(b % 16);
      assert s == ['%', HexDigit(b / 16), HexDigit(b % 16)] + rest;
      assert s[3..] == rest;
    }
  }

  /** With '+' turned back into spaces, a quoted byte string reads as those bytes again. */
  lemma {:induction false} UnitsOfQuoted(bs: seq<Byte>)
    ensures Units(ReplaceChar(QuoteBytes(bs), '+', ' ')) == RawUnits(bs)
  {
    if bs != [] {
      ReplaceCharAppend(QuoteByte(bs[0]), QuoteBytes(bs[1..]), '+', ' ');
      UnitsOfQuoted(bs[1..]);
      UnitsOfQuotedByte(bs[0], ReplaceChar(QuoteBytes(bs[1..]), '+', ' '));
    }
  }

  lemma {:induction false} DecodeRawUnits(bs: seq<Byte>, run: seq<Byte>)
    ensures DecodeUnits(RawUnits(bs), run) == Decode(run + bs)
  {
    if bs != [] {
      var u := RawUnits(bs);
      assert u[0] == Raw(bs[0]) && u[1..] == RawUnits(bs[1..]);
      DecodeRawUnits(bs[1..], run + [bs[0]]);
      assert bs == [bs[0]] + bs[1..];
      assert run + [bs[0]] + bs[1..] == run + bs;
    } else {
      assert run + bs == run;
    }
  }

  /** `unquote_plus(quote_plus(s)) == s`: every text survives a trip through a query string. */
  lemma UnquoteQuote(s: string)
    ensures UnquotePlus(QuotePlus(s)) == s
  {
    UnitsOfQuoted(Utf8(s));
    DecodeRawUnits(Utf8(s), []);
    assert [] + Utf8(s) == Utf8(s);
    DecodeUtf8(s);
  }

  // ------------------------------------------------------------ query strings

  /** `urlencode(params)` for text keys and values, in order. */
  function UrlEncode(params: seq<(string, string)>): string
  {
    Join(EncodedPairs(params), "&")
  }

  function EncodedPairs(params: seq<(string, string)>): (r: seq<string>)
    ensures |r| == |params|
  {
    if params == [] then []
    else [QuotePlus(params[0].0) + "=" + QuotePlus(params[0].1)] + EncodedPairs(params[1..])
  }

  /** The text before the first `c`, all of `s` when there is none: `s.split(c, 1)[0]`. */
  function Before(s: string, c: char): string
  {
    if s == [] || s[0] == c then [] else [s[0]] + Before(s[1..], c)
  }

  /** The text after the first `c`, empty when there is none. */
  function After(s: string, c: char): string
  {
    if s == [] then [] else if s[0] == c then s[1..] else After(s[1..], c)
  }

  lemma {:induction false} BeforeAfter(a: string, b: string, c: char)
    requires c !in a
    ensures Before(a + [c] + b, c) == a && After(a + [c] + b, c) == b
  {
    if a == [] {
      assert (a + [c] + b)[1..] == b;
    } else {
      assert (a + [c] + b)[1..] == a[1..] + [c] + b;
      BeforeAfter(a[1..], b, c);
      assert [a[0]] + a[1..] == a;
    }
  }

  lemma {:induction false} BeforeWithout(s: string, c: char)
    requires c !in s
    ensures Before(s, c) == s
  {
    if s != [] {
      BeforeWithout(s[1..], c);
      assert [s[0]] + s[1..] == s;
    }
  }

  /** `urlparse(url).query`: after the first '?' of what precedes the fragment, empty without a '?'. */
  function QueryOf(url: string): string
  {
    var u := Before(url, '#');
    if '?' in u then After(u, '?') else ""
  }

  /** The fields of a query in order, as `parse_qsl` keeps them: fields without '=' or with an empty value are dropped. */
  function Fields(parts: seq<string>): seq<(string, string)>
  {
    if parts == [] then []
    else
      var p := parts[0];
      if '=' !in p || After(p, '=') == [] then Fields(parts[1..])
      else [(UnquotePlus(Before(p, '=')), UnquotePlus(After(p, '=')))] + Fields(parts[1..])
  }

  /** `parse_qsl(qs)`. */
  function ParseQsl(qs: string): seq<(string, string)>
  {
    Fields(Split(qs, '&'))
  }

  /** `parse_qs(qs).get(name, [''])[0]`: the first value given for `name`, or nothing. */
  function FirstValue(params: seq<(string, string)>, name: string): Option<string>
  {
    if params == [] then None
    else if params[0].0 == name then Some(params[0].1)
    else FirstValue(params[1..], name)
  }

  /** The parameters with a value: what survives a trip through a query string. */
  function NonBlank(params: seq<(string, string)>): seq<(string, string)>
  {
    if params == [] then []
    else if params[0].1 == [] then NonBlank(params[1..])
    else [params[0]] + NonBlank(params[1..])
  }

  lemma {:induction false} SplitJoin(parts: seq<string>, sep: char)
    requires parts != []
    requires forall k | 0 <= k < |parts| :: sep !in parts[k]
    ensures Split(Join(parts, [sep]), sep) == parts
  {
    if |parts| == 1 {
      SplitWithoutSeparator(parts[0], sep);
    } else {
      SplitJoin(parts[1..], sep);
      SplitAtFirst(parts[0], Join(parts[1..], [sep]), sep);
      assert [parts[0]] + parts[1..] == parts;
    }
  }

  /** No encoded pair holds a separator of the query or of the URL around it. */
  lemma {:induction false} EncodedPairsAvoid(params: seq<(string, string)>, c: char)
    requires c == '&' || c == '#' || c == '?'
    ensures forall k | 0 <= k < |params| :: c !in EncodedPairs(params)[k]
  {
    if params != [] {
      EncodedPairsAvoid(params[1..], c);
      QuotePlusIsPlain(params[0].0);
      QuotePlusIsPlain(params[0].1);
      assert EncodedPairs(params)[1..] == EncodedPairs(params[1..]);
    }
  }

  lemma {:induction false} FieldsOfEncoded(params: seq<(string, string)>)
    ensures Fields(EncodedPairs(params)) == NonBlank(params)
  {
    if params != [] {
      var (k, v) := params[0];
      QuotePlusIsPlain(k);
      QuotePlusIsPlain(v);
      var p := QuotePlus(k) + "=" + QuotePlus(v);
      BeforeAfter(QuotePlus(k), QuotePlus(v), '=');
      assert p == QuotePlus(k) + ['='] + QuotePlus(v);
      assert '=' in p by { assert p[|QuotePlus(k)|] == '='; }
      UnquoteQuote(k);
      UnquoteQuote(v);
      FieldsOfEncoded(params[1..]);
      assert EncodedPairs(params)[1..] == EncodedPairs(params[1..]);
    }
  }

  /** `parse_qsl(urlencode(params))` gives back every parameter with a value, in order. */
  lemma ParseEncoded(params: seq<(string, string)>)
    ensures ParseQsl(UrlEncode(params)) == NonBlank(params)
  {
    if params == [] {
      assert Split("", '&') == [""];
    } else {
      EncodedPairsAvoid(params, '&');
      SplitJoin(EncodedPairs(params), '&');
      FieldsOfEncoded(params);
    }
  }

  /** The query of `base?query` is `query`, for a base without '?' or '#' and an encoded query. */
  lemma QueryOfEncoded(base: string, params: seq<(string, string)>)
    requires '?' !in base && '#' !in base
    ensures QueryOf(base + "?" + UrlEncode(params)) == UrlEncode(params)
  {
    var q := UrlEncode(params);
    var url := base + "?" + q;
    assert '#' !in q by { EncodedPairsAvoid(params, '#'); JoinAvoids(EncodedPairs(params), '&', '#'); }
    assert '#' !in url;
    BeforeWithout(url, '#');
    assert url == base + ['?'] + q;
    assert url[|base|] == '?';
    BeforeAfter(base, q, '?');
  }

  lemma {:induction false} JoinAvoids(parts: seq<string>, sep: char, c: char)
    requires sep != c
    requires forall k | 0 <= k < |parts| :: c !in parts[k]
    ensures c !in Join(parts, [sep])
  {
    if |parts| > 1 {
      JoinAvoids(parts[1..], sep, c);
    }
  }
}
