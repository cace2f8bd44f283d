/**
 * The text operations the adapters build requests from: rendering an int
 * the way C# interpolation does, `string.Split`, `ToLowerInvariant` on
 * ASCII, `Uri.EscapeDataString`, and a reader for the query part of a
 * relative URL that the request-building lemmas are stated against.
 */
module Text {
  import opened Common

  predicate IsDigit(c: char) { '0' <= c <= '9' }

  predicate AllDigits(s: string) { forall i :: 0 <= i < |s| ==> IsDigit(s[i]) }

  function DigitChar(d: nat): (c: char)
    requires d < 10
    ensures IsDigit(c) && c as int - '0' as int == d
  {
    ('0' as int + d) as char
  }

  /** Decimal digits of `n`, most significant first. */
  function NatToString(n: nat): (s: string)
    ensures |s| > 0 && AllDigits(s)
    decreases n
  {
    if n < 10 then [DigitChar(n)] else NatToString(n / 10) + [DigitChar(n % 10)]
  }

  /** An int as `$"{i}"` renders it: a minus sign for negatives, then the digits. */
  function IntToString(i: int): (s: string)
    ensures |s| > 0
    ensures forall k :: 0 <= k < |s| ==> IsDigit(s[k]) || s[k] == '-'
  {
    if i < 0 then "-" + NatToString(-i) else NatToString(i)
  }

  function ParseNat(s: string): nat
    requires AllDigits(s)
  {
    if s == [] then 0 else ParseNat(s[..|s| - 1]) * 10 + (s[|s| - 1] as int - '0' as int)
  }

  /** Reads an optionally negative decimal numeral back. */
  function ParseInt(s: string): Option<int> {
    if |s| > 1 && s[0] == '-' && AllDigits(s[1..]) then Some(-(ParseNat(s[1..]) as int))
    else if |s| > 0 && AllDigits(s) then Some(ParseNat(s))
    else None
  }

  lemma {:induction false} ParseNatToString(n: nat)
    ensures ParseNat(NatToString(n)) == n
    decreases n
  {
    if n >= 10 {
      var s := NatToString(n);
      assert s[..|s| - 1] == NatToString(n / 10);
      ParseNatToString(n / 10);
    }
  }

  /** Rendering an int loses nothing: the numeral reads back as the same int. */
  lemma ParseIntToString(i: int)
    ensures ParseInt(IntToString(i)) == Some(i)
  {
    if i < 0 {
      var s := IntToString(i);
      assert s[1..] == NatToString(-i);
      ParseNatToString(-i);
    } else {
      ParseNatToString(i);
    }
  }

  lemma IntToStringInjective(a: int, b: int)
    ensures IntToString(a) == IntToString(b) ==> a == b
  {
    ParseIntToString(a);
    ParseIntToString(b);
  }

  // ---------------------------------------------------------------------------
  // string.Split(char) and its inverse

  function Count(s: string, c: char): nat {
    if s == [] then 0 else (if s[0] == c then 1 else 0) + Count(s[1..], c)
  }

  /** `s.Split(c)` with default options: every separator cuts, empty pieces are kept. */
  function Split(s: string, c: char): (parts: seq<string>)
    ensures |parts| == Count(s, c) + 1
    ensures forall i :: 0 <= i < |parts| ==> c !in parts[i]
  {
    if s == [] then [""]
    else
      var rest := Split(s[1..], c);
      if s[0] == c then [""] + rest else [[s[0]] + rest[0]] + rest[1..]
  }

  /** The pieces glued back together with `c` between neighbours. */
  function Join(parts: seq<string>, c: char): string
    requires |parts| >= 1
  {
    if |parts| == 1 then parts[0] else parts[0] + [c] + Join(parts[1..], c)
  }

  /** Splitting loses nothing: joining the pieces gives the text back. */
  lemma {:induction false} JoinSplit(s: string, c: char)
    ensures Join(Split(s, c), c) == s
  {
    if s != [] {
      var rest := Split(s[1..], c);
      JoinSplit(s[1..], c);
      if s[0] == c {
        assert Split(s, c)[1..] == rest;
      } else if |rest| == 1 {
        assert Join(Split(s, c), c) == [s[0]] + rest[0];
      } else {
        var parts := Split(s, c);
        assert parts[1..] == rest[1..];
        assert Join(rest, c) == rest[0] + [c] + Join(rest[1..], c);
        assert Join(parts, c) == [s[0]] + rest[0] + [c] + Join(rest[1..], c);
      }
    }
  }

  lemma {:induction false} SplitWithoutSeparator(s: string, c: char)
    requires c !in s
    ensures Split(s, c) == [s]
  {
    if s != [] {
      SplitWithoutSeparator(s[1..], c);
      assert [s[0]] + s[1..] == s;
    }
  }

  /** A separator after a separator-free prefix cuts exactly there. */
  lemma {:induction false} SplitAtFirst(a: string, b: string, c: char)
    requires c !in a
    ensures Split(a + [c] + b, c) == [a] + Split(b, c)
  {
    var s := a + [c] + b;
    if a == [] {
      assert s[1..] == b;
    } else {
      assert s[1..] == a[1..] + [c] + b;
      SplitAtFirst(a[1..], b, c);
      assert [a[0]] + a[1..] == a;
    }
  }

  /** A separator before a separator-free suffix adds that suffix as the last piece. */
  lemma {:induction false} SplitAtLast(a: string, b: string, c: char)
    requires c !in b
    ensures Split(a + [c] + b, c) == Split(a, c) + [b]
  {
    var s := a + [c] + b;
    if a == [] {
      assert s[1..] == b;
      SplitWithoutSeparator(b, c);
    } else {
      assert s[1..] == a[1..] + [c] + b;
      SplitAtLast(a[1..], b, c);
    }
  }

  /** Joining separator-free pieces and splitting again gives the pieces back. */
  lemma {:induction false} SplitJoin(parts: seq<string>, c: char)
    requires |parts| >= 1
    requires forall i :: 0 <= i < |parts| ==> c !in parts[i]
    ensures Split(Join(parts, c), c) == parts
  {
    if |parts| == 1 {
      SplitWithoutSeparator(parts[0], c);
    } else {
      SplitJoin(parts[1..], c);
      SplitAtFirst(parts[0], Join(parts[1..], c), c);
    }
  }

  /** The text before the first `c` and the text after it; `(s, "")` when `c` does not occur. */
  function SplitOnce(s: string, c: char): (pair: (string, string))
    ensures c !in pair.0
    ensures c in s ==> pair.0 + [c] + pair.1 == s
    ensures c !in s ==> pair == (s, "")
  {
    if s == [] then ("", "")
    else if s[0] == c then ("", s[1..])
    else
      var p := SplitOnce(s[1..], c);
      assert s == [s[0]] + s[1..];
      ([s[0]] + p.0, p.1)
  }

  lemma {:induction false} SplitOnceAt(a: string, b: string, c: char)
    requires c !in a
    ensures SplitOnce(a + [c] + b, c) == (a, b)
  {
    var s := a + [c] + b;
    if a == [] {
      assert s[1..] == b;
    } else {
      assert s[1..] == a[1..] + [c] + b;
      SplitOnceAt(a[1..], b, c);
      assert [a[0]] + a[1..] == a;
    }
  }

  // ---------------------------------------------------------------------------
  // Query strings

  /** Each piece of a query cut at its first '=' into a key and a value. */
  function ParsePairs(pieces: seq<string>): (params: seq<(string, string)>)
    ensures |params| == |pieces|
  {
    if pieces == [] then [] else ParsePairs(pieces[..|pieces| - 1]) + [SplitOnce(pieces[|pieces| - 1], '=')]
  }

  /**
   * The parameters of a relative URL as a server reads them: the text after
   * the first '?', cut at every '&', each piece cut at its first '='.
   */
  function QueryParams(url: string): seq<(string, string)> {
    ParsePairs(Split(SplitOnce(url, '?').1, '&'))
  }

  /** The path of a relative URL: the text before its first '?'. */
  function PathOf(url: string): string {
    SplitOnce(url, '?').0
  }

  /** A key and a value that can stand in a query string without being cut apart. */
  predicate SafeParam(key: string, value: string) {
    '&' !in key && '=' !in key && '&' !in value
  }

  predicate SafeParams(params: seq<(string, string)>) {
    forall i :: 0 <= i < |params| ==> SafeParam(params[i].0, params[i].1)
  }

  lemma SafeParamsAppend(a: seq<(string, string)>, b: seq<(string, string)>)
    requires SafeParams(a) && SafeParams(b)
    ensures SafeParams(a + b)
  {
    forall i | 0 <= i < |a + b|
      ensures SafeParam((a + b)[i].0, (a + b)[i].1)
    {
      if i >= |a| {
        assert (a + b)[i] == b[i - |a|];
      }
    }
  }

  predicate HasParam(params: seq<(string, string)>, key: string) {
    exists i :: 0 <= i < |params| && params[i].0 == key
  }

  /** `key=value`. */
  function Pair(key: string, value: string): string {
    key + "=" + value
  }

  /** `url += $"&{key}={value}"`. */
  function AddParam(url: string, key: string, value: string): string {
    url + "&" + Pair(key, value)
  }

  /** `$"{path}?{k1}={v1}&{k2}={v2}..."`: a path followed by its parameters in order. */
  function Url(path: string, params: seq<(string, string)>): string
    requires |params| >= 1
  {
    if |params| == 1 then path + "?" + Pair(params[0].0, params[0].1)
    else
      var last := params[|params| - 1];
      AddParam(Url(path, params[..|params| - 1]), last.0, last.1)
  }

  /** A safe pair reads back as its key and value, and has no '&' to be cut at. */
  lemma PairReadsBack(key: string, value: string)
    requires SafeParam(key, value)
    ensures '&' !in Pair(key, value)
    ensures SplitOnce(Pair(key, value), '=') == (key, value)
  {
    SplitOnceAt(key, value, '=');
  }

  /** Text after a URL's first '?' goes to its query part; the path stays. */
  lemma SplitOnceAfter(url: string, tail: string)
    requires '?' in url
    ensures SplitOnce(url + tail, '?') == (SplitOnce(url, '?').0, SplitOnce(url, '?').1 + tail)
  {
    var (before, query) := SplitOnce(url, '?');
    assert url + tail == before + ['?'] + (query + tail);
    SplitOnceAt(before, query + tail, '?');
  }

  lemma ParsePairsSnoc(pieces: seq<string>, piece: string)
    ensures ParsePairs(pieces + [piece]) == ParsePairs(pieces) + [SplitOnce(piece, '=')]
  {
    assert (pieces + [piece])[..|pieces|] == pieces;
  }

  /** `path?key=value` reads back as the path and the single parameter `(key, value)`. */
  lemma UrlReadsBackOne(path: string, key: string, value: string)
    requires '?' !in path && SafeParam(key, value)
    ensures '?' in path + "?" + Pair(key, value)
    ensures PathOf(path + "?" + Pair(key, value)) == path
    ensures QueryParams(path + "?" + Pair(key, value)) == [(key, value)]
  {
    var kv := Pair(key, value);
    assert path + "?" + kv == path + ['?'] + kv;
    SplitOnceAt(path, kv, '?');
    PairReadsBack(key, value);
    SplitWithoutSeparator(kv, '&');
    ParsePairsSnoc([], kv);
  }

  /** Appending `&key=value` to a URL with a query keeps its path and adds exactly that parameter. */
  lemma UrlReadsBackMore(url: string, key: string, value: string)
    requires '?' in url && SafeParam(key, value)
    ensures '?' in AddParam(url, key, value)
    ensures PathOf(AddParam(url, key, value)) == PathOf(url)
    ensures QueryParams(AddParam(url, key, value)) == QueryParams(url) + [(key, value)]
  {
    var kv := Pair(key, value);
    var query := SplitOnce(url, '?').1;
    assert AddParam(url, key, value) == url + (['&'] + kv);
    SplitOnceAfter(url, ['&'] + kv);
    assert query + (['&'] + kv) == query + ['&'] + kv;
    PairReadsBack(key, value);
    SplitAtLast(query, kv, '&');
    ParsePairsSnoc(Split(query, '&'), kv);
  }

  /** A URL built from a '?'-free path and safe parameters reads back as that path and those parameters. */
  lemma {:induction false} UrlReadsBack(path: string, params: seq<(string, string)>)
    requires '?' !in path && |params| >= 1 && SafeParams(params)
    ensures '?' in Url(path, params)
    ensures PathOf(Url(path, params)) == path
    ensures QueryParams(Url(path, params)) == params
    decreases |params|
  {
    if |params| == 1 {
      UrlReadsBackOne(path, params[0].0, params[0].1);
      assert [(params[0].0, params[0].1)] == params;
    } else {
      var init, last := params[..|params| - 1], params[|params| - 1];
      UrlReadsBack(path, init);
      UrlReadsBackMore(Url(path, init), last.0, last.1);
      assert init + [last] == params;
    }
  }

  /** A built URL, followed by one more parameter when a value is given, reads back as the path and the parameters. */
  lemma UrlReadsBackOptional(path: string, params: seq<(string, string)>, key: string, value: Option<string>)
    requires '?' !in path && |params| >= 1 && SafeParams(params)
    requires value.Some? ==> SafeParam(key, value.value)
    ensures var url := if value.Some? then AddParam(Url(path, params), key, value.value) else Url(path, params);
            PathOf(url) == path && QueryParams(url) == params + (if value.Some? then [(key, value.value)] else [])
  {
    UrlReadsBack(path, params);
    if value.Some? {
      UrlReadsBackMore(Url(path, params), key, value.value);
    } else {
      assert params + [] == params;
    }
  }

  /** Adding a parameter to a built URL is building it with one more parameter. */
  lemma UrlSnoc(path: string, params: seq<(string, string)>, key: string, value: string)
    requires |params| >= 1
    ensures AddParam(Url(path, params), key, value) == Url(path, params + [(key, value)])
  {
    assert (params + [(key, value)])[..|params|] == params;
  }

  // ---------------------------------------------------------------------------
  // ToLowerInvariant (ASCII letters) and Uri.EscapeDataString

  function ToLowerChar(c: char): char {
    if 'A' <= c <= 'Z' then (c as int + 32) as char else c
  }

  function ToLower(s: string): string {
    seq(|s|, i requires 0 <= i < |s| => ToLowerChar(s[i]))
  }

  /** The characters RFC 3986 calls unreserved; EscapeDataString leaves exactly these as they are. */
  predicate IsUnreserved(c: char) {
    'A' <= c <= 'Z' || 'a' <= c <= 'z' || '0' <= c <= '9' || c == '-' || c == '_' || c == '.' || c == '~'
  }

  /** The UTF-8 encoding of one Unicode scalar value. */
  function Utf8(c: char): (bytes: seq<int>)
    ensures 1 <= |bytes| <= 4
    ensures forall i :: 0 <= i < |bytes| ==> 0 <= bytes[i] < 256
  {
    var cp := c as int;
    if cp < 0x80 then [cp]
    else if cp < 0x800 then [0xC0 + cp / 0x40, 0x80 + cp % 0x40]
    else if cp < 0x1_0000 then [0xE0 + cp / 0x1000, 0x80 + (cp / 0x40) % 0x40, 0x80 + cp % 0x40]
    else [0xF0 + cp / 0x4_0000, 0x80 + (cp / 0x1000) % 0x40, 0x80 + (cp / 0x40) % 0x40, 0x80 + cp % 0x40]
  }

  function HexDigit(d: int): (c: char)
    requires 0 <= d < 16
    ensures IsUnreserved(c)
  {
    if d < 10 then ('0' as int + d) as char else ('A' as int + d - 10) as char
  }

  /** `%XX` per byte, upper-case hexadecimal. */
  function PercentEncode(bytes: seq<int>): (s: string)
    requires forall i :: 0 <= i < |bytes| ==> 0 <= bytes[i] < 256
    ensures |s| == 3 * |bytes|
    ensures forall i :: 0 <= i < |s| ==> s[i] == '%' || IsUnreserved(s[i])
  {
    if bytes == [] then ""
    else ['%', HexDigit(bytes[0] / 16), HexDigit(bytes[0] % 16)] + PercentEncode(bytes[1..])
  }

  /**
   * `Uri.EscapeDataString`: unreserved characters stay, every other character
   * becomes the percent-encoding of its UTF-8 bytes. The result holds no
   * query delimiter, so it can stand as a query value.
   */
  function EscapeDataString(s: string): (r: string)
    ensures forall i :: 0 <= i < |r| ==> r[i] == '%' || IsUnreserved(r[i])
    ensures '&' !in r && '=' !in r && '?' !in r && '/' !in r
  {
    if s == [] then ""
    else (if IsUnreserved(s[0]) then [s[0]] else PercentEncode(Utf8(s[0]))) + EscapeDataString(s[1..])
  }
}
