/** The part of Python's `json.dumps` (default settings: `ensure_ascii=True`,
    separators `", "` and `": "`) that the tool catalog needs: string quoting
    and comma-separated lists. Its partner is `Unescape`, the string-escape
    decoding of section 7 of RFC 8259. */
module Json {
  import opened Wrappers
  import opened Text

  /** Lower-case hexadecimal digit, as Python's encoder writes them. */
  function HexDigit(d: nat): (c: char)
    requires d < 16
    ensures IsDigit(c) || 'a' <= c <= 'f'
  {
    if d < 10 then DigitChar(d) else ('a' as int + d - 10) as char
  }

  predicate IsHexDigit(c: char) {
    IsDigit(c) || ('a' <= c <= 'f') || ('A' <= c <= 'F')
  }

  function HexDigitValue(c: char): (d: nat)
    requires IsHexDigit(c)
    ensures d < 16
  {
    if IsDigit(c) then DigitValue(c)
    else if 'a' <= c <= 'f' then c as int - 'a' as int + 10
    else c as int - 'A' as int + 10
  }

  lemma HexDigitRoundTrip(d: nat)
    requires d < 16
    ensures IsHexDigit(HexDigit(d)) && HexDigitValue(HexDigit(d)) == d
  {
  }

  /** Two hexadecimal digits of a byte. */
  function Hex2(n: nat): string
    requires n < 0x100
  {
    [HexDigit(n / 0x10), HexDigit(n % 0x10)]
  }

  /** The four hexadecimal digits of a 16-bit code unit. */
  function Hex4(n: nat): string
    requires n < 0x10000
  {
    Hex2(n / 0x100) + Hex2(n % 0x100)
  }

  predicate IsHex4(h: string) {
    |h| == 4 && IsHexDigit(h[0]) && IsHexDigit(h[1]) && IsHexDigit(h[2]) && IsHexDigit(h[3])
  }

  function HexValue(h: string): nat
    requires IsHex4(h)
  {
    (HexDigitValue(h[0]) * 0x10 + HexDigitValue(h[1])) * 0x100
      + HexDigitValue(h[2]) * 0x10 + HexDigitValue(h[3])
  }

  lemma Hex4RoundTrip(n: nat)
    requires n < 0x10000
    ensures IsHex4(Hex4(n)) && HexValue(Hex4(n)) == n
  {
    var hi, lo := n / 0x100, n % 0x100;
    HexDigitRoundTrip(hi / 0x10);
    HexDigitRoundTrip(hi % 0x10);
    HexDigitRoundTrip(lo / 0x10);
    HexDigitRoundTrip(lo % 0x10);
    assert hi == hi / 0x10 * 0x10 + hi % 0x10;
    assert lo == lo / 0x10 * 0x10 + lo % 0x10;
    assert n == hi * 0x100 + lo;
  }

  /** `\uXXXX` for one UTF-16 code unit. */
  function UnicodeEscape(n: nat): string
    requires n < 0x10000
  {
    "\\u" + Hex4(n)
  }

  /** Printable ASCII: the only characters `ensure_ascii` leaves as they are
      (apart from the quote and the backslash). */
  predicate IsPrintableAscii(c: char) {
    ' ' <= c <= '~'
  }

  /** How the encoder writes one character inside a JSON string. Characters
      outside the Basic Multilingual Plane become a UTF-16 surrogate pair. */
  function EscapeChar(c: char): string {
    if c == '"' then "\\\""
    else if c == '\\' then "\\\\"
    else if c == '\n' then "\\n"
    else if c == '\r' then "\\r"
    else if c == '\t' then "\\t"
    else if c == '\U{8}' then "\\b"
    else if c == '\U{c}' then "\\f"
    else if IsPrintableAscii(c) then [c]
    else if c as int < 0x10000 then UnicodeEscape(c as int)
    else
      var m := c as int - 0x10000;
      UnicodeEscape(0xD800 + m / 0x400) + UnicodeEscape(0xDC00 + m % 0x400)
  }

  function Escape(s: string): string {
    if s == [] then [] else EscapeChar(s[0]) + Escape(s[1..])
  }

  /** A JSON string literal for `s`. */
  function Quote(s: string): string {
    "\"" + Escape(s) + "\""
  }

  /** Characters that reach the output unchanged. */
  predicate IsPlain(s: string) {
    forall k :: 0 <= k < |s| ==> IsPrintableAscii(s[k]) && s[k] != '"' && s[k] != '\\'
  }

  /** Plain text is written as it is: a registered name such as `add` appears
      verbatim in the catalog. */
  lemma {:induction false} EscapePlain(s: string)
    requires IsPlain(s)
    ensures Escape(s) == s
  {
    if s != [] {
      EscapePlain(s[1..]);
    }
  }

  function Prepend(c: char, o: Option<string>): Option<string> {
    match o
    case None => None
    case Some(s) => Some([c] + s)
  }

  function SimpleEscapeValue(e: char): char
    requires e in "\"\\/bfnrt"
  {
    match e
    case '"' => '"'
    case '\\' => '\\'
    case '/' => '/'
    case 'b' => '\U{8}'
    case 'f' => '\U{c}'
    case 'n' => '\n'
    case 'r' => '\r'
    case 't' => '\t'
  }

  /** Decodes the contents of a JSON string literal (section 7 of RFC 8259):
      `None` for a bare quote, a bare control character, an unknown escape or
      an unpaired surrogate. */
  function Unescape(t: string): Option<string>
    decreases |t|
  {
    if t == [] then Some([])
    else if t[0] != '\\' then
      if t[0] == '"' || t[0] < ' ' then None else Prepend(t[0], Unescape(t[1..]))
    else if |t| < 2 then None
    else if t[1] in "\"\\/bfnrt" then Prepend(SimpleEscapeValue(t[1]), Unescape(t[2..]))
    else if t[1] == 'u' && |t| >= 6 && IsHex4(t[2..6]) then
      var n := HexValue(t[2..6]);
      if 0xD800 <= n < 0xDC00 then
        if |t| >= 12 && t[6..8] == "\\u" && IsHex4(t[8..12])
           && 0xDC00 <= HexValue(t[8..12]) < 0xE000
        then
          Prepend(PairValue(n, HexValue(t[8..12])) as char, Unescape(t[12..]))
        else None
      else if 0xDC00 <= n < 0xE000 then None
      else Prepend(n as char, Unescape(t[6..]))
    else None
  }

  lemma ShortEscapeRoundTrip(c: char, rest: string)
    requires c in "\"\\\n\r\t\U{8}\U{c}"
    ensures Unescape(EscapeChar(c) + rest) == Prepend(c, Unescape(rest))
  {
    var t := EscapeChar(c) + rest;
    assert t[0] == '\\' && t[2..] == rest;
  }

  lemma PlainRoundTrip(c: char, rest: string)
    requires IsPrintableAscii(c) && c != '"' && c != '\\'
    ensures Unescape(EscapeChar(c) + rest) == Prepend(c, Unescape(rest))
  {
    var t := EscapeChar(c) + rest;
    assert t[0] == c && t[1..] == rest;
  }

  lemma BmpRoundTrip(c: char, rest: string)
    requires !IsPrintableAscii(c) && c !in "\n\r\t\U{8}\U{c}" && c as int < 0x10000
    ensures Unescape(EscapeChar(c) + rest) == Prepend(c, Unescape(rest))
  {
    var t := UnicodeEscape(c as int) + rest;
    assert EscapeChar(c) == UnicodeEscape(c as int);
    Hex4RoundTrip(c as int);
    assert t[0] == '\\' && t[1] == 'u' && t[2..6] == Hex4(c as int) && t[6..] == rest;
  }

  /** The code point a high and a low surrogate stand for together. */
  function PairValue(hi: nat, lo: nat): (code: nat)
    requires 0xD800 <= hi < 0xDC00 && 0xDC00 <= lo < 0xE000
    ensures 0x10000 <= code < 0x110000
  {
    0x10000 + (hi - 0xD800) * 0x400 + (lo - 0xDC00)
  }

  lemma PairRoundTrip(hi: nat, lo: nat, rest: string)
    requires 0xD800 <= hi < 0xDC00 && 0xDC00 <= lo < 0xE000
    ensures Unescape(UnicodeEscape(hi) + UnicodeEscape(lo) + rest)
         == Prepend(PairValue(hi, lo) as char, Unescape(rest))
  {
    var t := UnicodeEscape(hi) + UnicodeEscape(lo) + rest;
    Hex4RoundTrip(hi);
    Hex4RoundTrip(lo);
    assert t[0] == '\\' && t[1] == 'u' && t[2..6] == Hex4(hi);
    assert t[6..8] == "\\u" && t[8..12] == Hex4(lo) && t[12..] == rest;
  }

  lemma SurrogatePairRoundTrip(c: char, rest: string)
    requires c as int >= 0x10000
    ensures Unescape(EscapeChar(c) + rest) == Prepend(c, Unescape(rest))
  {
    var m := c as int - 0x10000;
    var hi, lo := 0xD800 + m / 0x400, 0xDC00 + m % 0x400;
    assert EscapeChar(c) == UnicodeEscape(hi) + UnicodeEscape(lo);
    PairRoundTrip(hi, lo, rest);
    assert PairValue(hi, lo) == c as int;
  }

  lemma EscapeCharRoundTrip(c: char, rest: string)
    ensures Unescape(EscapeChar(c) + rest) == Prepend(c, Unescape(rest))
  {
    if c in "\"\\\n\r\t\U{8}\U{c}" {
      ShortEscapeRoundTrip(c, rest);
    } else if IsPrintableAscii(c) {
      PlainRoundTrip(c, rest);
    } else if c as int < 0x10000 {
      BmpRoundTrip(c, rest);
    } else {
      SurrogatePairRoundTrip(c, rest);
    }
  }

  /** Decoding undoes the encoder: distinct strings stay distinct in the
      catalog, and every string can be read back from it. */
  lemma {:induction false} EscapeRoundTrip(s: string)
    ensures Unescape(Escape(s)) == Some(s)
  {
    if s != [] {
      EscapeCharRoundTrip(s[0], Escape(s[1..]));
      EscapeRoundTrip(s[1..]);
      assert [s[0]] + s[1..] == s;
    }
  }

  /** `", ".join(xs)`, the separator `json.dumps` puts between list items
      and between object members. */
  function Join(xs: seq<string>): string
    decreases |xs|
  {
    if |xs| == 0 then ""
    else if |xs| == 1 then xs[0]
    else Join(xs[..|xs| - 1]) + ", " + xs[|xs| - 1]
  }

  /** Where item `i` starts in `Join(xs)`. */
  function ItemOffset(xs: seq<string>, i: nat): nat
    requires i < |xs|
  {
    if i == 0 then 0 else |Join(xs[..i])| + 2
  }

  /** Item `i` is written, unchanged, at `ItemOffset(xs, i)`. */
  lemma {:induction false} JoinAt(xs: seq<string>, i: nat)
    requires i < |xs|
    ensures ItemOffset(xs, i) + |xs[i]| <= |Join(xs)|
    ensures Join(xs)[ItemOffset(xs, i)..ItemOffset(xs, i) + |xs[i]|] == xs[i]
    decreases |xs|
  {
    var n := |xs|;
    if n > 1 {
      var init := xs[..n - 1];
      if i < n - 1 {
        assert init[..i] == xs[..i];
        JoinAt(init, i);
        assert Join(xs)[..|Join(init)|] == Join(init);
      }
    }
  }

  /** Items appear in list order: item `i` ends before item `j` starts. */
  lemma JoinOrder(xs: seq<string>, i: nat, j: nat)
    requires i < j < |xs|
    ensures ItemOffset(xs, i) + |xs[i]| < ItemOffset(xs, j)
  {
    var ys := xs[..j];
    assert ys[..i] == xs[..i];
    JoinAt(ys, i);
  }

  /** The JSON values the catalog is made of. */
  datatype Json =
    | JString(s: string)
    | JArray(items: seq<Json>)
      /** A dict: its keys in insertion order. */
    | JObject(members: seq<(string, Json)>)

  /** `json.dumps(v)`: items and members separated by `", "`, a key and its
      value by `": "`. */
  function Encode(v: Json): string
    decreases v, 1
  {
    match v
    case JString(s) => Quote(s)
    case JArray(items) => "[" + Join(ItemTexts(v)) + "]"
    case JObject(members) => "{" + Join(MemberTexts(v)) + "}"
  }

  function ItemTexts(v: Json): (r: seq<string>)
    requires v.JArray?
    ensures |r| == |v.items|
    decreases v, 0
  {
    seq(|v.items|, i requires 0 <= i < |v.items| => Encode(v.items[i]))
  }

  function MemberTexts(v: Json): (r: seq<string>)
    requires v.JObject?
    ensures |r| == |v.members|
    decreases v, 0
  {
    seq(|v.members|, i requires 0 <= i < |v.members| => MemberText(v.members[i].0, v.members[i].1))
  }

  function MemberText(key: string, value: Json): string
    decreases value, 2
  {
    Quote(key) + ": " + Encode(value)
  }

  /** `[a, b]` or `{a, b}`: item `i` of the list is written, unchanged, at
      `1 + ItemOffset(texts, i)`. */
  lemma BracketedAt(open: char, texts: seq<string>, close: char, i: nat)
    requires i < |texts|
    ensures 1 + ItemOffset(texts, i) + |texts[i]| <= |[open] + Join(texts) + [close]|
    ensures ([open] + Join(texts) + [close])[1 + ItemOffset(texts, i)..1 + ItemOffset(texts, i) + |texts[i]|]
         == texts[i]
  {
    var j := Join(texts);
    var o := ItemOffset(texts, i);
    JoinAt(texts, i);
    var a := [open] + j + [close];
    assert a[1..1 + |j|] == j;
    SliceOfSlice(a, 1, 1 + |j|, o, o + |texts[i]|);
  }

  /** Element `i` of an array is written, whole, at `ArrayOffset(items, i)`. */
  function ArrayOffset(items: seq<Json>, i: nat): nat
    requires i < |items|
  {
    1 + ItemOffset(ItemTexts(JArray(items)), i)
  }

  lemma ArrayAt(items: seq<Json>, i: nat)
    requires i < |items|
    ensures ArrayOffset(items, i) + |Encode(items[i])| <= |Encode(JArray(items))|
    ensures Encode(JArray(items))[ArrayOffset(items, i)..ArrayOffset(items, i) + |Encode(items[i])|]
         == Encode(items[i])
  {
    var v := JArray(items);
    BracketedAt('[', ItemTexts(v), ']', i);
    assert Encode(v) == ['['] + Join(ItemTexts(v)) + [']'];
  }

  /** Elements appear in list order: element `i` ends before element `j` starts. */
  lemma ArrayOrder(items: seq<Json>, i: nat, j: nat)
    requires i < j < |items|
    ensures ArrayOffset(items, i) + |Encode(items[i])| < ArrayOffset(items, j)
  {
    JoinOrder(ItemTexts(JArray(items)), i, j);
  }

  /** The value of every member occurs in the text of an object. */
  lemma ObjectContains(members: seq<(string, Json)>, i: nat)
    requires i < |members|
    ensures Contains(Encode(JObject(members)), Encode(members[i].1))
  {
    var v := JObject(members);
    var texts := MemberTexts(v);
    BracketedAt('{', texts, '}', i);
    assert Encode(v) == ['{'] + Join(texts) + ['}'];
    ContainsSlice(Encode(v), 1 + ItemOffset(texts, i), texts[i]);
    var key, value := members[i].0, members[i].1;
    assert texts[i] == MemberText(key, value);
    assert texts[i][|Quote(key)| + 2..] == Encode(value);
    ContainsSlice(texts[i], |Quote(key)| + 2, Encode(value));
    ContainsTransitive(Encode(v), texts[i], Encode(value));
  }
}
