/** The only expressions the tool registry can evaluate: a single call with
    keyword arguments whose values are literals,

        name ( key = literal , key = literal , ... )

    Python's `eval` accepts far more; this grammar is the part of it that a
    tool call can use without naming anything other than a registered tool.
    As in Python, the text is first split into tokens (`Lex`) and the tokens
    are then parsed (`ParseTokens`). `Parse` accepts only well-formed calls,
    and `ParseCallText` shows that it reads back every call `CallText`
    prints. */
module CallSyntax {
  import opened Wrappers
  import opened Text

  /** The Python values a call passes to a tool or a tool returns. */
  datatype Value =
    | IntValue(i: int)
    | BoolValue(b: bool)
    | StrValue(s: string)
    | NoneValue
      /** Any other object, given by the text `str()` produces for it. */
    | Other(text: string)

  /** The most decimal digits Python converts an integer to or from
      (`sys.int_info.default_max_str_digits`). */
  const MaxStrDigits := 4300

  /** The `ValueError` of converting a longer integer to text. */
  const DigitLimitMessage := "Exceeds the limit (4300 digits) for integer string conversion; use sys.set_int_max_str_digits() to increase the limit"

  /** The number of decimal digits of `i`, the sign not counted. */
  function DigitCount(i: int): nat {
    |Digits(if i < 0 then -i else i)|
  }

  /** Python's `str(v)`, or the message of the `ValueError` it raises (see
      `StrOfInt`). */
  function Str(v: Value): Result<string, string> {
    match v
    case IntValue(i) => if DigitCount(i) > MaxStrDigits then Err(DigitLimitMessage) else Ok(IntToString(i))
    case BoolValue(b) => Ok(if b then "True" else "False")
    case StrValue(s) => Ok(s)
    case NoneValue => Ok("None")
    case Other(text) => Ok(text)
  }

  /** `str` of a string is the string itself. */
  lemma StrOfStr(s: string)
    ensures Str(StrValue(s)) == Ok(s)
  {
  }

  /** `str` of an integer of at most 4300 digits is written in decimal,
      with a minus sign when negative, and reads back as the same number; a
      longer one raises the digit-limit `ValueError`. */
  lemma StrOfInt(i: int)
    ensures DigitCount(i) > MaxStrDigits ==> Str(IntValue(i)) == Err(DigitLimitMessage)
    ensures DigitCount(i) <= MaxStrDigits && i >= 0 ==>
      Str(IntValue(i)).Ok? && AllDigits(Str(IntValue(i)).value) && DigitsValue(Str(IntValue(i)).value) == i
    ensures DigitCount(i) <= MaxStrDigits && i < 0 ==> Str(IntValue(i)).Ok? && var r := Str(IntValue(i)).value;
      r != [] && r[0] == '-' && AllDigits(r[1..]) && DigitsValue(r[1..]) == -i
  {
    DigitsRoundTrip(if i < 0 then -i else i);
    if i < 0 {
      assert IntToString(i)[1..] == Digits(-i);
    }
  }

  /** A parsed directive: the callee's name and the keyword arguments in the
      order they were written. */
  datatype Call = Call(name: string, args: seq<(string, Value)>)

  /** White space the Python tokenizer skips between tokens. */
  predicate IsBlank(c: char) {
    c == ' ' || c == '\t' || c == '\U{c}'
  }

  predicate IsIdentStart(c: char) {
    ('a' <= c <= 'z') || ('A' <= c <= 'Z') || c == '_'
  }

  predicate IsIdentChar(c: char) {
    IsIdentStart(c) || IsDigit(c)
  }

  predicate AllIdentChars(s: string) {
    forall k :: 0 <= k < |s| ==> IsIdentChar(s[k])
  }

  /** An identifier (reserved words included). */
  predicate IsIdent(s: string) {
    |s| > 0 && IsIdentStart(s[0]) && AllIdentChars(s)
  }

  /** Python's reserved words, numbered; none of them can name a function
      or a keyword argument. */
  function Keyword(i: nat): string
    requires i < KeywordCount
  {
    if i == 0 then "False"
    else if i == 1 then "None"
    else if i == 2 then "True"
    else if i == 3 then "and"
    else if i == 4 then "as"
    else if i == 5 then "assert"
    else if i == 6 then "async"
    else if i == 7 then "await"
    else if i == 8 then "break"
    else if i == 9 then "class"
    else if i == 10 then "continue"
    else if i == 11 then "def"
    else if i == 12 then "del"
    else if i == 13 then "elif"
    else if i == 14 then "else"
    else if i == 15 then "except"
    else if i == 16 then "finally"
    else if i == 17 then "for"
    else if i == 18 then "from"
    else if i == 19 then "global"
    else if i == 20 then "if"
    else if i == 21 then "import"
    else if i == 22 then "in"
    else if i == 23 then "is"
    else if i == 24 then "lambda"
    else if i == 25 then "nonlocal"
    else if i == 26 then "not"
    else if i == 27 then "or"
    else if i == 28 then "pass"
    else if i == 29 then "raise"
    else if i == 30 then "return"
    else if i == 31 then "try"
    else if i == 32 then "while"
    else if i == 33 then "with"
    else "yield"
  }

  const KeywordCount := 35

  /** `w` is one of the reserved words numbered `i` and up. */
  predicate ReservedFrom(w: string, i: nat)
    requires i <= KeywordCount
    decreases KeywordCount - i
  {
    i < KeywordCount && (w == Keyword(i) || ReservedFrom(w, i + 1))
  }

  /** A word that differs from every reserved word numbered `i` and up is
      not reserved. */
  lemma {:induction false} UnreservedFrom(w: string, i: nat)
    requires i <= KeywordCount
    requires forall k :: i <= k < KeywordCount ==> Keyword(k) != w
    ensures !ReservedFrom(w, i)
    decreases KeywordCount - i
  {
    if i < KeywordCount {
      UnreservedFrom(w, i + 1);
    }
  }

  /** An identifier that is not a reserved word. */
  predicate IsName(s: string) {
    IsIdent(s) && !ReservedFrom(s, 0)
  }

  /** A value that can be written as a literal of the grammar: a string
      without backslashes, line breaks or NUL characters that can be quoted
      with one of the two quote characters, an integer of at most 4300
      digits, a boolean, or `None`. */
  predicate IsLiteral(v: Value) {
    match v
    case StrValue(s) =>
      '\\' !in s && '\n' !in s && '\r' !in s && '\0' !in s && !('\'' in s && '"' in s)
    case IntValue(i) => DigitCount(i) <= MaxStrDigits
    case Other(_) => false
    case _ => true
  }

  /** Keyword arguments that name distinct parameters (Python rejects a
      repeated keyword as a syntax error). */
  predicate DistinctKeys(args: seq<(string, Value)>) {
    forall i, j :: 0 <= i < j < |args| ==> args[i].0 != args[j].0
  }

  /** A keyword argument the grammar can express; Python refuses
      `__debug__` as a keyword. */
  predicate IsArg(arg: (string, Value)) {
    IsName(arg.0) && arg.0 != "__debug__" && IsLiteral(arg.1)
  }

  predicate AllArgs(args: seq<(string, Value)>) {
    forall i :: 0 <= i < |args| ==> IsArg(args[i])
  }

  /** What can be called: a name, or one of the constants `None`, `True`
      and `False` (which Python compiles and then fails to call). */
  predicate IsCallee(w: string) {
    IsName(w) || w == "None" || w == "True" || w == "False"
  }

  /** A call the grammar can express. */
  predicate WellFormed(c: Call) {
    IsCallee(c.name) && AllArgs(c.args) && DistinctKeys(c.args)
  }

  // ---------------------------------------------------------------------
  // Tokens

  /** The tokens of Python's tokenizer that occur in a call of the grammar. */
  datatype Token =
    | Name(word: string)
    | Number(value: nat)
    | Quoted(quote: char, body: string)
    | Op(symbol: char)

  predicate IsQuote(c: char) {
    c == '\'' || c == '"'
  }

  predicate IsOp(c: char) {
    c == '(' || c == ')' || c == '=' || c == ',' || c == '-'
  }

  /** A character that may stand inside a string literal closed by `q`. */
  predicate InStringLiteral(c: char, q: char) {
    c != q && c != '\\' && c != '\n' && c != '\r' && c != '\0'
  }

  predicate AllZeros(s: string) {
    forall k :: 0 <= k < |s| ==> s[k] == '0'
  }

  predicate ValidToken(t: Token) {
    match t
    case Name(w) => IsIdent(w)
    case Number(n) => |Digits(n)| <= MaxStrDigits
    case Quoted(q, body) => IsQuote(q) && forall k :: 0 <= k < |body| ==> InStringLiteral(body[k], q)
    case Op(c) => IsOp(c)
  }

  predicate AllValid(ts: seq<Token>) {
    forall i :: 0 <= i < |ts| ==> ValidToken(ts[i])
  }

  /** The source text of a token. */
  function TokenText(t: Token): string {
    match t
    case Name(w) => w
    case Number(n) => Digits(n)
    case Quoted(q, body) => [q] + body + [q]
    case Op(c) => [c]
  }

  /** The tokens written one after the other, each followed by a blank. */
  function Render(ts: seq<Token>): string
    decreases |ts|
  {
    if ts == [] then "" else TokenText(ts[0]) + (" " + Render(ts[1..]))
  }

  // ---------------------------------------------------------------------
  // Tokenizing

  /** The length of the run of identifier characters `s` starts with. */
  function IdentLength(s: string): (n: nat)
    ensures n <= |s| && AllIdentChars(s[..n])
    ensures n == |s| || !IsIdentChar(s[n])
  {
    if |s| > 0 && IsIdentChar(s[0]) then
      var n := 1 + IdentLength(s[1..]);
      assert forall k :: 1 <= k < n ==> s[..n][k] == s[1..][..n - 1][k - 1];
      n
    else 0
  }

  /** The length of the run of decimal digits `s` starts with. */
  function DigitsLength(s: string): (n: nat)
    ensures n <= |s| && AllDigits(s[..n])
    ensures n == |s| || !IsDigit(s[n])
  {
    if |s| > 0 && IsDigit(s[0]) then
      var n := 1 + DigitsLength(s[1..]);
      assert forall k :: 1 <= k < n ==> s[..n][k] == s[1..][..n - 1][k - 1];
      n
    else 0
  }

  /** The length of the body of a string literal closed by `q`. */
  function StringBodyLength(s: string, q: char): (n: nat)
    ensures n <= |s| && forall k :: 0 <= k < n ==> InStringLiteral(s[k], q)
    ensures n == |s| || !InStringLiteral(s[n], q)
  {
    if |s| > 0 && InStringLiteral(s[0], q) then 1 + StringBodyLength(s[1..], q) else 0
  }

  /** The token `s` starts with and the text after it; `None` where Python
      fails to read it (an unclosed string, a leading zero, more than 4300
      digits) or the character cannot begin a token of the grammar. */
  function NextToken(s: string): (r: Option<(Token, string)>)
    ensures r.Some? ==> |r.value.1| < |s|
  {
    if s == [] then None
    else if IsIdentStart(s[0]) then
      var n := IdentLength(s);
      Some((Name(s[..n]), s[n..]))
    else if IsDigit(s[0]) then
      var n := DigitsLength(s);
      if s[0] == '0' && !AllZeros(s[..n]) then None
      else if n > MaxStrDigits then None
      else Some((Number(DigitsValue(s[..n])), s[n..]))
    else if IsQuote(s[0]) then
      var n := StringBodyLength(s[1..], s[0]);
      if 1 + n < |s| && s[1 + n] == s[0] then Some((Quoted(s[0], s[1..1 + n]), s[2 + n..]))
      else None
    else if IsOp(s[0]) then Some((Op(s[0]), s[1..]))
    else None
  }

  /** The tokens of `s`, blanks between them skipped. */
  function Lex(s: string): (r: Option<seq<Token>>)
    decreases |s|
  {
    if s == [] then Some([])
    else if IsBlank(s[0]) then Lex(s[1..])
    else
      var next := NextToken(s);
      if next.None? then None
      else
        var rest := Lex(next.value.1);
        if rest.None? then None else Some([next.value.0] + rest.value)
  }

  // ---------------------------------------------------------------------
  // The first line

  /** The text after the spaces and tabs it begins with, which `eval`
      drops before reading. */
  function EvalStrip(s: string): string
    decreases |s|
  {
    if s != [] && (s[0] == ' ' || s[0] == '\t') then EvalStrip(s[1..]) else s
  }

  /** Whether the blanks before the first token of `s` leave it past column
      zero, given whether the column already is: a form feed sets the
      tokenizer's column back to zero, a space or a tab moves it on. */
  predicate IndentedFrom(s: string, moved: bool)
    decreases |s|
  {
    if s == [] then false
    else if !IsBlank(s[0]) then moved
    else IndentedFrom(s[1..], s[0] != '\U{c}')
  }

  /** The first token of the text `eval` is given stands indented, which
      Python refuses (`IndentationError`). Only blanks after a form feed
      can indent it, since `eval` drops the leading spaces and tabs. */
  predicate Indented(text: string) {
    IndentedFrom(EvalStrip(text), false)
  }

  lemma NextTokenValid(s: string)
    ensures NextToken(s).Some? ==> ValidToken(NextToken(s).value.0)
  {
    if s != [] && IsDigit(s[0]) {
      var n := DigitsLength(s);
      DigitsOfValue(s[..n]);
    } else if s != [] && IsQuote(s[0]) {
      var n := StringBodyLength(s[1..], s[0]);
      if 1 + n < |s| && s[1 + n] == s[0] {
        var body := s[1..1 + n];
        assert forall k :: 0 <= k < |body| ==> body[k] == s[1..][k];
      }
    }
  }

  /** Every token the tokenizer produces is a well-formed token. */
  lemma {:induction false} LexValid(s: string)
    ensures Lex(s).Some? ==> AllValid(Lex(s).value)
    decreases |s|
  {
    if s != [] {
      if IsBlank(s[0]) {
        LexValid(s[1..]);
      } else if NextToken(s).Some? {
        var next := NextToken(s).value;
        NextTokenValid(s);
        LexValid(next.1);
        if Lex(next.1).Some? {
          var ts := [next.0] + Lex(next.1).value;
          assert forall i :: 1 <= i < |ts| ==> ts[i] == Lex(next.1).value[i - 1];
        }
      }
    }
  }

  // The tokenizer reads back what `Render` writes.

  lemma {:induction false} IdentLengthOf(w: string, rest: string)
    requires AllIdentChars(w)
    requires rest == [] || !IsIdentChar(rest[0])
    ensures IdentLength(w + rest) == |w|
  {
    if w != [] {
      assert (w + rest)[1..] == w[1..] + rest;
      IdentLengthOf(w[1..], rest);
    }
  }

  lemma {:induction false} DigitsLengthOf(w: string, rest: string)
    requires AllDigits(w)
    requires rest == [] || !IsDigit(rest[0])
    ensures DigitsLength(w + rest) == |w|
  {
    if w != [] {
      assert (w + rest)[1..] == w[1..] + rest;
      DigitsLengthOf(w[1..], rest);
    }
  }

  lemma {:induction false} StringBodyLengthOf(w: string, q: char, rest: string)
    requires forall k :: 0 <= k < |w| ==> InStringLiteral(w[k], q)
    ensures StringBodyLength(w + [q] + rest, q) == |w|
  {
    if w != [] {
      assert (w + [q] + rest)[1..] == w[1..] + [q] + rest;
      StringBodyLengthOf(w[1..], q, rest);
    }
  }

  lemma NextNameOf(w: string, rest: string)
    requires IsIdent(w) && |rest| > 0 && !IsIdentChar(rest[0])
    ensures NextToken(w + rest) == Some((Name(w), rest))
  {
    IdentLengthOf(w, rest);
    assert (w + rest)[..|w|] == w && (w + rest)[|w|..] == rest;
  }

  lemma NextNumberOf(n: nat, rest: string)
    requires |Digits(n)| <= MaxStrDigits && |rest| > 0 && !IsDigit(rest[0])
    ensures NextToken(Digits(n) + rest) == Some((Number(n), rest))
  {
    var d := Digits(n);
    DigitsLengthOf(d, rest);
    DigitsRoundTrip(n);
    assert (d + rest)[..|d|] == d && (d + rest)[|d|..] == rest;
    if d[0] == '0' {
      assert AllZeros(d);
    }
  }

  lemma NextQuotedOf(q: char, body: string, rest: string)
    requires ValidToken(Quoted(q, body))
    ensures NextToken([q] + body + [q] + rest) == Some((Quoted(q, body), rest))
  {
    var s := [q] + body + [q] + rest;
    assert s[1..] == body + [q] + rest;
    StringBodyLengthOf(body, q, rest);
    assert s[1..1 + |body|] == body && s[1 + |body|] == q && s[2 + |body|..] == rest;
  }

  lemma NextTokenOf(t: Token, rest: string)
    requires ValidToken(t) && |rest| > 0 && IsBlank(rest[0])
    ensures NextToken(TokenText(t) + rest) == Some((t, rest))
  {
    match t
    case Name(w) => NextNameOf(w, rest);
    case Number(n) => NextNumberOf(n, rest);
    case Quoted(q, body) => NextQuotedOf(q, body, rest);
    case Op(c) => NextOpOf(c, rest);
  }

  lemma NextOpOf(c: char, rest: string)
    requires IsOp(c)
    ensures NextToken([c] + rest) == Some((Op(c), rest))
  {
    assert ([c] + rest)[1..] == rest;
  }

  /** One step of the tokenizer: the first token, then the tokens of the rest. */
  lemma LexCons(s: string, t: Token, rest: string, ts: seq<Token>)
    requires s != [] && !IsBlank(s[0]) && NextToken(s) == Some((t, rest)) && Lex(rest) == Some(ts)
    ensures Lex(s) == Some([t] + ts)
  {
  }

  lemma TokenTextStart(t: Token)
    requires ValidToken(t)
    ensures TokenText(t) != [] && !IsBlank(TokenText(t)[0])
  {
  }

  /** A token, a blank and the text of more tokens read back as the token
      followed by those tokens. */
  lemma LexTokenThen(t: Token, rest: string, ts: seq<Token>)
    requires ValidToken(t) && Lex(rest) == Some(ts)
    ensures Lex(TokenText(t) + (" " + rest)) == Some([t] + ts)
  {
    var after := " " + rest;
    assert after[1..] == rest;
    assert Lex(after) == Some(ts);
    var s := TokenText(t) + after;
    NextTokenOf(t, after);
    TokenTextStart(t);
    assert s[0] == TokenText(t)[0];
    LexCons(s, t, after, ts);
  }

  /** Tokenizing rendered tokens gives the tokens back. */
  lemma {:induction false} LexRender(ts: seq<Token>)
    requires AllValid(ts)
    ensures Lex(Render(ts)) == Some(ts)
    decreases |ts|
  {
    if ts != [] {
      var more := ts[1..];
      assert AllValid(more) by {
        forall i | 0 <= i < |more|
          ensures ValidToken(more[i])
        {
          assert more[i] == ts[i + 1];
        }
      }
      LexRender(more);
      LexRenderStep(ts);
    }
  }

  lemma LexRenderStep(ts: seq<Token>)
    requires ts != [] && ValidToken(ts[0]) && Lex(Render(ts[1..])) == Some(ts[1..])
    ensures Lex(Render(ts)) == Some(ts)
  {
    var more := ts[1..];
    LexTokenThen(ts[0], Render(more), more);
    assert Render(ts) == TokenText(ts[0]) + (" " + Render(more));
    assert [ts[0]] + more == ts;
  }

  // ---------------------------------------------------------------------
  // Parsing tokens; every parser returns what it read and the tokens after it.

  /** `'text'`, `"text"`, `5`, `-5`, `True`, `False` or `None`. */
  function ParseLiteral(ts: seq<Token>): (r: Option<(Value, seq<Token>)>)
    ensures r.Some? ==> |r.value.1| < |ts|
  {
    if ts == [] then None
    else
      match ts[0]
      case Quoted(_, body) => Some((StrValue(body), ts[1..]))
      case Number(n) => Some((IntValue(n), ts[1..]))
      case Name(w) =>
        if w == "True" then Some((BoolValue(true), ts[1..]))
        else if w == "False" then Some((BoolValue(false), ts[1..]))
        else if w == "None" then Some((NoneValue, ts[1..]))
        else None
      case Op(c) =>
        if c == '-' && |ts| > 1 && ts[1].Number? then Some((IntValue(-(ts[1].value as int)), ts[2..]))
        else None
  }

  /** One `key = literal` argument. */
  function ParseArg(ts: seq<Token>): (r: Option<((string, Value), seq<Token>)>)
    ensures r.Some? ==> |r.value.1| < |ts|
  {
    if |ts| >= 2 && ts[0].Name? && IsName(ts[0].word) && ts[0].word != "__debug__" && ts[1] == Op('=') then
      var v := ParseLiteral(ts[2..]);
      if v.None? then None else Some(((ts[0].word, v.value.0), v.value.1))
    else None
  }

  /** The keyword arguments and the closing parenthesis, which must be the
      last token; a trailing comma is allowed. */
  function ParseArgs(ts: seq<Token>): (r: Option<seq<(string, Value)>>)
    decreases |ts|
  {
    if ts == [Op(')')] then Some([])
    else
      var first := ParseArg(ts);
      if first.None? then None
      else
        var rest := first.value.1;
        if rest == [Op(')')] then Some([first.value.0])
        else if |rest| > 0 && rest[0] == Op(',') then
          var more := ParseArgs(rest[1..]);
          if more.None? then None else Some([first.value.0] + more.value)
        else None
  }

  /** `name ( arguments )` and nothing after it. */
  function ParseTokens(ts: seq<Token>): (r: Option<Call>)
  {
    if |ts| >= 2 && ts[0].Name? && IsCallee(ts[0].word) && ts[1] == Op('(') then
      var args := ParseArgs(ts[2..]);
      if args.None? || !DistinctKeys(args.value) then None
      else Some(Call(ts[0].word, args.value))
    else None
  }

  /** Reads a whole call text; `None` is Python's `SyntaxError` (or an
      expression outside the grammar). Whatever it accepts is a call of the
      grammar: the callee is a plain name (no attribute access, no
      subscript, no nested call) and every argument a distinct keyword bound
      to a literal. */
  function Parse(text: string): (r: Option<Call>)
    ensures r.Some? ==> WellFormed(r.value)
  {
    var ts := Lex(text);
    if ts.None? then None
    else
      var c := ParseTokens(ts.value);
      LexValid(text);
      ParseTokensWellFormed(ts.value);
      c
  }

  // ---------------------------------------------------------------------
  // What the parsers accept

  lemma ParseLiteralGivesLiteral(ts: seq<Token>)
    requires AllValid(ts)
    ensures ParseLiteral(ts).Some? ==> IsLiteral(ParseLiteral(ts).value.0)
  {
    if ts != [] && ts[0].Quoted? {
      assert ValidToken(ts[0]);
      var body := ts[0].body;
      assert forall k :: 0 <= k < |body| ==> InStringLiteral(body[k], ts[0].quote);
    }
  }

  /** The parsers only drop tokens from the front. */
  lemma ParseLiteralRestValid(ts: seq<Token>)
    requires AllValid(ts)
    ensures ParseLiteral(ts).Some? ==> AllValid(ParseLiteral(ts).value.1)
  {
  }

  lemma ParseArgRestValid(ts: seq<Token>)
    requires AllValid(ts)
    ensures ParseArg(ts).Some? ==> AllValid(ParseArg(ts).value.1)
  {
    if |ts| >= 2 {
      ParseLiteralRestValid(ts[2..]);
    }
  }

  lemma ParseArgGivesArg(ts: seq<Token>)
    requires AllValid(ts)
    ensures ParseArg(ts).Some? ==> IsArg(ParseArg(ts).value.0)
  {
    if |ts| >= 2 {
      ParseLiteralGivesLiteral(ts[2..]);
    }
  }

  lemma {:induction false} ParseArgsGiveArgs(ts: seq<Token>)
    requires AllValid(ts)
    ensures ParseArgs(ts).Some? ==> AllArgs(ParseArgs(ts).value)
    decreases |ts|
  {
    if ts != [Op(')')] && ParseArg(ts).Some? {
      ParseArgGivesArg(ts);
      ParseArgRestValid(ts);
      var rest := ParseArg(ts).value.1;
      if rest != [Op(')')] && |rest| > 0 && rest[0] == Op(',') {
        ParseArgsGiveArgs(rest[1..]);
        if ParseArgs(rest[1..]).Some? {
          var more := ParseArgs(rest[1..]).value;
          var args := [ParseArg(ts).value.0] + more;
          assert forall i :: 1 <= i < |args| ==> args[i] == more[i - 1];
        }
      }
    }
  }

  lemma ParseTokensWellFormed(ts: seq<Token>)
    requires AllValid(ts)
    ensures ParseTokens(ts).Some? ==> WellFormed(ParseTokens(ts).value)
  {
    if |ts| >= 2 {
      ParseArgsGiveArgs(ts[2..]);
    }
  }

  // ---------------------------------------------------------------------
  // Printing, and the parser reads back what the printer writes.

  /** The quote character `s` can be written with. */
  function QuoteFor(s: string): char {
    if '\'' !in s then '\'' else '"'
  }

  function LiteralTokens(v: Value): seq<Token>
    requires IsLiteral(v)
  {
    match v
    case StrValue(s) => [Quoted(QuoteFor(s), s)]
    case IntValue(i) => if i < 0 then [Op('-'), Number(-i)] else [Number(i)]
    case BoolValue(b) => [Name(if b then "True" else "False")]
    case NoneValue => [Name("None")]
  }

  function ArgTokens(arg: (string, Value)): seq<Token>
    requires IsLiteral(arg.1)
  {
    [Name(arg.0), Op('=')] + LiteralTokens(arg.1)
  }

  /** The arguments separated by commas, then the closing parenthesis. */
  function ArgListTokens(args: seq<(string, Value)>): seq<Token>
    requires AllArgs(args)
    decreases |args|
  {
    if args == [] then [Op(')')]
    else if |args| == 1 then ArgTokens(args[0]) + [Op(')')]
    else ArgTokens(args[0]) + ([Op(',')] + ArgListTokens(args[1..]))
  }

  function CallTokens(c: Call): seq<Token>
    requires WellFormed(c)
  {
    [Name(c.name), Op('(')] + ArgListTokens(c.args)
  }

  /** The text of a call, e.g. `add ( a = 5 , b = 10 ) `. */
  function CallText(c: Call): string
    requires WellFormed(c)
  {
    Render(CallTokens(c))
  }

  lemma ParseLiteralOf(v: Value, rest: seq<Token>)
    requires IsLiteral(v)
    ensures ParseLiteral(LiteralTokens(v) + rest) == Some((v, rest))
  {
    var ts := LiteralTokens(v) + rest;
    match v
    case StrValue(s) =>
      var q := QuoteFor(s);
      assert forall k :: 0 <= k < |s| ==> InStringLiteral(s[k], q);
      assert ts[0] == Quoted(q, s) && ts[1..] == rest;
    case IntValue(i) =>
      DigitsRoundTrip(if i < 0 then -i else i);
      if i < 0 {
        assert ts[0] == Op('-') && ts[1] == Number(-i) && ts[2..] == rest;
      } else {
        assert ts[0] == Number(i) && ts[1..] == rest;
      }
    case BoolValue(b) =>
      assert ts[1..] == rest;
    case NoneValue =>
      assert ts[1..] == rest;
  }

  lemma ParseArgOf(arg: (string, Value), rest: seq<Token>)
    requires IsArg(arg)
    ensures ParseArg(ArgTokens(arg) + rest) == Some((arg, rest))
  {
    var ts := ArgTokens(arg) + rest;
    assert ts[2..] == LiteralTokens(arg.1) + rest;
    ParseLiteralOf(arg.1, rest);
  }

  lemma ParseArgsLast(ts: seq<Token>, arg: (string, Value))
    requires ParseArg(ts) == Some((arg, [Op(')')]))
    ensures ParseArgs(ts) == Some([arg])
  {
  }

  lemma ParseArgsNext(ts: seq<Token>, arg: (string, Value), tail: seq<Token>, more: seq<(string, Value)>)
    requires ParseArg(ts) == Some((arg, [Op(',')] + tail))
    requires ParseArgs(tail) == Some(more)
    ensures ParseArgs(ts) == Some([arg] + more)
  {
    assert ([Op(',')] + tail)[1..] == tail;
  }

  lemma ParseArgsSingle(arg: (string, Value))
    requires IsArg(arg)
    ensures ParseArgs(ArgTokens(arg) + [Op(')')]) == Some([arg])
  {
    ParseArgOf(arg, [Op(')')]);
    ParseArgsLast(ArgTokens(arg) + [Op(')')], arg);
  }

  lemma ParseArgsCons(arg: (string, Value), tail: seq<Token>, more: seq<(string, Value)>)
    requires IsArg(arg) && ParseArgs(tail) == Some(more)
    ensures ParseArgs(ArgTokens(arg) + ([Op(',')] + tail)) == Some([arg] + more)
  {
    var ts := ArgTokens(arg) + ([Op(',')] + tail);
    ParseArgOf(arg, [Op(',')] + tail);
    ParseArgsNext(ts, arg, tail, more);
  }

  lemma {:induction false} ParseArgsOf(args: seq<(string, Value)>)
    requires AllArgs(args)
    ensures ParseArgs(ArgListTokens(args)) == Some(args)
    decreases |args|
  {
    if |args| == 1 {
      ParseArgsSingle(args[0]);
      assert [args[0]] == args;
    } else if |args| > 1 {
      var more := args[1..];
      assert AllArgs(more);
      ParseArgsOf(more);
      ParseArgsCons(args[0], ArgListTokens(more), more);
      assert [args[0]] + more == args;
    }
  }

  lemma LiteralTokensValid(v: Value)
    requires IsLiteral(v)
    ensures AllValid(LiteralTokens(v))
  {
    match v
    case StrValue(s) =>
      var q := QuoteFor(s);
      assert forall k :: 0 <= k < |s| ==> InStringLiteral(s[k], q);
    case IntValue(i) =>
    case BoolValue(b) =>
    case NoneValue =>
  }

  lemma ArgTokensValid(arg: (string, Value))
    requires IsArg(arg)
    ensures AllValid(ArgTokens(arg))
  {
    LiteralTokensValid(arg.1);
  }

  lemma ArgThenValid(arg: (string, Value), tail: seq<Token>)
    requires IsArg(arg) && AllValid(tail)
    ensures AllValid(ArgTokens(arg) + tail)
  {
    ArgTokensValid(arg);
  }

  lemma {:induction false} ArgListTokensValid(args: seq<(string, Value)>)
    requires AllArgs(args)
    ensures AllValid(ArgListTokens(args))
    decreases |args|
  {
    if |args| == 1 {
      ArgThenValid(args[0], [Op(')')]);
    } else if |args| > 1 {
      var more := args[1..];
      assert AllArgs(more);
      var tail := ArgListTokens(more);
      ArgListTokensValid(more);
      ArgThenValid(args[0], [Op(',')] + tail);
    }
  }

  /** The token parser reads back the tokens of a well-formed call. */
  lemma ParseCallTokens(c: Call)
    requires WellFormed(c)
    ensures ParseTokens(CallTokens(c)) == Some(c)
  {
    ParseArgsOf(c.args);
    assert CallTokens(c)[2..] == ArgListTokens(c.args);
  }

  /** Printing a well-formed call and parsing the text gives the call back. */
  lemma ParseCallText(c: Call)
    requires WellFormed(c)
    ensures Parse(CallText(c)) == Some(c)
  {
    CallTokensValid(c);
    LexRender(CallTokens(c));
    ParseCallTokens(c);
  }

  lemma CallTokensValid(c: Call)
    requires WellFormed(c)
    ensures AllValid(CallTokens(c))
  {
    CalleeIsIdent(c.name);
    var args := ArgListTokens(c.args);
    ArgListTokensValid(c.args);
    var ts := CallTokens(c);
    forall i | 0 <= i < |ts|
      ensures ValidToken(ts[i])
    {
      if i >= 2 {
        assert ts[i] == args[i - 2];
      }
    }
  }

  // ---------------------------------------------------------------------
  // What the printer writes is also acceptable to `eval` as a whole.

  lemma TokenTextNoNul(t: Token)
    requires ValidToken(t)
    ensures '\0' !in TokenText(t)
  {
    match t
    case Name(w) =>
      assert forall k :: 0 <= k < |w| ==> IsIdentChar(w[k]);
    case Number(n) =>
      var d := Digits(n);
      assert forall k :: 0 <= k < |d| ==> IsDigit(d[k]);
    case Quoted(q, body) =>
      assert forall k :: 0 <= k < |body| ==> InStringLiteral(body[k], q);
    case Op(c) =>
  }

  lemma {:induction false} RenderNoNul(ts: seq<Token>)
    requires AllValid(ts)
    ensures '\0' !in Render(ts)
    decreases |ts|
  {
    if ts != [] {
      TokenTextNoNul(ts[0]);
      RenderNoNul(ts[1..]);
    }
  }

  /** A callee is an identifier. */
  lemma CalleeIsIdent(w: string)
    requires IsCallee(w)
    ensures IsIdent(w)
  {
    if !IsName(w) {
      assert w == "None" || w == "True" || w == "False";
      assert forall k :: 0 <= k < |w| ==> IsIdentStart(w[k]);
    }
  }

  /** The text of a call holds no NUL character and starts with the
      callee's name, so its first token is not indented. */
  lemma CallTextPlain(c: Call)
    requires WellFormed(c)
    ensures CallText(c) != [] && IsIdentStart(CallText(c)[0])
    ensures '\0' !in CallText(c)
    ensures !Indented(CallText(c))
  {
    CalleeIsIdent(c.name);
    CallTokensValid(c);
    var ts := CallTokens(c);
    assert ts[0] == Name(c.name);
    assert ts[1..] == [Op('(')] + ArgListTokens(c.args);
    RenderNoNul(ts);
    var s := CallText(c);
    assert s == c.name + (" " + Render(ts[1..]));
    assert s[0] == c.name[0];
    TokenFirst(s);
  }

  /** A text that begins with a token is not indented. */
  lemma TokenFirst(s: string)
    requires s != [] && !IsBlank(s[0])
    ensures !Indented(s)
  {
  }

  /** A form feed before the first token puts it back at column zero and a
      blank after the form feed indents it; the spaces and tabs the text
      begins with never do. */
  lemma FormFeedIndent(s: string)
    requires s != [] && !IsBlank(s[0])
    ensures Indented("\U{c} " + s)
    ensures !Indented("\U{c}" + s)
    ensures !Indented(" \t" + s)
    ensures Indented(" \U{c}\t" + s)
  {
    FeedThenBlank(s);
    FeedAlone(s);
    StrippedBlanks(s);
    StrippedThenFeed(s);
  }

  lemma FeedThenBlank(s: string)
    requires s != [] && !IsBlank(s[0])
    ensures Indented("\U{c} " + s)
  {
    var fed := "\U{c} " + s;
    assert fed[1..] == " " + s && (" " + s)[1..] == s;
    assert IndentedFrom(fed, false) == IndentedFrom(" " + s, false) == IndentedFrom(s, true);
  }

  lemma FeedAlone(s: string)
    requires s != [] && !IsBlank(s[0])
    ensures !Indented("\U{c}" + s)
  {
    var plain := "\U{c}" + s;
    assert plain[1..] == s;
    assert EvalStrip(plain) == plain;
    assert IndentedFrom(plain, false) == IndentedFrom(s, false) == false;
  }

  lemma StrippedBlanks(s: string)
    requires s != [] && !IsBlank(s[0])
    ensures !Indented(" \t" + s)
  {
    var spaced := " \t" + s;
    assert spaced[1..] == "\t" + s && ("\t" + s)[1..] == s;
    assert EvalStrip(spaced) == EvalStrip("\t" + s) == s;
  }

  lemma StrippedThenFeed(s: string)
    requires s != [] && !IsBlank(s[0])
    ensures Indented(" \U{c}\t" + s)
  {
    var mixed := " \U{c}\t" + s;
    assert mixed[1..] == "\U{c}\t" + s;
    assert EvalStrip(mixed) == "\U{c}\t" + s;
    assert ("\U{c}\t" + s)[1..] == "\t" + s;
    assert IndentedFrom("\U{c}\t" + s, false) == IndentedFrom("\t" + s, false) == IndentedFrom(s, true);
  }

  /** The token `s` starts with is a NUL-free prefix of it. */
  lemma NextTokenSplit(s: string)
    requires NextToken(s).Some?
    ensures var k := |s| - |NextToken(s).value.1|;
      NextToken(s).value.1 == s[k..] && forall j :: 0 <= j < k ==> s[j] != '\0'
  {
    if IsIdentStart(s[0]) {
      var n := IdentLength(s);
      assert forall j :: 0 <= j < n ==> s[j] == s[..n][j];
    } else if IsDigit(s[0]) {
      var n := DigitsLength(s);
      assert forall j :: 0 <= j < n ==> s[j] == s[..n][j];
    } else if IsQuote(s[0]) {
      var n := StringBodyLength(s[1..], s[0]);
      assert forall j :: 1 <= j < 1 + n ==> s[j] == s[1..][j - 1];
    }
  }

  /** The tokenizer reads no NUL character. */
  lemma {:induction false} LexNoNul(s: string)
    requires Lex(s).Some?
    ensures '\0' !in s
    decreases |s|
  {
    if s != [] {
      if IsBlank(s[0]) {
        LexNoNul(s[1..]);
        assert s == [s[0]] + s[1..];
      } else {
        var rest := NextToken(s).value.1;
        var k := |s| - |rest|;
        NextTokenSplit(s);
        LexNoNul(rest);
        assert s == s[..k] + rest;
        assert forall j :: 0 <= j < k ==> s[..k][j] == s[j];
      }
    }
  }

  /** A text that parses holds no NUL character. */
  lemma ParsedNoNul(text: string)
    requires Parse(text).Some?
    ensures '\0' !in text
  {
    LexNoNul(text);
  }
}
