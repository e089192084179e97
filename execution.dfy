/** What `ToolRegistry.execute` (registry.py, lines 46-53) does with the
    text of a tool call: it evaluates the text with the registered tools as
    the only names in scope, turns the result into a string with `str`, and
    turns every exception into an error string. */
module Execution {
  import opened Wrappers
  import opened Text
  import opened CallSyntax
  import opened Schema

  /** What a call of a registered Python function does: it returns a value
      or raises an `Exception` with a message. */
  datatype Outcome = Returned(value: Value) | Raised(message: string)

  /** A registered Python function: its signature and its behaviour, as a
      function of the keyword arguments it is called with (parameters left
      out take their defaults inside the function). */
  datatype Tool = Tool(sig: Signature, run: map<string, Value> -> Outcome)

  /** The exceptions `eval` can raise on the call subset. */
  datatype ExecError =
      /** The text holds a NUL character, which `eval` refuses before
          reading anything. */
    | NullBytes
      /** Blanks after a form feed indent the first token (an
          `IndentationError`). */
    | UnexpectedIndent
      /** The text is not a call of the grammar. */
    | SyntaxError
      /** The callee stands for an object that is not a function, of the
          type named: a constant, or `__builtins__`, which the globals set to
          `None`. */
    | NotCallable(typeName: string)
      /** The callee is no name `eval` can see. With `__builtins__` set to
          `None`, the lookup that misses the registered names and the globals
          goes on to subscript `None`, which raises a `TypeError`. */
    | Unresolved(name: string)
    | UnexpectedKeyword(callee: string, key: string)
    | MissingArguments(callee: string, names: seq<string>)
      /** An exception raised inside the tool. */
    | ToolRaised(message: string)

  const ErrorPrefix := "Tool Execution Error: "

  const UnresolvedMessage := "'NoneType' object is not subscriptable"

  const NullBytesMessage := "source code string cannot contain null bytes"

  const IndentMessage := "unexpected indent (<string>, line 1)"

  function Quoted(n: string): string {
    "'" + n + "'"
  }

  /** `'a'`, `'a' and 'b'`, `'a', 'b', and 'c'`: how Python lists the
      missing parameters (see `NameListQuotes`). */
  function NameList(names: seq<string>): string
    requires names != []
  {
    if |names| == 1 then Quoted(names[0])
    else if |names| == 2 then Quoted(names[0]) + " and " + Quoted(names[1])
    else Series(names)
  }

  /** Three or more names: `'a', 'b', ..., and 'z'`. */
  function Series(names: seq<string>): string
    requires |names| >= 2
    decreases |names|
  {
    if |names| == 2 then Quoted(names[0]) + ", and " + Quoted(names[1])
    else Quoted(names[0]) + ", " + Series(names[1..])
  }

  /** `x + sep + y` contains what `x` and what `y` contain. */
  lemma ContainsJoined(x: string, sep: string, y: string, s: string)
    requires Contains(x, s) || Contains(y, s)
    ensures Contains(x + sep + y, s)
  {
    var t := x + sep + y;
    if Contains(x, s) {
      ContainsAt([], x, sep + y);
      assert t == [] + x + (sep + y);
      ContainsTransitive(t, x, s);
    } else {
      ContainsAt(x + sep, y, []);
      assert t == x + sep + y + [];
      ContainsTransitive(t, y, s);
    }
  }

  lemma {:induction false} SeriesQuotes(names: seq<string>, i: nat)
    requires |names| >= 2 && i < |names|
    ensures Contains(Series(names), Quoted(names[i]))
    decreases |names|
  {
    if |names| == 2 {
      ContainsWhole(Quoted(names[i]));
      ContainsJoined(Quoted(names[0]), ", and ", Quoted(names[1]), Quoted(names[i]));
    } else if i == 0 {
      ContainsWhole(Quoted(names[0]));
      ContainsJoined(Quoted(names[0]), ", ", Series(names[1..]), Quoted(names[0]));
    } else {
      assert names[1..][i - 1] == names[i];
      SeriesQuotes(names[1..], i - 1);
      ContainsJoined(Quoted(names[0]), ", ", Series(names[1..]), Quoted(names[i]));
    }
  }

  /** Every missing parameter is quoted in the list. */
  lemma NameListQuotes(names: seq<string>, i: nat)
    requires i < |names|
    ensures Contains(NameList(names), Quoted(names[i]))
  {
    if |names| == 1 {
      ContainsWhole(Quoted(names[0]));
    } else if |names| == 2 {
      ContainsWhole(Quoted(names[i]));
      ContainsJoined(Quoted(names[0]), " and ", Quoted(names[1]), Quoted(names[i]));
    } else {
      SeriesQuotes(names, i);
    }
  }

  /** Three names are listed with a comma before the final "and". */
  lemma SeriesOfThree()
    ensures NameList(["a", "b", "c"]) == "'a', 'b', and 'c'"
  {
    assert ["a", "b", "c"][1..] == ["b", "c"];
  }

  /** A message that ends with the list of names quotes each of them. */
  lemma MissingQuotes(head: string, names: seq<string>)
    requires names != []
    ensures forall i :: 0 <= i < |names| ==> Contains(head + NameList(names), Quoted(names[i]))
  {
    forall i | 0 <= i < |names|
      ensures Contains(head + NameList(names), Quoted(names[i]))
    {
      NameListQuotes(names, i);
      ContainsJoined(head, [], NameList(names), Quoted(names[i]));
      assert head + [] + NameList(names) == head + NameList(names);
    }
  }

  /** `f() got an unexpected keyword argument 'key'`. */
  function UnexpectedMessage(f: string, key: string): string {
    f + "() " + ("got an unexpected keyword argument " + Quoted(key))
  }

  /** `f() missing 2 required positional arguments: 'a' and 'b'`. */
  function MissingMessage(f: string, names: seq<string>): string {
    f + "() missing " + (IntToString(|names|) + " required positional argument"
      + (if |names| == 1 then "" else "s") + ": " + (if names == [] then "" else NameList(names)))
  }

  /** `'NoneType' object is not callable`. */
  function NotCallableMessage(typeName: string): string {
    Quoted(typeName) + " object is not callable"
  }

  /** `str(e)` for the exception (see `MessageSpec`). */
  function Message(e: ExecError): string {
    match e
    case NullBytes => NullBytesMessage
    case UnexpectedIndent => IndentMessage
    case SyntaxError => "invalid syntax (<string>, line 1)"
    case NotCallable(t) => NotCallableMessage(t)
    case Unresolved(_) => UnresolvedMessage
    case UnexpectedKeyword(f, key) => UnexpectedMessage(f, key)
    case MissingArguments(f, names) => MissingMessage(f, names)
    case ToolRaised(message) => message
  }

  lemma UnexpectedText(f: string, key: string)
    ensures StartsWith(UnexpectedMessage(f, key), f + "() ")
    ensures Contains(UnexpectedMessage(f, key), Quoted(key))
  {
    var call := f + "() ";
    var rest := "got an unexpected keyword argument ";
    var r := UnexpectedMessage(f, key);
    assert r[..|call|] == call;
    ContainsAt(call + rest, Quoted(key), []);
    assert r == call + rest + Quoted(key) + [];
  }

  lemma MissingText(f: string, names: seq<string>)
    ensures StartsWith(MissingMessage(f, names), f + "() missing ")
    ensures forall i :: 0 <= i < |names| ==> Contains(MissingMessage(f, names), Quoted(names[i]))
  {
    MissingLead(f, names);
    if names != [] {
      MissingNames(f, names);
    }
  }

  lemma MissingLead(f: string, names: seq<string>)
    ensures StartsWith(MissingMessage(f, names), f + "() missing ")
  {
    var lead := f + "() missing ";
    var r := MissingMessage(f, names);
    assert r[..|lead|] == lead;
  }

  lemma MissingNames(f: string, names: seq<string>)
    requires names != []
    ensures forall i :: 0 <= i < |names| ==> Contains(MissingMessage(f, names), Quoted(names[i]))
  {
    var lead := f + "() missing ";
    var count := IntToString(|names|) + " required positional argument" + (if |names| == 1 then "" else "s") + ": ";
    var body := count + NameList(names);
    var r := MissingMessage(f, names);
    assert lead + [] + body == r;
    MissingQuotes(count, names);
    forall i | 0 <= i < |names|
      ensures Contains(r, Quoted(names[i]))
    {
      ContainsJoined(lead, [], body, Quoted(names[i]));
    }
  }

  /** A binding error names the callee first and quotes the keyword or
      every missing parameter; the message of an exception raised inside a
      tool is passed on unchanged. */
  lemma MessageSpec(e: ExecError)
    ensures e.MissingArguments? ==> StartsWith(Message(e), e.callee + "() missing ")
    ensures e.MissingArguments? ==> forall i :: 0 <= i < |e.names| ==> Contains(Message(e), Quoted(e.names[i]))
    ensures e.UnexpectedKeyword? ==> StartsWith(Message(e), e.callee + "() ") && Contains(Message(e), Quoted(e.key))
    ensures e.ToolRaised? ==> Message(e) == e.message
  {
    match e
    case UnexpectedKeyword(f, key) => UnexpectedText(f, key);
    case MissingArguments(f, names) => MissingText(f, names);
    case _ =>
  }

  // ---------------------------------------------------------------------
  // Binding keyword arguments to parameters

  predicate HasParam(params: seq<Param>, key: string) {
    exists i :: 0 <= i < |params| && params[i].name == key
  }

  /** The keyword arguments as the dictionary the function receives. */
  function ArgMap(args: seq<(string, Value)>): (m: map<string, Value>)
    requires DistinctKeys(args)
    ensures forall j :: 0 <= j < |args| ==> args[j].0 in m && m[args[j].0] == args[j].1
    ensures forall k :: k in m ==> exists j :: 0 <= j < |args| && args[j].0 == k
  {
    map j | 0 <= j < |args| :: args[j].0 := args[j].1
  }

  /** The first keyword, in the order written, that names no parameter. */
  function FirstUnexpected(params: seq<Param>, args: seq<(string, Value)>): (r: Option<string>)
    ensures r.None? <==> forall j :: 0 <= j < |args| ==> HasParam(params, args[j].0)
    ensures r.Some? ==> exists j :: 0 <= j < |args| && args[j].0 == r.value && !HasParam(params, r.value)
    decreases |args|
  {
    if args == [] then None
    else if !HasParam(params, args[0].0) then Some(args[0].0)
    else
      var r := FirstUnexpected(params, args[1..]);
      assert forall j :: 1 <= j < |args| ==> args[j] == args[1..][j - 1];
      r
  }

  /** The parameters without a default that no keyword supplies, in
      signature order. */
  function MissingOf(params: seq<Param>, supplied: map<string, Value>): (r: seq<string>)
    ensures forall n :: n in r ==> n !in supplied
    ensures forall n :: n in r ==> exists i :: 0 <= i < |params| && params[i].name == n && !params[i].hasDefault
    ensures forall i :: 0 <= i < |params| && !params[i].hasDefault && params[i].name !in supplied ==> params[i].name in r
    decreases |params|
  {
    if params == [] then []
    else
      var init := params[..|params| - 1];
      var last := params[|params| - 1];
      var r := MissingOf(init, supplied) + (if last.hasDefault || last.name in supplied then [] else [last.name]);
      assert forall i :: 0 <= i < |init| ==> params[i] == init[i];
      r
  }

  /** The keywords name parameters only and cover every parameter without
      a default. */
  predicate Accepts(sig: Signature, args: seq<(string, Value)>)
    requires DistinctKeys(args)
  {
    && (forall j :: 0 <= j < |args| ==> HasParam(sig.params, args[j].0))
    && (forall i :: 0 <= i < |sig.params| && !sig.params[i].hasDefault ==> sig.params[i].name in ArgMap(args))
  }

  /** Python's binding of keyword arguments: an unknown keyword is reported
      first, then the parameters left without a value. */
  function Bind(sig: Signature, args: seq<(string, Value)>): (r: Result<map<string, Value>, ExecError>)
    requires DistinctKeys(args)
    ensures r.Ok? <==> Accepts(sig, args)
    ensures r.Ok? ==> r.value == ArgMap(args)
    ensures r.Err? ==> (r.error.UnexpectedKeyword? || r.error.MissingArguments?) && r.error.callee == sig.name
    ensures r.Err? && r.error.UnexpectedKeyword? ==>
      exists j :: 0 <= j < |args| && args[j].0 == r.error.key && !HasParam(sig.params, r.error.key)
    ensures r.Err? && r.error.MissingArguments? ==>
      && (forall j :: 0 <= j < |args| ==> HasParam(sig.params, args[j].0))
      && r.error.names != []
      && (forall n :: n in r.error.names ==> n !in ArgMap(args))
      && (forall n :: n in r.error.names ==>
            exists i :: 0 <= i < |sig.params| && sig.params[i].name == n && !sig.params[i].hasDefault)
  {
    var unexpected := FirstUnexpected(sig.params, args);
    if unexpected.Some? then Err(UnexpectedKeyword(sig.name, unexpected.value))
    else
      var supplied := ArgMap(args);
      var missing := MissingOf(sig.params, supplied);
      if missing == [] then Ok(supplied)
      else
        assert missing[0] in missing;
        Err(MissingArguments(sig.name, missing))
  }

  // ---------------------------------------------------------------------
  // Evaluation

  /** The type of the object a callee stands for whatever the registry
      holds: the constants `None`, `True` and `False`, and `__debug__`,
      which the compiler replaces by `True`. */
  function ConstantType(name: string): Option<string> {
    if name == "None" then Some("NoneType")
    else if name == "True" || name == "False" || name == "__debug__" then Some("bool")
    else None
  }

  /** What the callee of a call stands for when the call runs: a constant
      is not looked up; the registered tools are the local names and are
      searched first; `__builtins__` is the one global and is `None`; any
      other name goes on to the builtins, which are `None` as well. */
  function Lookup(tools: map<string, Tool>, name: string): (r: Result<Tool, ExecError>)
    ensures r.Ok? <==> name in tools && ConstantType(name).None?
    ensures r.Ok? ==> r.value == tools[name]
  {
    if ConstantType(name).Some? then Err(NotCallable(ConstantType(name).value))
    else if name in tools then Ok(tools[name])
    else if name == "__builtins__" then Err(NotCallable("NoneType"))
    else Err(Unresolved(name))
  }

  /** `eval(text, {"__builtins__": None}, tools)` on the call subset. The
      only functions it can run are registered tools: it succeeds exactly
      when the text holds no NUL character, its first token is not
      indented, it is a call of the grammar to a registered name that is
      no constant, the signature accepts the keywords and the body
      returns; the value is what the body returned. Each failure is
      reported in the order Python meets it. */
  function Evaluate(tools: map<string, Tool>, text: string): (r: Result<Value, ExecError>)
    ensures r.Ok? <==>
      && '\0' !in text && !Indented(text)
      && Parse(text).Some?
      && Parse(text).value.name in tools && ConstantType(Parse(text).value.name).None?
      && Accepts(tools[Parse(text).value.name].sig, Parse(text).value.args)
      && tools[Parse(text).value.name].run(ArgMap(Parse(text).value.args)).Returned?
    ensures r.Ok? ==> r.value == tools[Parse(text).value.name].run(ArgMap(Parse(text).value.args)).value
    ensures '\0' in text ==> r == Err(NullBytes)
    ensures '\0' !in text && Indented(text) ==> r == Err(UnexpectedIndent)
    ensures '\0' !in text && !Indented(text) && Parse(text).None? ==> r == Err(SyntaxError)
    ensures '\0' !in text && !Indented(text) && Parse(text).Some? && Lookup(tools, Parse(text).value.name).Err? ==>
      r == Err(Lookup(tools, Parse(text).value.name).error)
  {
    if '\0' in text then Err(NullBytes)
    else if Indented(text) then Err(UnexpectedIndent)
    else
      var c := Parse(text);
      if c.None? then Err(SyntaxError) else Run(tools, c.value)
  }

  /** A parsed call runs: the callee is looked up, the keywords are bound
      to its parameters and the tool's body runs. */
  function Run(tools: map<string, Tool>, c: Call): Result<Value, ExecError>
    requires DistinctKeys(c.args)
  {
    var callee := Lookup(tools, c.name);
    if callee.Err? then Err(callee.error)
    else
      var bound := Bind(callee.value.sig, c.args);
      if bound.Err? then Err(bound.error)
      else
        match callee.value.run(bound.value)
        case Returned(v) => Ok(v)
        case Raised(message) => Err(ToolRaised(message))
  }

  /** `execute`: never raises; a failure of any kind, in `eval` or in the
      `str` of the value, is reported as a string starting with "Tool
      Execution Error: " followed by the exception's message, a success as
      `str` of the returned value. */
  function Execute(tools: map<string, Tool>, text: string): (r: string)
    ensures Evaluate(tools, text).Err? ==>
      StartsWith(r, ErrorPrefix) && r[|ErrorPrefix|..] == Message(Evaluate(tools, text).error)
    ensures Evaluate(tools, text).Ok? && Str(Evaluate(tools, text).value).Ok? ==>
      r == Str(Evaluate(tools, text).value).value
    ensures Evaluate(tools, text).Ok? && Str(Evaluate(tools, text).value).Err? ==>
      StartsWith(r, ErrorPrefix) && r[|ErrorPrefix|..] == Str(Evaluate(tools, text).value).error
  {
    var e := Evaluate(tools, text);
    var failure := if e.Err? then Some(Message(e.error)) else if Str(e.value).Err? then Some(Str(e.value).error) else None;
    if failure.Some? then
      var r := ErrorPrefix + failure.value;
      assert r[..|ErrorPrefix|] == ErrorPrefix;
      r
    else Str(e.value).value
  }

  // ---------------------------------------------------------------------
  // Properties

  /** Which callees `Lookup` resolves: a registered tool that is no
      constant is found; a constant is refused whatever the registry holds;
      an unregistered `__builtins__` is `None`; every other unregistered
      name fails the lookup. */
  lemma LookupSpec(tools: map<string, Tool>, name: string)
    ensures name in tools && ConstantType(name).None? ==> Lookup(tools, name) == Ok(tools[name])
    ensures ConstantType(name).Some? ==> Lookup(tools, name) == Err(NotCallable(ConstantType(name).value))
    ensures name !in tools && name == "__builtins__" ==> Lookup(tools, name) == Err(NotCallable("NoneType"))
    ensures name !in tools && ConstantType(name).None? && name != "__builtins__" ==>
      Lookup(tools, name) == Err(Unresolved(name))
  {
  }

  /** The printed text of a call evaluates as the call runs. */
  lemma EvaluateCallText(tools: map<string, Tool>, c: Call)
    requires WellFormed(c)
    ensures Evaluate(tools, CallText(c)) == Run(tools, c)
  {
    ParseCallText(c);
    CallTextPlain(c);
  }

  /** An evaluation error is reported as the prefix and its message. */
  lemma ExecuteFails(tools: map<string, Tool>, text: string, e: ExecError)
    requires Evaluate(tools, text) == Err(e)
    ensures Execute(tools, text) == ErrorPrefix + Message(e)
  {
    var r := Execute(tools, text);
    assert r == r[..|ErrorPrefix|] + r[|ErrorPrefix|..];
  }

  /** Text that reads as a call to a registered tool that accepts its
      keywords returns `str` of what the tool returns. */
  lemma ExecuteParsed(tools: map<string, Tool>, text: string, c: Call, v: Value)
    requires Parse(text) == Some(c) && !Indented(text)
    requires c.name in tools && ConstantType(c.name).None? && Accepts(tools[c.name].sig, c.args)
    requires tools[c.name].run(ArgMap(c.args)) == Returned(v)
    ensures Str(v).Ok? ==> Execute(tools, text) == Str(v).value
    ensures Str(v).Err? ==> Execute(tools, text) == ErrorPrefix + Str(v).error
  {
    ParsedNoNul(text);
    if Str(v).Err? {
      var r := Execute(tools, text);
      assert r == r[..|ErrorPrefix|] + r[|ErrorPrefix|..];
    }
  }

  /** Text that reads as a call to a registered tool that accepts its
      keywords and returns a value `str` can print gives that text. */
  lemma ExecuteParsedTo(tools: map<string, Tool>, text: string, c: Call, v: Value, s: string)
    requires Parse(text) == Some(c) && !Indented(text)
    requires c.name in tools && ConstantType(c.name).None? && Accepts(tools[c.name].sig, c.args)
    requires tools[c.name].run(ArgMap(c.args)) == Returned(v) && Str(v) == Ok(s)
    ensures Execute(tools, text) == s
  {
    ExecuteParsed(tools, text, c, v);
  }

  /** A call written by `CallText` to a registered tool that accepts its
      keywords returns `str` of what the tool returns, or the message of
      the `ValueError` when that value is an integer too long to print. */
  lemma ExecuteCall(tools: map<string, Tool>, c: Call)
    requires WellFormed(c) && c.name in tools && ConstantType(c.name).None? && Accepts(tools[c.name].sig, c.args)
    requires tools[c.name].run(ArgMap(c.args)).Returned?
    ensures var v := tools[c.name].run(ArgMap(c.args)).value;
      Str(v).Ok? ==> Execute(tools, CallText(c)) == Str(v).value
    ensures var v := tools[c.name].run(ArgMap(c.args)).value;
      Str(v).Err? ==> Execute(tools, CallText(c)) == ErrorPrefix + Str(v).error
  {
    ParseCallText(c);
    CallTextPlain(c);
    ExecuteParsed(tools, CallText(c), c, tools[c.name].run(ArgMap(c.args)).value);
  }

  /** A call of an unregistered name runs nothing. The lookup of the name
      fails before any tool is reached, with the `TypeError` of
      subscripting `None`; `__builtins__` is found in the globals, and
      calling its value `None` fails instead. */
  lemma ExecuteUnregistered(tools: map<string, Tool>, c: Call)
    requires WellFormed(c) && c.name !in tools
    ensures ConstantType(c.name).None? && c.name != "__builtins__" ==>
      && Evaluate(tools, CallText(c)) == Err(Unresolved(c.name))
      && Execute(tools, CallText(c)) == ErrorPrefix + UnresolvedMessage
    ensures c.name == "__builtins__" ==>
      && Evaluate(tools, CallText(c)) == Err(NotCallable("NoneType"))
      && Execute(tools, CallText(c)) == ErrorPrefix + "'NoneType' object is not callable"
  {
    if c.name == "__builtins__" {
      CalleeFails(tools, c, NotCallable("NoneType"));
      NoneNotCallable();
    } else if ConstantType(c.name).None? {
      CalleeFails(tools, c, Unresolved(c.name));
    }
  }

  /** A call of `None`, `True`, `False` or `__debug__` fails whatever is
      registered, with the `TypeError` of calling a constant. */
  lemma ExecuteConstantCallee(tools: map<string, Tool>, c: Call)
    requires WellFormed(c) && ConstantType(c.name).Some?
    ensures Evaluate(tools, CallText(c)) == Err(NotCallable(ConstantType(c.name).value))
    ensures Execute(tools, CallText(c)) == ErrorPrefix + "'" + ConstantType(c.name).value + "' object is not callable"
  {
    var t := ConstantType(c.name).value;
    CalleeFails(tools, c, NotCallable(t));
    NotCallableText(t);
  }

  /** A printed call whose callee is not found is refused with the error of
      the lookup. */
  lemma CalleeFails(tools: map<string, Tool>, c: Call, e: ExecError)
    requires WellFormed(c) && Lookup(tools, c.name) == Err(e)
    ensures Evaluate(tools, CallText(c)) == Err(e)
    ensures Execute(tools, CallText(c)) == ErrorPrefix + Message(e)
  {
    EvaluateCallText(tools, c);
    ExecuteFails(tools, CallText(c), e);
  }

  /** A printed call whose run fails is reported with that failure. */
  lemma RunFails(tools: map<string, Tool>, c: Call, e: ExecError)
    requires WellFormed(c) && Run(tools, c) == Err(e)
    ensures Evaluate(tools, CallText(c)) == Err(e)
    ensures Execute(tools, CallText(c)) == ErrorPrefix + Message(e)
  {
    EvaluateCallText(tools, c);
    ExecuteFails(tools, CallText(c), e);
  }

  lemma NoneNotCallable()
    ensures Message(NotCallable("NoneType")) == "'NoneType' object is not callable"
  {
    NotCallableText("NoneType");
  }

  lemma NotCallableText(t: string)
    ensures Message(NotCallable(t)) == "'" + t + "' object is not callable"
  {
    assert Quoted(t) + " object is not callable" == "'" + t + ("'" + " object is not callable");
  }

  /** A text holding a NUL character is refused before it is read. */
  lemma ExecuteNullBytes(tools: map<string, Tool>, text: string)
    requires '\0' in text
    ensures Evaluate(tools, text) == Err(NullBytes)
    ensures Execute(tools, text) == ErrorPrefix + "source code string cannot contain null bytes"
  {
  }

  /** A form feed and a blank before a call indent it, and nothing runs. */
  lemma ExecuteIndented(tools: map<string, Tool>, c: Call)
    requires WellFormed(c)
    ensures Evaluate(tools, "\U{c} " + CallText(c)) == Err(UnexpectedIndent)
    ensures Execute(tools, "\U{c} " + CallText(c)) == ErrorPrefix + "unexpected indent (<string>, line 1)"
  {
    CallTextPlain(c);
    FormFeedIndent(CallText(c));
  }

  /** An `Exception` raised inside the tool is caught and its message
      reported. */
  lemma ExecuteRaising(tools: map<string, Tool>, c: Call)
    requires WellFormed(c) && c.name in tools && ConstantType(c.name).None? && Accepts(tools[c.name].sig, c.args)
    requires tools[c.name].run(ArgMap(c.args)).Raised?
    ensures Execute(tools, CallText(c)) == ErrorPrefix + tools[c.name].run(ArgMap(c.args)).message
  {
    var message := tools[c.name].run(ArgMap(c.args)).message;
    RunRaising(tools, c);
    RunFails(tools, c, ToolRaised(message));
    RaisedText(Execute(tools, CallText(c)), message);
  }

  lemma RaisedText(r: string, message: string)
    requires r == ErrorPrefix + Message(ToolRaised(message))
    ensures r == ErrorPrefix + message
  {
  }

  lemma RunRaising(tools: map<string, Tool>, c: Call)
    requires DistinctKeys(c.args) && c.name in tools && ConstantType(c.name).None? && Accepts(tools[c.name].sig, c.args)
    requires tools[c.name].run(ArgMap(c.args)).Raised?
    ensures Run(tools, c) == Err(ToolRaised(tools[c.name].run(ArgMap(c.args)).message))
  {
    var tool := tools[c.name];
    assert Lookup(tools, c.name) == Ok(tool);
    assert Bind(tool.sig, c.args) == Ok(ArgMap(c.args));
  }

  /** Keywords the signature does not accept: the tool is not run and the
      binding error is reported. */
  lemma ExecuteRejected(tools: map<string, Tool>, c: Call)
    requires WellFormed(c) && c.name in tools && ConstantType(c.name).None? && !Accepts(tools[c.name].sig, c.args)
    ensures StartsWith(Execute(tools, CallText(c)), ErrorPrefix)
    ensures Evaluate(tools, CallText(c)) == Err(Bind(tools[c.name].sig, c.args).error)
  {
    EvaluateCallText(tools, c);
    assert Run(tools, c) == Err(Bind(tools[c.name].sig, c.args).error);
  }

  /** With no tool registered, no call can run: a text `eval` reads as a
      call fails the lookup of its callee. The model reads every other text
      as a syntax error (Python would evaluate `1+1`), so here every text
      gives an error string, the text of the security test among them. */
  lemma EmptyRegistryRefuses(text: string)
    ensures '\0' !in text && !Indented(text) && Parse(text).Some? ==>
      Evaluate(map[], text) == Err(Lookup(map[], Parse(text).value.name).error)
    ensures StartsWith(Execute(map[], text), ErrorPrefix)
    ensures Contains(Execute(map[], text), "Error")
  {
    var r := Execute(map[], text);
    assert r[..|ErrorPrefix|] == ErrorPrefix;
    assert ErrorPrefix[15..20] == "Error";
    SliceOfSlice(r, 0, |ErrorPrefix|, 15, 20);
    ContainsSlice(r, 15, "Error");
  }
}
