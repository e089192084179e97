/** The situations the repository's tests describe (tests/test_tools.py and
    tests/test_agent.py), stated on the model: each method builds the
    objects the test builds and its postcondition is what the test
    asserts. */
module Scenarios {
  import opened Wrappers
  import opened Text
  import opened Json
  import opened CallSyntax
  import opened Schema
  import opened Execution
  import opened Registry
  import opened Agent

  // ---------------------------------------------------------------------
  // The `add` tool of test_tools.py, lines 19-22

  /** A value `+` takes as a number: an `int`, or a `bool`, which Python
      adds as 0 or 1. */
  function AsNumber(v: Value): Option<int> {
    match v
    case IntValue(i) => Some(i)
    case BoolValue(b) => Some(if b then 1 else 0)
    case _ => None
  }

  /** The name of a value's type in Python's messages. An `Other` object
      cannot be written as a literal, so no call passes one to `add`. */
  function TypeName(v: Value): string {
    match v
    case IntValue(_) => "int"
    case BoolValue(_) => "bool"
    case StrValue(_) => "str"
    case NoneValue => "NoneType"
    case Other(_) => "object"
  }

  /** `return a + b`: two numbers are added, two strings are joined, and
      any other pair raises the `TypeError` Python gives for it. Binding
      supplies both keywords, since neither has a default. */
  function AddRun(args: map<string, Value>): Outcome {
    if "a" !in args || "b" !in args then Raised("add() missing a required argument")
    else
      var a, b := args["a"], args["b"];
      if AsNumber(a).Some? && AsNumber(b).Some? then Returned(IntValue(AsNumber(a).value + AsNumber(b).value))
      else if a.StrValue? && b.StrValue? then Returned(StrValue(a.s + b.s))
      else if a.StrValue? then Raised("can only concatenate str (not \"" + TypeName(b) + "\") to str")
      else Raised("unsupported operand type(s) for +: '" + TypeName(a) + "' and '" + TypeName(b) + "'")
  }

  function AddTool(): Tool {
    Tool(Signature("add", [Param("a", IntType, false), Param("b", IntType, false)], Some("Adds two numbers")), AddRun)
  }

  lemma AddText()
    ensures "add" + (['('] + ("a" + (['='] + ("5" + ([','] + (" " + ("b" + (['='] + ("10" + [')']))))))))) == "add(a=5, b=10)"
  {
  }

  lemma AddTokens()
    ensures [Name("add")] + ([Op('(')] + ([Name("a")] + ([Op('=')] + ([Number(5)] + ([Op(',')]
      + ([Name("b")] + ([Op('=')] + ([Number(10)] + ([Op(')')] + []))))))))) ==
      [Name("add"), Op('('), Name("a"), Op('='), Number(5), Op(','), Name("b"), Op('='), Number(10), Op(')')]
  {
  }

  /** The tail ` b=10)` of the call text. */
  lemma SecondArgTokens()
    ensures Lex(" " + ("b" + (['='] + ("10" + [')'])))) ==
      Some([Name("b")] + ([Op('=')] + ([Number(10)] + ([Op(')')] + []))))
  {
    var t9 := [')'];
    NextOpOf(')', "");
    LexCons(t9, Op(')'), "", []);
    var l9 := [Op(')')] + [];
    assert Digits(10) == "10";
    var t8 := "10" + t9;
    NextNumberOf(10, t9);
    LexCons(t8, Number(10), t9, l9);
    var l8 := [Number(10)] + l9;
    var t7 := ['='] + t8;
    NextOpOf('=', t8);
    LexCons(t7, Op('='), t8, l8);
    var l7 := [Op('=')] + l8;
    var t6 := "b" + t7;
    NextNameOf("b", t7);
    LexCons(t6, Name("b"), t7, l7);
    var t5 := " " + t6;
    assert Lex(t5) == Lex(t6);
  }

  /** The tokens of the call text of test_tools.py, line 31. */
  lemma AddCallTokens()
    ensures Lex("add(a=5, b=10)") ==
      Some([Name("add"), Op('('), Name("a"), Op('='), Number(5), Op(','), Name("b"), Op('='), Number(10), Op(')')])
  {
    var t5 := " " + ("b" + (['='] + ("10" + [')'])));
    var l6 := [Name("b")] + ([Op('=')] + ([Number(10)] + ([Op(')')] + [])));
    SecondArgTokens();
    var t4 := [','] + t5;
    NextOpOf(',', t5);
    LexCons(t4, Op(','), t5, l6);
    var l4 := [Op(',')] + l6;
    assert Digits(5) == "5";
    var t3 := "5" + t4;
    NextNumberOf(5, t4);
    LexCons(t3, Number(5), t4, l4);
    var l3 := [Number(5)] + l4;
    var t2 := ['='] + t3;
    NextOpOf('=', t3);
    LexCons(t2, Op('='), t3, l3);
    var l2 := [Op('=')] + l3;
    var t1 := "a" + t2;
    NextNameOf("a", t2);
    LexCons(t1, Name("a"), t2, l2);
    var l1 := [Name("a")] + l2;
    var t0 := ['('] + t1;
    NextOpOf('(', t1);
    LexCons(t0, Op('('), t1, l1);
    var l0 := [Op('(')] + l1;
    var s := "add" + t0;
    NextNameOf("add", t0);
    LexCons(s, Name("add"), t0, l0);
    AddText();
    AddTokens();
  }

  /** A word of identifier characters that is none of the reserved words
      can name a function or a keyword argument. */
  lemma WordIsName(w: string)
    requires w != [] && IsIdentStart(w[0]) && AllIdentChars(w)
    requires forall k :: 0 <= k < KeywordCount ==> Keyword(k) != w
    ensures IsName(w)
  {
    UnreservedFrom(w, 0);
  }

  /** The names of test_tools.py's call are plain names. */
  lemma AddNames()
    ensures IsName("add") && IsName("a") && IsName("b")
  {
    AddName();
    assert IsName("a") by { WordIsName("a"); }
    assert IsName("b") by { WordIsName("b"); }
  }

  lemma AddName()
    ensures IsName("add")
  {
    WordIsName("add");
  }

  /** The names of test_agent.py's directive are plain names. */
  lemma GetTestDataNames()
    ensures IsName("get_test_data") && IsName("id")
  {
    GetTestDataName();
    assert IsName("id") by { WordIsName("id"); }
  }

  lemma GetTestDataName()
    ensures IsName("get_test_data")
  {
    WordIsName("get_test_data");
  }

  lemma AddCallWellFormed()
    ensures WellFormed(Call("add", [("a", IntValue(5)), ("b", IntValue(10))]))
  {
    AddNames();
  }

  lemma AddCallTokensOf()
    ensures WellFormed(Call("add", [("a", IntValue(5)), ("b", IntValue(10))]))
    ensures CallTokens(Call("add", [("a", IntValue(5)), ("b", IntValue(10))])) ==
      [Name("add"), Op('('), Name("a"), Op('='), Number(5), Op(','), Name("b"), Op('='), Number(10), Op(')')]
  {
    AddCallWellFormed();
    var a := ("a", IntValue(5));
    var b := ("b", IntValue(10));
    var args := [a, b];
    assert args[1..] == [b];
    var tailTokens := ArgTokens(b) + [Op(')')];
    assert ArgListTokens([b]) == tailTokens;
    var argTokens := ArgTokens(a) + ([Op(',')] + tailTokens);
    assert ArgListTokens(args) == argTokens;
    assert ArgTokens(a) == [Name("a"), Op('='), Number(5)];
    assert ArgTokens(b) == [Name("b"), Op('='), Number(10)];
  }

  /** `add(a=5, b=10)` is read as the call of `add` with `a` bound to 5 and
      `b` to 10. */
  lemma AddCallParses()
    ensures Parse("add(a=5, b=10)") == Some(Call("add", [("a", IntValue(5)), ("b", IntValue(10))]))
  {
    AddCallTokensOf();
    AddCallTokens();
    ParseCallTokens(Call("add", [("a", IntValue(5)), ("b", IntValue(10))]));
  }

  /** The signature of `add` accepts the keywords `a` and `b`. */
  lemma AddAccepts()
    ensures Accepts(AddTool().sig, [("a", IntValue(5)), ("b", IntValue(10))])
    ensures AddRun(ArgMap([("a", IntValue(5)), ("b", IntValue(10))])) == Returned(IntValue(15))
  {
    var args := [("a", IntValue(5)), ("b", IntValue(10))];
    assert HasParam(AddTool().sig.params, "a") by {
      assert AddTool().sig.params[0].name == "a";
    }
    assert HasParam(AddTool().sig.params, "b") by {
      assert AddTool().sig.params[1].name == "b";
    }
    assert args[0].0 == "a" && args[1].0 == "b";
  }

  /** The call of test_tools.py reaches `add`, which accepts its keywords
      and returns 15. */
  lemma AddRuns(tools: map<string, Tool>, c: Call)
    requires tools == map["add" := AddTool()]
    requires c == Call("add", [("a", IntValue(5)), ("b", IntValue(10))])
    ensures c.name in tools && ConstantType(c.name).None? && Accepts(tools[c.name].sig, c.args)
    ensures tools[c.name].run(ArgMap(c.args)) == Returned(IntValue(15))
  {
    AddAccepts();
  }

  lemma FifteenText()
    ensures Str(IntValue(15)) == Ok("15")
  {
    assert Digits(15) == Digits(1) + "5" == "15";
    assert IntToString(15) == "15";
    assert DigitCount(15) == 2;
  }

  /** `execute("add(a=5, b=10)")` with `add` registered returns "15". */
  lemma AddExecutes()
    ensures Execution.Execute(map["add" := AddTool()], "add(a=5, b=10)") == "15"
  {
    var tools := map["add" := AddTool()];
    var c := Call("add", [("a", IntValue(5)), ("b", IntValue(10))]);
    AddCallParses();
    TokenFirst("add(a=5, b=10)");
    AddRuns(tools, c);
    FifteenText();
    ExecuteParsedTo(tools, "add(a=5, b=10)", c, IntValue(15), "15");
  }

  /** The record `register` derives for `add`. */
  lemma AddSchema()
    ensures Describe(AddTool().sig).name == "add"
    ensures Describe(AddTool().sig).description == "Adds two numbers"
  {
    DescriptionOfLine("Adds two numbers");
  }

  lemma AddPlain()
    ensures IsPlain("add") && IsPlain("Adds two numbers")
  {
  }

  /** test_tools.py, lines 15-32: the catalog mentions the tool and its
      description, and the call returns "15". */
  method RegistryExecution() returns (toolsJson: string, result: string)
    ensures Contains(toolsJson, "add") && Contains(toolsJson, "Adds two numbers")
    ensures result == "15"
  {
    var registry := new ToolRegistry();
    var _ := registry.Register(AddTool());
    toolsJson := registry.GetToolsJson();
    AddSchema();
    AddPlain();
    CatalogMentions(registry.schemas, 0);
    result := registry.Execute("add(a=5, b=10)");
    AddExecutes();
  }

  /** test_tools.py, lines 34-41: nothing is registered, so the import
      attempt is answered with an error string. */
  method RegistrySecurity() returns (result: string)
    ensures Contains(result, "Error")
  {
    var registry := new ToolRegistry();
    result := registry.Execute("__import__('os').system('echo hack')");
    EmptyRegistryRefuses("__import__('os').system('echo hack')");
  }

  // ---------------------------------------------------------------------
  // The `get_test_data` tool of test_agent.py, lines 7-13

  /** `return f"Data for {id}"`; formatting the argument fails as `str`
      does. */
  function GetTestDataRun(args: map<string, Value>): Outcome {
    if "id" !in args then Raised("get_test_data() missing 1 required positional argument: 'id'")
    else if Str(args["id"]).Err? then Raised(Str(args["id"]).error)
    else Returned(StrValue("Data for " + Str(args["id"]).value))
  }

  /** Annotated `str`, no default, no docstring. */
  function GetTestDataTool(): Tool {
    Tool(Signature("get_test_data", [Param("id", OtherType("str"), false)], None), GetTestDataRun)
  }

  lemma GetTestDataText()
    ensures "get_test_data" + (['('] + ("id" + (['='] + (['\''] + "123" + ['\''] + [')'])))) == "get_test_data(id='123')"
  {
  }

  /** The directive has neither a line break nor a `]`. */
  lemma DirectiveOneLine()
    ensures '\n' !in Directive && ']' !in Directive
  {
    var s := "get_test_data" + (['('] + ("id" + (['='] + (['\''] + "123" + ['\''] + [')']))));
    GetTestDataText();
    assert '\n' !in "get_test_data" && ']' !in "get_test_data";
    assert '\n' !in s && ']' !in s;
  }

  lemma GetTestDataTokens()
    ensures [Name("get_test_data")] + ([Op('(')] + ([Name("id")] + ([Op('=')] + ([Quoted('\'', "123")] + ([Op(')')] + []))))) ==
      [Name("get_test_data"), Op('('), Name("id"), Op('='), Quoted('\'', "123"), Op(')')]
  {
  }

  /** The tail `id='123')` of the directive. */
  lemma IdArgTokens()
    ensures Lex(['('] + ("id" + (['='] + (['\''] + "123" + ['\''] + [')'])))) ==
      Some([Op('(')] + ([Name("id")] + ([Op('=')] + ([Quoted('\'', "123")] + ([Op(')')] + [])))))
  {
    var t5 := [')'];
    NextOpOf(')', "");
    LexCons(t5, Op(')'), "", []);
    var l5 := [Op(')')] + [];
    var t4 := ['\''] + "123" + ['\''] + t5;
    NextQuotedOf('\'', "123", t5);
    LexCons(t4, Quoted('\'', "123"), t5, l5);
    var l4 := [Quoted('\'', "123")] + l5;
    var t3 := ['='] + t4;
    NextOpOf('=', t4);
    LexCons(t3, Op('='), t4, l4);
    var l3 := [Op('=')] + l4;
    var t2 := "id" + t3;
    NextNameOf("id", t3);
    LexCons(t2, Name("id"), t3, l3);
    var l2 := [Name("id")] + l3;
    var t1 := ['('] + t2;
    NextOpOf('(', t2);
    LexCons(t1, Op('('), t2, l2);
  }

  lemma GetTestDataCallTokens()
    ensures Lex("get_test_data(id='123')") ==
      Some([Name("get_test_data"), Op('('), Name("id"), Op('='), Quoted('\'', "123"), Op(')')])
  {
    var t1 := ['('] + ("id" + (['='] + (['\''] + "123" + ['\''] + [')'])));
    var l1 := [Op('(')] + ([Name("id")] + ([Op('=')] + ([Quoted('\'', "123")] + ([Op(')')] + []))));
    IdArgTokens();
    var s := "get_test_data" + t1;
    GetTestDataName();
    NextNameOf("get_test_data", t1);
    LexCons(s, Name("get_test_data"), t1, l1);
    GetTestDataText();
    GetTestDataTokens();
  }

  lemma GetTestDataCallTokensOf()
    ensures WellFormed(Call("get_test_data", [("id", StrValue("123"))]))
    ensures CallTokens(Call("get_test_data", [("id", StrValue("123"))])) ==
      [Name("get_test_data"), Op('('), Name("id"), Op('='), Quoted('\'', "123"), Op(')')]
  {
    GetTestDataNames();
    var arg := ("id", StrValue("123"));
    assert IsLiteral(arg.1);
    assert ArgTokens(arg) == [Name("id"), Op('='), Quoted('\'', "123")];
  }

  lemma GetTestDataCallParses()
    ensures Parse("get_test_data(id='123')") == Some(Call("get_test_data", [("id", StrValue("123"))]))
  {
    GetTestDataCallTokensOf();
    GetTestDataCallTokens();
    ParseCallTokens(Call("get_test_data", [("id", StrValue("123"))]));
  }

  lemma GetTestDataAccepts()
    ensures Accepts(GetTestDataTool().sig, [("id", StrValue("123"))])
    ensures GetTestDataRun(ArgMap([("id", StrValue("123"))])) == Returned(StrValue("Data for 123"))
  {
    assert GetTestDataTool().sig.params[0].name == "id";
    var args := [("id", StrValue("123"))];
    assert args[0].0 == "id";
    assert ArgMap(args)["id"] == StrValue("123");
    assert "Data for " + "123" == "Data for 123";
  }

  /** The call of the directive reaches `get_test_data`, which accepts
      its keyword and returns "Data for 123". */
  lemma GetTestDataRuns(tools: map<string, Tool>, c: Call)
    requires tools == map["get_test_data" := GetTestDataTool()]
    requires c == Call("get_test_data", [("id", StrValue("123"))])
    ensures c.name in tools && ConstantType(c.name).None? && Accepts(tools[c.name].sig, c.args)
    ensures tools[c.name].run(ArgMap(c.args)) == Returned(StrValue("Data for 123"))
  {
    GetTestDataAccepts();
  }

  /** The directive of the test runs the tool and yields "Data for 123". */
  lemma GetTestDataExecutes()
    ensures Execution.Execute(map["get_test_data" := GetTestDataTool()], Directive) == "Data for 123"
  {
    var tools := map["get_test_data" := GetTestDataTool()];
    var c := Call("get_test_data", [("id", StrValue("123"))]);
    GetTestDataCallParses();
    TokenFirst(Directive);
    GetTestDataRuns(tools, c);
    StrOfStr("Data for 123");
    ExecuteParsedTo(tools, Directive, c, StrValue("Data for 123"), "Data for 123");
  }

  /** The `mock_registry` fixture (test_agent.py, lines 7-13): a registry
      holding only `get_test_data`. */
  method MockRegistry() returns (registry: ToolRegistry)
    ensures fresh(registry)
    ensures registry.toolsMap == map["get_test_data" := GetTestDataTool()]
    ensures |registry.schemas| == 1 && registry.schemas[0].name == "get_test_data"
  {
    registry := new ToolRegistry();
    var _ := registry.Register(GetTestDataTool());
  }

  const Directive := "get_test_data(id='123')"

  lemma OpenedDirectiveText()
    ensures CallStart + Directive == "<|tool_call_start|>[get_test_data(id='123')"
  {
  }

  /** The first canned reply of the test is the directive between the two
      call markers. */
  lemma FirstReplyText()
    ensures CallStart + Directive + CallEnd == "<|tool_call_start|>[get_test_data(id='123')]<|tool_call_end|>"
  {
    OpenedDirectiveText();
  }

  /** The entries of a history of one message followed by four more. */
  lemma FiveEntries(start: seq<Message>, m1: Message, m2: Message, m3: Message, m4: Message)
    requires |start| == 1
    ensures var h := start + [m1] + [m2] + [m3] + [m4];
      |h| == 5 && h[1] == m1 && h[2] == m2 && h[3] == m3 && h[4] == m4
  {
  }

  /** One turn of an agent whose history holds only its system prompt,
      whose model has not been called yet and whose first reply carries a
      directive with a non-empty result. */
  method ToolTurn(agent: LiquidAgent, start: seq<Message>, userInput: string, reply: string, directive: string, result: string, final: string)
      returns (response: string, history: seq<Message>)
    requires agent.client.calls == [] && agent.history == start && |start| == 1
    requires agent.client.respond(0, start + [Message(User, userInput)]) == reply
    requires agent.client.respond(1, start + [Message(User, userInput)] + [Message(Assistant, reply)]
                                     + [Message(User, ToolResponse(result))]) == final
    requires FindDirective(reply) == Some(directive) && agent.registry.Execute(directive) == result && result != []
    modifies agent, agent.client
    ensures response == final
    ensures history == start + [Message(User, userInput)] + [Message(Assistant, reply)]
                       + [Message(User, ToolResponse(result))] + [Message(Assistant, final)]
  {
    RepliesInOrder(agent, start, userInput, reply, result, final);
    response := ChatWithTool(agent, start, userInput, reply, directive, result, final);
    history := agent.history;
  }

  /** The replies of a model not called yet, as `Chat` numbers them. */
  lemma RepliesInOrder(agent: LiquidAgent, start: seq<Message>, userInput: string, reply: string, result: string, final: string)
    requires agent.client.calls == [] && agent.history == start
    requires agent.client.respond(0, start + [Message(User, userInput)]) == reply
    requires agent.client.respond(1, start + [Message(User, userInput)] + [Message(Assistant, reply)]
                                     + [Message(User, ToolResponse(result))]) == final
    ensures agent.client.respond(|agent.client.calls|, agent.history + [Message(User, userInput)]) == reply
    ensures agent.client.respond(|agent.client.calls| + 1, agent.history + [Message(User, userInput)] + [Message(Assistant, reply)]
                                    + [Message(User, ToolResponse(result))]) == final
  {
  }

  /** The same turn, with the replies of the model stated in the terms of
      `LiquidAgent.Chat`'s contract. */
  method ChatWithTool(agent: LiquidAgent, start: seq<Message>, userInput: string, reply: string, directive: string, result: string, final: string)
      returns (response: string)
    requires agent.history == start
    requires agent.client.respond(|agent.client.calls|, agent.history + [Message(User, userInput)]) == reply
    requires agent.client.respond(|agent.client.calls| + 1, agent.history + [Message(User, userInput)] + [Message(Assistant, reply)]
                                     + [Message(User, ToolResponse(result))]) == final
    requires FindDirective(reply) == Some(directive) && agent.registry.Execute(directive) == result && result != []
    modifies agent, agent.client
    ensures response == final
    ensures agent.history == start + [Message(User, userInput)] + [Message(Assistant, reply)]
                             + [Message(User, ToolResponse(result))] + [Message(Assistant, final)]
  {
    response := agent.Chat(userInput);
  }

  /** The turn of test_agent.py, lines 15-53, with the canned replies
      written as the markers around the directive. */
  method WorkflowTurn() returns (response: string, history: seq<Message>)
    ensures response == "Here is the data for 123."
    ensures |history| == 5
    ensures history[1] == Message(User, "Get data for 123")
    ensures history[2] == Message(Assistant, CallStart + Directive + CallEnd)
    ensures history[3] == Message(User, ToolResponse("Data for 123"))
    ensures history[4] == Message(Assistant, "Here is the data for 123.")
  {
    var registry := MockRegistry();
    var g := Directive;
    var reply := CallStart + g + CallEnd;
    var respond := (i: nat, h: seq<Message>) => if i == 0 then reply else "Here is the data for 123.";
    var agent := new LiquidAgent("dummy-model", registry, respond);
    DirectiveOneLine();
    FindWrapped(g, "");
    assert reply + "" == reply;
    GetTestDataExecutes();
    var start := agent.history;
    response, history := ToolTurn(agent, start, "Get data for 123", reply, g, "Data for 123", "Here is the data for 123.");
    FiveEntries(start, Message(User, "Get data for 123"), Message(Assistant, reply),
                Message(User, ToolResponse("Data for 123")), Message(Assistant, "Here is the data for 123."));
  }

  /** test_agent.py, lines 15-53: the model asks for the tool, gets its
      result back and answers; the history holds five messages, the third
      one the directive and the fourth one the tool's result between the
      response markers. */
  method AgentWorkflowWithTool() returns (response: string, history: seq<Message>)
    ensures response == "Here is the data for 123."
    ensures |history| == 5
    ensures history[1] == Message(User, "Get data for 123")
    ensures history[2] == Message(Assistant, "<|tool_call_start|>[get_test_data(id='123')]<|tool_call_end|>")
    ensures history[3] == Message(User, "<|tool_response_start|>Data for 123<|tool_response_end|>")
    ensures history[4] == Message(Assistant, "Here is the data for 123.")
  {
    response, history := WorkflowTurn();
    FirstReplyText();
    ToolResponseText();
  }

  /** The fourth message of the test's history, written out. */
  lemma ToolResponseText()
    ensures ToolResponse("Data for 123") == "<|tool_response_start|>Data for 123<|tool_response_end|>"
  {
  }

  /** `SimpleBot("m")` (agent.py, line 10): without a prompt of its own,
      the history starts with the default system prompt, and a turn adds
      the user's message and the reply. */
  method DefaultBotTurn() returns (history: seq<Message>)
    ensures history == [Message(System, "You are a helpful assistant."), Message(User, "Hello"), Message(Assistant, "Hi!")]
  {
    var respond := (i: nat, h: seq<Message>) => "Hi!";
    var bot := new SimpleBot("m", respond);
    var _ := bot.Chat("Hello");
    history := bot.history;
  }

  lemma NormalAnswerHasNoDirective()
    ensures FindDirective("Just a normal answer.").None?
  {
    NoMarker("Just a normal answer.");
  }

  /** test_agent.py, lines 55-66: a reply without a directive is returned
      after a single call of the model. */
  method AgentNoToolTrigger() returns (response: string, generateCalls: nat)
    ensures generateCalls == 1
    ensures response == "Just a normal answer."
  {
    var registry := MockRegistry();
    var respond := (i: nat, h: seq<Message>) => "Just a normal answer.";
    var agent := new LiquidAgent("dummy-model", registry, respond);
    NormalAnswerHasNoDirective();
    response := agent.Chat("Hi");
    generateCalls := |agent.client.calls|;
  }
}
