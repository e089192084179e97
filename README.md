# LFMSystem tool registry and agent loop, in Dafny

This is a model of the core of LFMSystem, a small Python agent framework for
Liquid AI models served by Ollama. It has two parts.

- **`ToolRegistry`** (`src/lfmsystem/registry.py`) stores Python functions by
  name. For each one it builds a JSON-schema record from the function's
  signature and docstring. It publishes the list of records as JSON text.
  It runs tool calls written as Python call expressions, using `eval` with
  builtins switched off. Every failure becomes a string starting with
  `Tool Execution Error: `.
- **`SimpleBot` / `LiquidAgent`** (`src/lfmsystem/agent.py`) keep a chat
  history and ask the model for a reply. A `LiquidAgent` lists the registry's
  tools in its system prompt. It searches the model's first reply for a
  `<|tool_call_start|>[...]<|tool_call_end|>` directive. If one is there, it
  runs the directive, hands the result back between
  `<|tool_response_start|>` and `<|tool_response_end|>`, and returns the
  model's second reply.

## Files

| file | module | contents |
|---|---|---|
| `wrappers.dfy` | `Wrappers` | `Option`, `Result` |
| `text.dfy` | `Text` | Python's `str.strip`, `split('\n')[0]` and `str(int)`, with their properties |
| `json.dfy` | `Json` | `json.dumps` of strings, arrays and objects: `ensure_ascii` escaping, the `", "` and `": "` separators, a decoder for escaped strings, and where each item sits in the output |
| `call_syntax.dfy` | `CallSyntax` | the call expressions `eval` is given: the lexer, the parser, the printer, and the lemmas that printing then parsing gives the call back |
| `schema.dfy` | `Schema` | the schema record `register` derives, and the catalog JSON |
| `execution.dfy` | `Execution` | binding keyword arguments, evaluation, and `execute`'s error strings |
| `registry.dfy` | `Registry` | class `ToolRegistry` and the history of registrations |
| `agent.dfy` | `Agent` | class `LLMClient` (the model server as an oracle), classes `SimpleBot` and `LiquidAgent`, and the search for the directive |
| `scenarios.dfy` | `Scenarios` | the repository's tests, stated as methods whose postconditions are what the tests assert |

## How the model follows the code

- **Chat history.** It is a single `seq` field that each method only appends
  to. A method's postcondition gives the whole new history.
- **The model server.** It is a function `respond(callIndex, conversation)`
  fixed when the client is constructed. The client records every
  conversation it sends, the way the test's mock records its call arguments.
  `generate` catches every exception and returns `"LLM Error: ..."`, so the
  oracle is total.
- **Registered functions.** A Python function becomes a `Tool`. It has a
  `Signature` (its name, its parameters with annotation and has-default
  flag, and its docstring) standing in for `inspect.signature`, `__name__`
  and `__doc__`. It also has a behaviour, from the keyword arguments to a
  returned value or a raised message.
- **What `eval` is given.** It is modelled as a call expression
  `name(key=literal, ...)`. A literal is a quoted string without
  backslashes, line breaks or NUL characters, a decimal integer of at most
  4300 digits, or `True`, `False` or `None`. Blanks and a trailing comma are
  allowed. Text outside this grammar is a `SyntaxError`, and so is a keyword
  named `__debug__`.
- **What `eval` refuses before it reads the call.** A text holding a NUL
  character is refused with "source code string cannot contain null bytes".
  `eval` drops the spaces and tabs the text begins with, but not a form
  feed. A form feed puts the tokenizer back at column zero, so a blank after
  it indents the first token: "unexpected indent (<string>, line 1)".
- **What the callee stands for.** `None`, `True` and `False` are constants,
  and the compiler turns `__debug__` into `True`; calling one is a
  `TypeError` such as "'bool' object is not callable", whatever is
  registered. The registered tools are the local names and are looked up
  first. `__builtins__` is the one global, and its value is `None`, so
  calling it gives "'NoneType' object is not callable". Any other name goes
  on to the builtins, which are `None` as well, and that lookup raises
  "'NoneType' object is not subscriptable".
- **Binding.** Arguments are bound as Python binds them: the first
  unexpected keyword is reported first, and then every required parameter
  that was not supplied.
- **`str` of the result.** `str` of an integer longer than 4300 digits
  raises Python's `ValueError` about the digit limit, and `execute` reports
  that message after the error prefix.
- **Where the code and its own comments differ.** The model follows the
  code in each.
  - tests/test_agent.py (line 18) calls a turn the "ReAct loop", but
    `LiquidAgent.chat` makes exactly one tool round trip. A directive in
    the second reply is returned as text, not executed.
  - registry.py (line 43) calls the output of `get_tools_json` "minified",
    but `json.dumps` is called with its default separators, so the model
    writes `", "` and `": "`.
- **Tool results.** The result is wrapped in the two response markers with
  nothing added.
- **`register`'s return value.** It returns `validate_call(func)`. The model
  returns the tool itself (see "Left out").
- **Empty tool results.** `if tool_result:` treats an empty string as no
  result, so an empty result ends the turn after one call of the model,
  exactly like a reply without a directive.

## Model

| member | source | states |
|---|---|---|
| Registry.ToolRegistry.constructor | src/lfmsystem/registry.py:7-9 | the name table and the schema list start empty, and the registration history is empty |
| Registry.ToolRegistry.Register | src/lfmsystem/registry.py:11-40 | the function's name now maps to it and no other entry changes; exactly one record, the one `Describe` derives, is appended; the registry keeps matching its history of registrations; the function is returned |
| Registry.ToolRegistry.GetToolsJson | src/lfmsystem/registry.py:42-44 | the result is the JSON text of the schema list, and it holds the quoted name and description of every registered tool |
| Registry.ToolRegistry.Execute | src/lfmsystem/registry.py:46-53 | any evaluation error gives a string starting with "Tool Execution Error: "; a successful evaluation gives `str` of the value, or that prefix when `str` raises |
| Registry.MapAfterLookup | src/lfmsystem/registry.py:13 | after a series of registrations, a name is in the table exactly when some registration used it, and it maps to the last of them |
| Registry.MapAfterDomain | src/lfmsystem/registry.py:13 | a name is in the table if and only if some registration used it |
| Registry.MapAfterLast | src/lfmsystem/registry.py:13 | the last registration of a name is the one the table holds |
| Registry.DuplicateRegistration | src/lfmsystem/registry.py:13-38 | registering one name twice leaves two records with that name in the list, while the table holds only the second function |
| Schema.TypeTag | src/lfmsystem/registry.py:21-23 | "integer" exactly for `int`, "boolean" exactly for `bool`, and "string" for every other annotation and for none |
| Schema.PropertiesOf | src/lfmsystem/registry.py:19-28 | one property per parameter, in signature order, under the parameter's name, with its type tag and the description "Argument: name" |
| Schema.RequiredOf | src/lfmsystem/registry.py:30-31 | every required name belongs to a parameter without a default |
| Schema.RequiredComplete | src/lfmsystem/registry.py:30-31 | every parameter without a default is listed as required |
| Schema.RequiredInOrder | src/lfmsystem/registry.py:19-31 | the required names of a prefix of the parameters are a prefix of the required list, so the list keeps signature order |
| Schema.BuildParameters | src/lfmsystem/registry.py:17-31 | the loop builds exactly the properties and required list the specification functions give |
| Schema.Description | src/lfmsystem/registry.py:35 | a missing or empty docstring gives "No description"; otherwise the description is the stripped docstring up to (not including) its first line break or its end, so it occurs in the docstring and does not start with white space |
| Schema.DescriptionOfLine | src/lfmsystem/registry.py:35 | a one-line docstring without surrounding white space is its own description |
| Schema.Describe | src/lfmsystem/registry.py:16-37 | the record carries the function's name and `Description` of its docstring (the stripped first line, or "No description"), one property per parameter in signature order with its type tag and the description "Argument: " followed by the parameter's name, and as required exactly the parameters without a default |
| Schema.CatalogEntry | src/lfmsystem/registry.py:44 | the JSON of each record is written, whole, at that record's offset in the catalog |
| Schema.CatalogOrder | src/lfmsystem/registry.py:38-44 | records appear in registration order: each one ends before every later one starts |
| Schema.CatalogListsTool | src/lfmsystem/registry.py:33-44 | the catalog contains the quoted name and the quoted description of every registered tool |
| Schema.CatalogMentions | src/lfmsystem/registry.py:33-44 | a name or description made of plain printable characters appears in the catalog as written |
| Json.Escape | src/lfmsystem/registry.py:44 | `ensure_ascii` escaping of a string's characters; stated by `EscapeRoundTrip` (decoding gives the string back) and `EscapePlain` |
| Json.Encode | src/lfmsystem/registry.py:44 | `json.dumps` of the schema tree; stated by `JoinAt`, `JoinOrder` and `ObjectContains` (each item is written whole, in order) |
| Json.EscapeRoundTrip | src/lfmsystem/registry.py:44 | decoding the escaped form of any string, surrogate pairs included, gives the string back |
| Json.EscapePlain | src/lfmsystem/registry.py:44 | plain printable ASCII without a quote or backslash is written unescaped |
| Json.JoinAt | src/lfmsystem/registry.py:44 | each item of a `", "`-separated list is written, whole, at its offset |
| Json.JoinOrder | src/lfmsystem/registry.py:44 | the items of a separated list appear in order and do not overlap |
| Json.ObjectContains | src/lfmsystem/registry.py:44 | the JSON of an object contains the JSON of each of its values |
| Text.TrimStart | src/lfmsystem/registry.py:35 | removes exactly the leading run of white space |
| Text.TrimEnd | src/lfmsystem/registry.py:35 | removes exactly the trailing run of white space |
| Text.Strip | src/lfmsystem/registry.py:35 | the result is the input with only white space cut from its two ends, and it neither starts nor ends with white space |
| Text.FirstLine | src/lfmsystem/registry.py:35 | a prefix of the input without a line break, which ends at the input's end or at its first line break |
| Text.StripFirstLine | src/lfmsystem/registry.py:35 | the first line of the stripped docstring occurs in the docstring and does not start with white space |
| Text.DigitsRoundTrip | src/lfmsystem/registry.py:51 | reading back the decimal digits of a natural number gives the number |
| Text.Digits | src/lfmsystem/registry.py:51 | the decimal form of a natural number is a non-empty run of digits, without a leading zero except for 0 itself |
| CallSyntax.Str | src/lfmsystem/registry.py:51-53 | Python's `str` of a returned value, or the message of the `ValueError` it raises; stated by `StrOfInt` and `StrOfStr` |
| CallSyntax.StrOfStr | src/lfmsystem/registry.py:51 | `str` of a string is the string itself |
| CallSyntax.StrOfInt | src/lfmsystem/registry.py:51-53 | `str` of an integer of at most 4300 digits is its decimal digits, after a minus sign when negative, and they read back as the same number; a longer integer gives the digit-limit `ValueError` message |
| CallSyntax.Lex | src/lfmsystem/registry.py:50 | the tokenizer; its properties are stated by `LexRender` (printing then lexing gives the tokens back) and `LexValid` (no string token holds a NUL, no number has more than 4300 digits) |
| CallSyntax.Parse | src/lfmsystem/registry.py:50 | everything it accepts is a well-formed call: a plain name that is not a reserved word, and distinct keywords bound to literals |
| CallSyntax.LexRender | src/lfmsystem/registry.py:50 | lexing the printed form of valid tokens gives the same tokens back |
| CallSyntax.LexValid | src/lfmsystem/registry.py:50 | every token the lexer produces is valid |
| CallSyntax.ParseTokensWellFormed | src/lfmsystem/registry.py:50 | whatever the parser accepts is a well-formed call: a name that is not a keyword, distinct keywords, literal values |
| CallSyntax.ParseArgsOf | src/lfmsystem/registry.py:50 | the argument parser reads back any list of keyword arguments from their tokens |
| CallSyntax.ParseCallText | src/lfmsystem/registry.py:50 | parsing the text of any well-formed call gives that call back |
| CallSyntax.CallTextPlain | src/lfmsystem/registry.py:50 | the printed text of a well-formed call starts with the callee's name, holds no NUL and is not indented, so `eval` reads it as a call |
| CallSyntax.FormFeedIndent | src/lfmsystem/registry.py:50 | before a token, a form feed then a blank indents it and so does a blank after a form feed that follows the stripped spaces; a form feed alone, or spaces and tabs alone, do not |
| Execution.Message | src/lfmsystem/registry.py:52-53 | `str` of the exception; its properties are stated by `MessageSpec`, `NotCallableText`, `ExecuteNullBytes`, `ExecuteIndented` and `ExecuteUnregistered` |
| Execution.MessageSpec | src/lfmsystem/registry.py:50-53 | a missing-arguments message starts with the callee's name and quotes every missing parameter, an unexpected-keyword message names the callee and quotes the keyword, and a tool's own exception message is passed on unchanged |
| Execution.UnexpectedText | src/lfmsystem/registry.py:50 | the unexpected-keyword message starts with the callee's name and quotes the keyword |
| Execution.MissingText | src/lfmsystem/registry.py:50 | the missing-arguments message starts with the callee's name and quotes every missing parameter |
| Execution.NameListQuotes | src/lfmsystem/registry.py:50 | the list of missing parameters in Python's binding error quotes every one of them |
| Execution.SeriesOfThree | src/lfmsystem/registry.py:50 | three missing names are written `'a', 'b', and 'c'`, with a comma before the "and" |
| Execution.Bind | src/lfmsystem/registry.py:50 | binding succeeds if and only if every keyword names a parameter and every parameter without a default is supplied, and it gives the keyword dictionary; otherwise it reports an unknown keyword that was written or, when all keywords are known, a non-empty list of unsupplied required parameters |
| Execution.FirstUnexpected | src/lfmsystem/registry.py:50 | `None` if and only if every keyword names a parameter; otherwise a written keyword that names none |
| Execution.MissingOf | src/lfmsystem/registry.py:50 | exactly the parameters without a default that were not supplied |
| Execution.ArgMap | src/lfmsystem/registry.py:50 | the dictionary maps each written keyword to its value and holds nothing else |
| Execution.LookupSpec | src/lfmsystem/registry.py:50 | a registered tool that is no constant is found; a constant is refused whatever is registered; an unregistered `__builtins__` is `None`; every other unregistered name fails the lookup |
| Execution.EvaluateCallText | src/lfmsystem/registry.py:50 | the printed text of a well-formed call evaluates as the call itself runs |
| Execution.NotCallableText | src/lfmsystem/registry.py:53 | calling an object that is no function is reported as "'type' object is not callable" |
| Execution.ExecuteConstantCallee | src/lfmsystem/registry.py:50-53 | a call of `None`, `True`, `False` or `__debug__` fails whatever is registered, with "'NoneType' object is not callable" or "'bool' object is not callable" after the prefix |
| Execution.ExecuteNullBytes | src/lfmsystem/registry.py:50-53 | a text holding a NUL character gives the prefix followed by "source code string cannot contain null bytes" |
| Execution.ExecuteIndented | src/lfmsystem/registry.py:50-53 | a form feed and a blank before a call indent it: the result is the prefix followed by "unexpected indent (<string>, line 1)" and nothing runs |
| Execution.Evaluate | src/lfmsystem/registry.py:50 | evaluation succeeds if and only if the text holds no NUL, its first token is not indented, it parses as a call of a registered name that is no constant, the signature accepts the keywords and the body returns, and then gives the value the body returned; a NUL, an indent, unparsable text and a failed lookup each give their own error, in the order Python meets them |
| Execution.Execute | src/lfmsystem/registry.py:48-53 | an evaluation error gives "Tool Execution Error: " followed by the exception's message; a value gives its `str`, and a value `str` refuses gives the prefix and the `ValueError`'s message |
| Execution.ExecuteCall | src/lfmsystem/registry.py:48-53 | the text of a well-formed call of a registered tool that accepts the keywords returns `str` of the tool's result, or the prefix and the digit-limit message when that result is an integer too long to print |
| Execution.ExecuteUnregistered | src/lfmsystem/registry.py:50-53 | a call of an unregistered name runs nothing: `__builtins__` gives the prefix followed by "'NoneType' object is not callable", and any other name that is no constant fails its lookup with "'NoneType' object is not subscriptable" |
| Execution.ExecuteRaising | src/lfmsystem/registry.py:50-53 | an exception raised by the tool is caught and its message reported after the error prefix |
| Execution.ExecuteRejected | src/lfmsystem/registry.py:50-53 | keywords that the signature does not accept are reported as the binding error, and the tool is not run |
| Execution.EmptyRegistryRefuses | src/lfmsystem/registry.py:48-53 | with nothing registered, a text that reads as a call fails the lookup of its callee; within the modelled subset every text gives an error string, and that string contains "Error" |
| Agent.LLMClient.constructor | src/lfmsystem/client.py:8-10 | a client for the model that has sent nothing yet |
| Agent.LLMClient.Generate | src/lfmsystem/client.py:12-33 | the conversation is recorded, and the reply is the server's answer to it for this call index |
| Agent.SimpleBot.constructor | src/lfmsystem/agent.py:10-13 | a new client for the model, and a history holding only the system prompt, which is "You are a helpful assistant." unless another is given |
| Agent.SimpleBot.Chat | src/lfmsystem/agent.py:15-19 | the model is called once with the history ending in the user's message, the history grows by that message and the reply, and the reply is returned |
| Agent.CloseFromSpec | src/lfmsystem/agent.py:59 | the lazy group ends at the nearest closing marker before the next line break, and when there is none, no closing marker can be reached without crossing a line break |
| Agent.SearchFromSpec | src/lfmsystem/agent.py:59-60 | the search finds the leftmost position where the expression matches, and the shortest group there, or reports that it matches nowhere from the start position on |
| Agent.NoMatchAt | src/lfmsystem/agent.py:59-60 | where the search moves on from a position, the expression matches at no end there |
| Agent.FindDirective | src/lfmsystem/agent.py:59-61 | `re.search` and `group(1)`; stated by `FindDirectiveSpec` (leftmost match, shortest group) and `FindDirectiveText` |
| Agent.FindDirectiveText | src/lfmsystem/agent.py:59-61 | a group found has no line break, and the reply contains it between the opening and the closing marker |
| Agent.MatchText | src/lfmsystem/agent.py:59 | a match of the expression spans the opening marker, a group without a line break and the closing marker |
| Agent.FindDirectiveSpec | src/lfmsystem/agent.py:59-61 | the result is `None` if and only if the expression matches nowhere in the reply; otherwise it is the group of the leftmost, shortest match |
| Agent.CloseFromSkips | src/lfmsystem/agent.py:59 | text without line breaks and without `]` is skipped on the way to the closing marker |
| Agent.FindWrapped | src/lfmsystem/agent.py:59-62 | a reply that starts with a directive whose text has neither a line break nor `]` gives that text as the group |
| Agent.NoMarker | src/lfmsystem/agent.py:59-63 | a reply without `<` holds no directive |
| Agent.LiquidAgent.constructor | src/lfmsystem/agent.py:23-26 | the registry is kept, and the history holds only the system prompt, which lists the registry's JSON between the tool-list markers |
| Agent.LiquidAgent.CheckForTools | src/lfmsystem/agent.py:58-63 | `None` if and only if the reply holds no directive; otherwise what the registry's `execute` returns for the group of the first directive |
| Agent.LiquidAgent.Chat | src/lfmsystem/agent.py:28-56 | with a non-empty tool result: the model is called twice, the history grows by the user's message, the first reply, the wrapped tool result and the second reply, and the second reply is returned; otherwise the model is called once and the turn is `SimpleBot`'s. Earlier history is never changed |
| Scenarios.RegistryExecution | tests/test_tools.py:15-32 | after `add` is registered, the catalog mentions "add" and "Adds two numbers", and `add(a=5, b=10)` gives "15" |
| Scenarios.AddExecutes | tests/test_tools.py:31-32 | the text `add(a=5, b=10)` evaluates to "15" in a registry holding `add` |
| Scenarios.RegistrySecurity | tests/test_tools.py:34-41 | the `__import__` attempt on an empty registry is answered with a string containing "Error" |
| Scenarios.MockRegistry | tests/test_agent.py:7-13 | a fresh registry that holds `get_test_data` alone, with one schema record |
| Scenarios.GetTestDataExecutes | tests/test_agent.py:10-12 | the directive of the workflow test gives "Data for 123" |
| Scenarios.WorkflowTurn | tests/test_agent.py:15-53 | the turn returns the second canned reply, and the history after the system prompt is the user's message, the directive reply, the wrapped tool result and the final reply |
| Scenarios.AgentWorkflowWithTool | tests/test_agent.py:15-53 | the turn returns the second canned reply, the history holds five messages, the third is the test's directive text and the fourth is "Data for 123" between the response markers, both written out as in the test |
| Scenarios.FirstReplyText | tests/test_agent.py:26-27 | the canned first reply of the test is the directive between the two call markers |
| Scenarios.ToolResponseText | tests/test_agent.py:50-53 | the fourth message is "Data for 123" between the response markers |
| Scenarios.DefaultBotTurn | src/lfmsystem/agent.py:10-19 | a bot built without a prompt starts with "You are a helpful assistant." and a turn adds the user's message and the reply |
| Scenarios.AgentNoToolTrigger | tests/test_agent.py:55-66 | a reply without a directive is returned after exactly one call of the model |

## Left out

- The network call to Ollama, the model options (`**client_opts`) and the
  server's behaviour: the server is the `respond` oracle. The text of an
  "LLM Error" reply comes from an exception that cannot be seen, so it is
  included in the oracle.
- Logging and tracing (`logfire` spans, `loguru` messages, and
  `src/lfmsystem/logging.py`): they have no effect on results.
- `src/lfmsystem/cli.py` (the interactive shell) and `src/lfmsystem/tools.py`
  (the sample tools `get_current_time` and `calculate_bmi`, which need a
  clock and floating point) are not part of this model.
- Registry.ToolRegistry.Register: returns the tool itself, not
  `validate_call(func)`. The model does not capture pydantic's argument
  validation and coercion (a `"5"` passed for an `int` parameter, say).
- Python introspection: the signature is given as a value. Keyword-only
  and positional-only parameters, `*args` and `**kwargs`, and annotations
  other than the names `int` and `bool` are not told apart. So `Bind`
  accepts a positional-only parameter (`def f(a, /)`) passed by keyword,
  which Python refuses ("got some positional-only arguments passed as
  keyword arguments"). Two parameters are taken to have different names.
- Execution.Evaluate: only covers `eval` on the call subset described above.
  Any other text is a syntax error. Python would instead run arithmetic,
  attribute access, positional arguments, escapes in strings, other numeric
  forms, text spread over several lines or ending in a line break
  (`add(a=5, b=10)` followed by `\n` gives "15"), a comment after the call
  (`add(a=5, b=10)  # sum` gives "15"), string prefixes such as `r'..'` and
  `u'..'`, triple-quoted strings, adjacent string literals that Python joins,
  names with non-ASCII letters, and calls of literals such as `5(a=1)`. For
  text such as `__import__('os').system(...)` it would report a different
  message, and the model's message is then another error string. The
  property the security test checks, that the string contains "Error",
  holds either way.
- Execution.EmptyRegistryRefuses: "every text gives an error" holds of the
  modelled subset only. With no tool registered Python still evaluates
  expressions that use no name: `1+1` gives "2" and `().__class__` gives
  "<class 'tuple'>". What holds of Python as well is the first ensures: a
  text that reads as a call fails the lookup of its callee.
- CallSyntax.Str: the limit of 4300 digits is Python's default since 3.11
  (and the 3.10.7 backport). It can be changed with
  `sys.set_int_max_str_digits` or `PYTHONINTMAXSTRDIGITS`, and older
  versions have none; the model fixes it at 4300. An integer literal over
  the limit is a `SyntaxError` in Python as in the model, but with a
  message that names the limit, where the model gives its one fixed message.
- Execution.Message: the binding errors, the failed name lookup, the NUL
  refusal, the indent and the calls of objects that are no function use
  CPython's wording. Every `SyntaxError` gets one fixed message, while
  Python's message names the specific problem. Nested functions are named
  by their bare name, not by their qualified name. The `SyntaxWarning`
  Python prints when it compiles a call of a constant is not modelled.
- Execution.Execute: a tool's `Raised` outcome stands for an `Exception`,
  which `except Exception` catches. A `BaseException` that is not an
  `Exception` (`SystemExit`, `KeyboardInterrupt`) raised by a tool is not
  modelled: Python lets it propagate out of `execute` and out of
  `LiquidAgent.chat`. An `Other` value is given by the text its `str`
  produces, so a returned object whose `__str__` raises, which Python
  reports as an error string, is not modelled either.
- Json: `json.dumps` is modelled for the values a schema list holds
  (strings, objects, arrays of them). Numbers, booleans and `null` do not
  occur in it.
- Agent.LLMClient.Generate: the recorded conversation is a snapshot. In
  Python the mock keeps a reference to the same list object, which later
  appends change.
- Concurrency: none in the source.
