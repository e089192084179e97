/** The conversation logic of agent.py: `SimpleBot` keeps an append-only
    history and asks the model for a reply; `LiquidAgent` additionally
    looks for one tool-call directive in the first reply, runs it through
    the registry and asks the model once more. */
module Agent {
  import opened Wrappers
  import opened Text
  import opened Execution
  import opened Registry

  datatype Role = System | User | Assistant

  /** `{"role": ..., "content": ...}`. */
  datatype Message = Message(role: Role, content: string)

  /** `SimpleBot`'s default system prompt. */
  const DefaultPrompt := "You are a helpful assistant."

  // ---------------------------------------------------------------------
  // The language model

  /** `LLMClient`: the reply of the model server is given by `respond`, a
      function of the number of earlier calls and of the conversation sent
      (a server that fails yields the text "LLM Error: ..." instead of
      raising, so every call returns a string). Every conversation sent is
      recorded in `calls`. */
  class LLMClient {
    const modelName: string
    const respond: (nat, seq<Message>) -> string
    var calls: seq<seq<Message>>

    constructor (modelName: string, respond: (nat, seq<Message>) -> string)
      ensures this.modelName == modelName && this.respond == respond && calls == []
    {
      this.modelName := modelName;
      this.respond := respond;
      calls := [];
    }

    /** `generate` (client.py, lines 11-33). */
    method Generate(messages: seq<Message>) returns (reply: string)
      modifies this
      ensures calls == old(calls) + [messages]
      ensures reply == respond(|old(calls)|, messages)
    {
      reply := respond(|calls|, messages);
      calls := calls + [messages];
    }
  }

  // ---------------------------------------------------------------------
  // SimpleBot

  class SimpleBot {
    const client: LLMClient
    var history: seq<Message>

    /** `SimpleBot.__init__` (lines 10-13): a new client for the model and
        a history holding only the system prompt, `DefaultPrompt` unless
        another one is given. */
    constructor (modelName: string, respond: (nat, seq<Message>) -> string, systemPrompt: string := DefaultPrompt)
      ensures fresh(client) && client.modelName == modelName && client.respond == respond && client.calls == []
      ensures history == [Message(System, systemPrompt)]
    {
      client := new LLMClient(modelName, respond);
      history := [Message(System, systemPrompt)];
    }

    /** `SimpleBot.chat` (lines 15-19): the history grows by the user's
        message and the reply, the model sees the history up to and
        including the user's message, and the reply is returned. */
    method Chat(userInput: string) returns (response: string)
      modifies this, client
      ensures client.calls == old(client.calls) + [old(history) + [Message(User, userInput)]]
      ensures response == client.respond(|old(client.calls)|, old(history) + [Message(User, userInput)])
      ensures history == old(history) + [Message(User, userInput), Message(Assistant, response)]
    {
      history := history + [Message(User, userInput)];
      response := client.Generate(history);
      history := history + [Message(Assistant, response)];
    }
  }

  // ---------------------------------------------------------------------
  // The tool-call directive

  const CallStart := "<|tool_call_start|>["
  const CallEnd := "]<|tool_call_end|>"

  predicate OpensAt(content: string, p: nat) {
    p + |CallStart| <= |content| && content[p..p + |CallStart|] == CallStart
  }

  predicate ClosesAt(content: string, e: nat) {
    e + |CallEnd| <= |content| && content[e..e + |CallEnd|] == CallEnd
  }

  /** No line break between `a` and `b` (`.` does not match one). */
  predicate LineFree(content: string, a: nat, b: nat) {
    b <= |content| && forall i :: a <= i < b ==> content[i] != '\n'
  }

  /** The regular expression of line 59 matches at `p`, with the group
      running up to the closing marker at `e`. */
  predicate MatchesAt(content: string, p: nat, e: nat) {
    OpensAt(content, p) && p + |CallStart| <= e && LineFree(content, p + |CallStart|, e) && ClosesAt(content, e)
  }

  /** `.*?` followed by the closing marker, from `e` on: the nearest
      closing marker before the next line break (see `CloseFromSpec`). */
  function CloseFrom(content: string, e: nat): Option<nat>
    requires e <= |content|
    decreases |content| - e
  {
    if ClosesAt(content, e) then Some(e)
    else if e == |content| || content[e] == '\n' then None
    else CloseFrom(content, e + 1)
  }

  lemma {:induction false} CloseFromSpec(content: string, e: nat)
    requires e <= |content|
    ensures CloseFrom(content, e).Some? ==>
      var r := CloseFrom(content, e).value;
      e <= r && LineFree(content, e, r) && ClosesAt(content, r)
      && forall e': nat :: e <= e' < r ==> !ClosesAt(content, e')
    ensures CloseFrom(content, e).None? ==> forall e': nat :: e <= e' && LineFree(content, e, e') ==> !ClosesAt(content, e')
    decreases |content| - e
  {
    if !ClosesAt(content, e) && e < |content| && content[e] != '\n' {
      CloseFromSpec(content, e + 1);
    }
  }

  /** `re.search` from position `p` on (see `SearchFromSpec`). */
  function SearchFrom(content: string, p: nat): Option<(nat, nat)>
    requires p <= |content|
    decreases |content| - p
  {
    if OpensAt(content, p) && CloseFrom(content, p + |CallStart|).Some? then
      Some((p, CloseFrom(content, p + |CallStart|).value))
    else if p == |content| then None
    else SearchFrom(content, p + 1)
  }

  /** The search finds the leftmost position at which the expression
      matches, and the shortest group there. */
  lemma {:induction false} SearchFromSpec(content: string, p: nat)
    requires p <= |content|
    ensures SearchFrom(content, p).Some? ==>
      var (q, e) := SearchFrom(content, p).value;
      && p <= q && MatchesAt(content, q, e)
      && (forall e': nat :: e' < e ==> !MatchesAt(content, q, e'))
      && (forall q': nat, e': nat :: p <= q' < q ==> !MatchesAt(content, q', e'))
    ensures SearchFrom(content, p).None? ==> forall q: nat, e: nat :: p <= q ==> !MatchesAt(content, q, e)
    decreases |content| - p
  {
    if OpensAt(content, p) && CloseFrom(content, p + |CallStart|).Some? {
      CloseFromSpec(content, p + |CallStart|);
    } else if p < |content| {
      SearchFromSpec(content, p + 1);
      SearchMovesOn(content, p);
    } else {
      NoMatchAt(content, p);
    }
  }

  /** Where nothing matches at `p`, what the search finds from `p + 1` on is
      also the first match from `p` on. */
  lemma SearchMovesOn(content: string, p: nat)
    requires p < |content|
    requires !(OpensAt(content, p) && CloseFrom(content, p + |CallStart|).Some?)
    requires SearchFrom(content, p + 1).Some? ==>
      var (q, e) := SearchFrom(content, p + 1).value;
      forall q': nat, e': nat :: p + 1 <= q' < q ==> !MatchesAt(content, q', e')
    requires SearchFrom(content, p + 1).None? ==> forall q: nat, e: nat :: p + 1 <= q ==> !MatchesAt(content, q, e)
    ensures SearchFrom(content, p) == SearchFrom(content, p + 1)
    ensures SearchFrom(content, p).Some? ==>
      var (q, e) := SearchFrom(content, p).value;
      forall q': nat, e': nat :: p <= q' < q ==> !MatchesAt(content, q', e')
    ensures SearchFrom(content, p).None? ==> forall q: nat, e: nat :: p <= q ==> !MatchesAt(content, q, e)
  {
    NoMatchAt(content, p);
  }

  /** Where the search moves on from `p`, nothing matches at `p`. */
  lemma NoMatchAt(content: string, p: nat)
    requires p <= |content|
    requires !(OpensAt(content, p) && CloseFrom(content, p + |CallStart|).Some?)
    ensures forall e: nat :: !MatchesAt(content, p, e)
  {
    if OpensAt(content, p) {
      CloseFromSpec(content, p + |CallStart|);
    }
  }

  /** The group of the first match (`match.group(1)`), or `None` when the
      expression matches nowhere (see `FindDirectiveSpec`). */
  function FindDirective(content: string): Option<string> {
    var m := SearchFrom(content, 0);
    if m.None? then None
    else
      SearchFromSpec(content, 0);
      Some(content[m.value.0 + |CallStart|..m.value.1])
  }

  /** A group found has no line break, and the reply holds it between the
      opening and the closing marker. */
  lemma FindDirectiveText(content: string)
    ensures FindDirective(content).Some? ==>
      var g := FindDirective(content).value;
      '\n' !in g && Contains(content, CallStart + g + CallEnd)
  {
    SearchFromSpec(content, 0);
    var m := SearchFrom(content, 0);
    if m.Some? {
      MatchText(content, m.value.0, m.value.1);
    }
  }

  /** A match spans the opening marker, the one-line group and the
      closing marker. */
  lemma MatchText(content: string, p: nat, e: nat)
    requires MatchesAt(content, p, e)
    ensures var g := content[p + |CallStart|..e];
      '\n' !in g && Contains(content, CallStart + g + CallEnd)
  {
    var g := content[p + |CallStart|..e];
    var whole := content[p..e + |CallEnd|];
    assert forall i :: 0 <= i < |g| ==> g[i] == content[p + |CallStart| + i];
    assert whole == content[p..p + |CallStart|] + g + content[e..e + |CallEnd|];
    ContainsSlice(content, p, CallStart + g + CallEnd);
  }

  /** `None` exactly when the expression matches nowhere; otherwise the
      group of the leftmost match, and the shortest group there. */
  lemma FindDirectiveSpec(content: string)
    ensures FindDirective(content).None? <==> forall p: nat, e: nat :: !MatchesAt(content, p, e)
    ensures FindDirective(content).Some? ==> exists p: nat, e: nat ::
      && MatchesAt(content, p, e)
      && FindDirective(content).value == content[p + |CallStart|..e]
      && (forall q: nat, e': nat :: q < p ==> !MatchesAt(content, q, e'))
      && (forall e': nat :: e' < e ==> !MatchesAt(content, p, e'))
  {
    SearchFromSpec(content, 0);
    var m := SearchFrom(content, 0);
    if m.Some? {
      var p, e := m.value.0, m.value.1;
      assert MatchesAt(content, p, e);
    }
  }

  /** The scan for the closing marker passes over text without line
      breaks and without `]`. */
  lemma {:induction false} CloseFromSkips(content: string, e: nat, target: nat)
    requires e <= target && ClosesAt(content, target)
    requires forall i :: e <= i < target ==> content[i] != '\n' && content[i] != ']'
    ensures CloseFrom(content, e) == Some(target)
    decreases target - e
  {
    if e < target {
      assert content[e..e + |CallEnd|][0] == content[e];
      CloseFromSkips(content, e + 1, target);
    }
  }

  /** A reply that starts with a directive whose text has neither a line
      break nor a `]` carries that text as its group. */
  lemma FindWrapped(g: string, rest: string)
    requires '\n' !in g && ']' !in g
    ensures FindDirective(CallStart + g + CallEnd + rest) == Some(g)
  {
    var content := CallStart + g + CallEnd + rest;
    var start := |CallStart|;
    assert content[..start] == CallStart;
    assert content[start + |g|..start + |g| + |CallEnd|] == CallEnd;
    assert forall i :: start <= i < start + |g| ==> content[i] == g[i - start];
    CloseFromSkips(content, start, start + |g|);
    assert content[start..start + |g|] == g;
  }

  /** A reply without `<` contains no directive. */
  lemma NoMarker(content: string)
    requires '<' !in content
    ensures FindDirective(content).None?
  {
    FindDirectiveSpec(content);
    forall p: nat
      ensures !OpensAt(content, p)
    {
      if p + |CallStart| <= |content| {
        assert content[p..p + |CallStart|][0] == content[p];
      }
    }
  }

  /** The system prompt of a `LiquidAgent` (line 25). */
  function ToolListPrompt(toolsJson: string): string {
    "List of tools: <|tool_list_start|>" + toolsJson + "<|tool_list_end|>"
  }

  const ToolResponseStart := "<|tool_response_start|>"
  const ToolResponseEnd := "<|tool_response_end|>"

  /** The message that hands the tool's result back to the model (line 43). */
  function ToolResponse(result: string): string {
    ToolResponseStart + result + ToolResponseEnd
  }

  // ---------------------------------------------------------------------
  // LiquidAgent

  class LiquidAgent {
    const client: LLMClient
    const registry: ToolRegistry
    var history: seq<Message>

    /** `LiquidAgent.__init__` (lines 23-26): the system prompt lists the
        registry's tools as JSON between the two list markers. */
    constructor (modelName: string, registry: ToolRegistry, respond: (nat, seq<Message>) -> string)
      ensures this.registry == registry
      ensures fresh(client) && client.modelName == modelName && client.respond == respond && client.calls == []
      ensures history == [Message(System, ToolListPrompt(registry.GetToolsJson()))]
    {
      this.registry := registry;
      client := new LLMClient(modelName, respond);
      history := [Message(System, ToolListPrompt(registry.GetToolsJson()))];
    }

    /** `_check_for_tools` (lines 58-63): `None` when the reply holds no
        directive, otherwise what the registry makes of the first one. */
    function CheckForTools(content: string): (r: Option<string>)
      reads registry
      ensures r.None? <==> forall p: nat, e: nat :: !MatchesAt(content, p, e)
      ensures r.Some? ==> FindDirective(content).Some? && r.value == registry.Execute(FindDirective(content).value)
    {
      FindDirectiveSpec(content);
      var g := FindDirective(content);
      if g.None? then None else Some(registry.Execute(g.value))
    }

    /** `LiquidAgent.chat` (lines 28-56). The first reply is scanned for a
        directive; when the tool produced a non-empty string, four messages
        are appended and the second reply, which is not scanned, is
        returned; otherwise (no directive, or an empty result, which Python
        treats as false) the turn is the one of `SimpleBot.chat`. The model
        is called once or twice, and earlier history is never changed. */
    method Chat(userInput: string) returns (response: string)
      modifies this, client
      ensures
        var asked := old(history) + [Message(User, userInput)];
        var first := client.respond(|old(client.calls)|, asked);
        var result := old(CheckForTools(first));
        if result.Some? && result.value != [] then
          var followUp := asked + [Message(Assistant, first)] + [Message(User, ToolResponse(result.value))];
          && client.calls == old(client.calls) + [asked] + [followUp]
          && response == client.respond(|old(client.calls)| + 1, followUp)
          && history == followUp + [Message(Assistant, response)]
        else
          && client.calls == old(client.calls) + [asked]
          && response == first
          && history == asked + [Message(Assistant, first)]
    {
      history := history + [Message(User, userInput)];
      var initialContent := client.Generate(history);
      var toolResult := CheckForTools(initialContent);
      if toolResult.Some? && toolResult.value != [] {
        history := history + [Message(Assistant, initialContent)];
        var toolMsg := ToolResponse(toolResult.value);
        history := history + [Message(User, toolMsg)];
        var finalResponse := client.Generate(history);
        history := history + [Message(Assistant, finalResponse)];
        response := finalResponse;
      } else {
        history := history + [Message(Assistant, initialContent)];
        response := initialContent;
      }
    }
  }
}
