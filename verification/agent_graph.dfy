/**
  * The agent graph: `__start__ -> agent`, `agent -> tools | __end__` as the
  * last message asks for tools or not, and `tools -> agent`. The agent node
  * sends the system prompt followed by the whole conversation to the
  * language model and appends its single reply; the tools node answers every
  * tool call of the last AI message with one tool message.
  *
  * The language model and the tool implementations are parameters: `llm`
  * maps the messages sent to the reply, `tool` maps one call to the payload
  * its tool message carries. The graph's own step limit is a `fuel` bound.
  */
module AgentGraph {
  import opened Builtins
  import opened Catalog
  import opened Messages
  import opened AgentState

  /**
    * The opening line of the system prompt the storefront's agent sends
    * before every conversation. No property here depends on its wording.
    */
  const SystemPrompt: string :=
    "You are a helpful MinkenWorld AI for MinkenWorld, a marketplace where users can buy and sell anything - from houses and cars to electronics and everyday items."

  /**
    * What the graph is built from: the system prompt, the language model
    * (`llm`, mapping the messages sent to its reply) and the tools (`tool`,
    * mapping one call to the payload of its tool message).
    */
  datatype Agent = Agent(prompt: string, llm: seq<Message> -> Message, tool: ToolCall -> ToolPayload)

  /** The storefront's agent: the fixed system prompt with the given model and tools. */
  function Storefront(llm: seq<Message> -> Message, tool: ToolCall -> ToolPayload): Agent {
    Agent(SystemPrompt, llm, tool)
  }

  datatype Route = ToTools | ToEnd

  datatype Node = Start | AgentNode | ToolsNode | End

  /** The last message of a non-empty list. */
  function Last(msgs: seq<Message>): Message
    requires |msgs| > 0
  {
    msgs[|msgs| - 1]
  }

  /**
    * `shouldContinue`: to the tools node exactly when the last message is an
    * AI message with at least one tool call, otherwise to the end. The graph
    * only consults it after the agent node has appended a message.
    */
  function ShouldContinue(s: State): (r: Route)
    requires |s.messages| > 0
    ensures r == ToTools <==> Last(s.messages).Ai? && |Last(s.messages).toolCalls| > 0
  {
    if RequestsTools(Last(s.messages)) then ToTools else ToEnd
  }

  /** The messages `callModel` sends: the system prompt, then the conversation unchanged. */
  function ModelInput(prompt: string, msgs: seq<Message>): (r: seq<Message>)
    ensures |r| == |msgs| + 1
    ensures r[0] == System(prompt) && r[1..] == msgs
  {
    [System(prompt)] + msgs
  }

  /** `callModel`: one new message, the model's reply to the prompted conversation; products untouched. */
  function CallModel(s: State, a: Agent): (u: Update)
    ensures u.messages == Some([a.llm(ModelInput(a.prompt, s.messages))])
    ensures u.products.None?
  {
    Update(Some([a.llm(ModelInput(a.prompt, s.messages))]), None)
  }

  /** The tool calls the tools node answers: those of the last message when it is an AI message. */
  function PendingCalls(s: State): seq<ToolCall>
    requires |s.messages| > 0
  {
    if Last(s.messages).Ai? then Last(s.messages).toolCalls else []
  }

  /** The `ToolNode`: one tool message per pending call, in call order; products untouched. */
  function RunTools(s: State, tool: ToolCall -> ToolPayload): (u: Update)
    requires |s.messages| > 0
    ensures u.messages.Some? && |u.messages.value| == |PendingCalls(s)|
    ensures forall i :: 0 <= i < |PendingCalls(s)| ==> u.messages.value[i] == Tool(tool(PendingCalls(s)[i]))
    ensures u.products.None?
  {
    var calls := PendingCalls(s);
    Update(Some(seq(|calls|, i requires 0 <= i < |calls| => Tool(tool(calls[i])))), None)
  }

  /** The update a node returns. The start node only forwards the input. */
  function Execute(n: Node, s: State, a: Agent): Update
    requires n == ToolsNode ==> |s.messages| > 0
  {
    match n
    case Start => Update(None, None)
    case AgentNode => CallModel(s, a)
    case ToolsNode => RunTools(s, a.tool)
    case End => Update(None, None)
  }

  /** The graph's edges, taken from the state after the node has run. */
  function Next(n: Node, s: State): (m: Node)
    requires n == AgentNode ==> |s.messages| > 0
    ensures n == Start ==> m == AgentNode
    ensures n == ToolsNode ==> m == AgentNode
    ensures n == AgentNode ==> (m == ToolsNode <==> RequestsTools(Last(s.messages)))
    ensures m == End <==> n == End || (n == AgentNode && !RequestsTools(Last(s.messages)))
  {
    match n
    case Start => AgentNode
    case AgentNode => if ShouldContinue(s) == ToTools then ToolsNode else End
    case ToolsNode => AgentNode
    case End => End
  }

  /** The state after node `n` has run: its update folded in by the channel reducers. */
  function Step(n: Node, s: State, a: Agent): State
    requires n == ToolsNode ==> |s.messages| > 0
  {
    Apply(s, Execute(n, s, a))
  }

  /**
    * Running the graph from node `n`: each node's update is folded into the
    * state by the channel reducers, then the edge is followed. `None` when
    * `fuel` node executions do not reach the end.
    */
  function Run(n: Node, s: State, a: Agent, fuel: nat): Option<State>
    requires n == ToolsNode ==> |s.messages| > 0
    decreases fuel
  {
    if n == End then Some(s)
    else if fuel == 0 then None
    else
      var t := Step(n, s, a);
      Run(Next(n, t), t, a, fuel - 1)
  }

  /**
    * `agent.invoke({ messages, products: [] })`: the final message list, or
    * None when the step bound is hit. The storefront invokes `Storefront(llm, tool)`.
    */
  function Invoke(conversation: seq<Message>, a: Agent, fuel: nat): Option<seq<Message>> {
    var r := Run(Start, Initial(Update(Some(conversation), Some([]))), a, fuel);
    if r.Some? then Some(r.value.messages) else None
  }

  /** After the agent node the state has one more message, the model's reply; products untouched. */
  lemma AgentStepAppendsReply(s: State, a: Agent)
    ensures Step(AgentNode, s, a) == State(s.messages + [a.llm(ModelInput(a.prompt, s.messages))], s.products)
  {
  }

  /** Appending one item: the old list is what precedes it, and it is the last. */
  lemma AppendOne<T>(xs: seq<T>, x: T)
    ensures |xs + [x]| == |xs| + 1
    ensures (xs + [x])[..|xs|] == xs
    ensures (xs + [x])[|xs|] == x
  {
  }

  /**
    * A run never rewrites history or the products: the final messages extend
    * the starting ones and the products channel is as it started.
    */
  lemma {:induction false} RunAppendOnly(n: Node, s: State, a: Agent, fuel: nat)
    requires n == ToolsNode ==> |s.messages| > 0
    ensures Run(n, s, a, fuel).Some? ==>
              s.messages <= Run(n, s, a, fuel).value.messages &&
              Run(n, s, a, fuel).value.products == s.products
    decreases fuel
  {
    if n != End && fuel > 0 {
      var t := Step(n, s, a);
      assert t.products == s.products;
      RunAppendOnly(Next(n, t), t, a, fuel - 1);
    }
  }

  /**
    * A run that ends does so right after the agent node: the last message is
    * the model's reply to everything before it, and it asks for no tool.
    */
  lemma {:induction false} RunEndsWithFinalAnswer(n: Node, s: State, a: Agent, fuel: nat)
    requires n != End && (n == ToolsNode ==> |s.messages| > 0)
    ensures Run(n, s, a, fuel).Some? ==>
              var msgs := Run(n, s, a, fuel).value.messages;
              && |msgs| > |s.messages|
              && !RequestsTools(Last(msgs))
              && Last(msgs) == a.llm(ModelInput(a.prompt, msgs[..|msgs| - 1]))
    decreases fuel
  {
    if fuel > 0 {
      var t := Step(n, s, a);
      assert Run(n, s, a, fuel) == Run(Next(n, t), t, a, fuel - 1);
      if Next(n, t) == End {
        AgentStepAppendsReply(s, a);
        AppendOne(s.messages, a.llm(ModelInput(a.prompt, s.messages)));
      } else {
        RunEndsWithFinalAnswer(Next(n, t), t, a, fuel - 1);
      }
    }
  }

  /**
    * The tools node answers every pending call: the state grows by one tool
    * message per call of the last AI message, in call order.
    */
  lemma ToolStepAnswersEveryCall(s: State, a: Agent)
    requires |s.messages| > 0 && RequestsTools(Last(s.messages))
    ensures var t := Step(ToolsNode, s, a);
            var calls := Last(s.messages).toolCalls;
            && |t.messages| == |s.messages| + |calls|
            && (forall i :: 0 <= i < |calls| ==> t.messages[|s.messages| + i] == Tool(a.tool(calls[i])))
  {
  }

  /** A model that asks for some tool whatever it is sent. */
  ghost predicate AlwaysCallsTools(llm: seq<Message> -> Message) {
    forall msgs :: RequestsTools(llm(msgs))
  }

  /** One such model: it always asks to search the catalogue. */
  function AlwaysSearch(msgs: seq<Message>): (m: Message)
    ensures RequestsTools(m)
  {
    Ai("", [ToolCall("call", "search_products")])
  }

  /**
    * The graph sets no bound of its own on the agent/tools cycle: with a model
    * that always asks for a tool, no amount of fuel reaches the end.
    */
  lemma NoIterationBound(n: Node, s: State, a: Agent, fuel: nat)
    requires AlwaysCallsTools(a.llm)
    requires n == AgentNode || (n == ToolsNode && |s.messages| > 0)
    ensures Run(n, s, a, fuel).None?
  {
    if n == AgentNode {
      AgentLoops(s, a, fuel);
    } else {
      ToolsLoop(s, a, fuel);
    }
  }

  /** From the agent node: the reply asks for tools, so the run goes on to the tools node. */
  lemma {:induction false} AgentLoops(s: State, a: Agent, fuel: nat)
    requires AlwaysCallsTools(a.llm)
    ensures Run(AgentNode, s, a, fuel).None?
    decreases fuel
  {
    if fuel > 0 {
      var t := Step(AgentNode, s, a);
      var reply := a.llm(ModelInput(a.prompt, s.messages));
      AgentStepAppendsReply(s, a);
      AppendOne(s.messages, reply);
      assert RequestsTools(Last(t.messages));
      ToolsLoop(t, a, fuel - 1);
    }
  }

  /** From the tools node the run always goes back to the agent node. */
  lemma {:induction false} ToolsLoop(s: State, a: Agent, fuel: nat)
    requires AlwaysCallsTools(a.llm)
    requires |s.messages| > 0
    ensures Run(ToolsNode, s, a, fuel).None?
    decreases fuel
  {
    if fuel > 0 {
      AgentLoops(Step(ToolsNode, s, a), a, fuel - 1);
    }
  }

  /** The storefront's system prompt does not change that: searching forever never ends a run. */
  lemma StorefrontHasNoIterationBound(tool: ToolCall -> ToolPayload, s: State, fuel: nat)
    ensures Run(AgentNode, s, Storefront(AlwaysSearch, tool), fuel).None?
  {
    NoIterationBound(AgentNode, s, Storefront(AlwaysSearch, tool), fuel);
  }

  /**
    * What `agent.invoke` hands back to the chat endpoint: the conversation it
    * was given, followed by at least the final reply, which asks for no tool.
    */
  lemma InvokeExtendsConversation(conversation: seq<Message>, a: Agent, fuel: nat)
    ensures Invoke(conversation, a, fuel).Some? ==>
              var msgs := Invoke(conversation, a, fuel).value;
              && conversation <= msgs
              && |msgs| > |conversation|
              && !RequestsTools(Last(msgs))
  {
    var s := Initial(Update(Some(conversation), Some([])));
    if fuel > 0 {
      var t := Step(Start, s, a);
      assert t == s;
      RunAppendOnly(AgentNode, t, a, fuel - 1);
      RunEndsWithFinalAnswer(AgentNode, t, a, fuel - 1);
    }
  }
}
