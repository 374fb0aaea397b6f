/**
  * The `POST /api/agent/chat` handler: validates the message, turns the
  * posted history into conversation messages, runs the agent, and answers
  * with the final AI text and the products the tools surfaced.
  *
  * The request body arrives already parsed (`None` when `req.json()` throws);
  * the agent run is a parameter mapping the conversation to the final message
  * list, or to `None` when it throws.
  */
module ChatRoute {
  import opened Builtins
  import opened Seqs
  import opened Catalog
  import opened Messages
  import AgentTools

  const MessageRequired := "Message is required"
  const ProcessingFailed := "Failed to process request"

  datatype ChatRequest = ChatRequest(message: Option<string>, history: seq<HistoryEntry>)

  datatype ResponseBody =
    | Answer(content: string, products: Option<seq<ToolProduct>>)
    | Failure(error: string)

  datatype ChatResponse = ChatResponse(status: int, body: ResponseBody)

  // ---------------------------------------------------------------------------
  // History

  predicate KnownRole(e: HistoryEntry) {
    e.role == "user" || e.role == "assistant"
  }

  /** A `user` entry becomes a human message and an `assistant` entry an AI message without tool calls. */
  function ToMessage(e: HistoryEntry): Message
    requires KnownRole(e)
  {
    if e.role == "user" then Human(e.content) else Ai(e.content, [])
  }

  /** `history.map(msg => user ? Human : assistant ? AI : null).filter(Boolean)` */
  function HistoryMessages(history: seq<HistoryEntry>): (r: seq<Message>)
    ensures |r| <= |history|
    decreases |history|
  {
    if history == [] then []
    else (if KnownRole(history[0]) then [ToMessage(history[0])] else []) + HistoryMessages(history[1..])
  }

  /**
    * The conversion agrees with the reference reading "keep the entries with
    * a known role, then convert each, in order".
    */
  lemma {:induction false} HistoryMessagesIsFilterThenMap(history: seq<HistoryEntry>)
    ensures var known := Filter(history, KnownRole);
            HistoryMessages(history) == seq(|known|, i requires 0 <= i < |known| => ToMessage(known[i]))
    decreases |history|
  {
    if history != [] {
      HistoryMessagesIsFilterThenMap(history[1..]);
    }
  }

  /** Converting two stretches of history and joining them is converting the whole: order is kept. */
  lemma {:induction false} HistoryMessagesAppend(a: seq<HistoryEntry>, b: seq<HistoryEntry>)
    ensures HistoryMessages(a + b) == HistoryMessages(a) + HistoryMessages(b)
    decreases |a|
  {
    if a == [] {
      assert a + b == b;
    } else {
      var head := if KnownRole(a[0]) then [ToMessage(a[0])] else [];
      assert (a + b)[0] == a[0];
      assert (a + b)[1..] == a[1..] + b;
      assert HistoryMessages(a + b) == head + HistoryMessages(a[1..] + b);
      assert HistoryMessages(a) == head + HistoryMessages(a[1..]);
      HistoryMessagesAppend(a[1..], b);
      assert head + (HistoryMessages(a[1..]) + HistoryMessages(b)) == (head + HistoryMessages(a[1..])) + HistoryMessages(b);
    }
  }

  /** An entry with any other role is dropped. */
  lemma UnknownRoleDropped(e: HistoryEntry)
    requires !KnownRole(e)
    ensures HistoryMessages([e]) == []
  {
  }

  /** When every role is known, nothing is dropped and each entry keeps its place. */
  lemma {:induction false} KnownHistoryKept(history: seq<HistoryEntry>)
    requires forall i :: 0 <= i < |history| ==> KnownRole(history[i])
    ensures |HistoryMessages(history)| == |history|
    ensures forall i :: 0 <= i < |history| ==> HistoryMessages(history)[i] == ToMessage(history[i])
    decreases |history|
  {
    if history != [] {
      KnownHistoryKept(history[1..]);
    }
  }

  /** The messages handed to the agent: the converted history, then the current message. */
  function Conversation(history: seq<HistoryEntry>, message: string): seq<Message> {
    HistoryMessages(history) + [Human(message)]
  }

  // ---------------------------------------------------------------------------
  // Products from tool messages

  /** What one message contributes: the `products` array of a parsable tool result, otherwise nothing. */
  function ProductsOf(m: Message): seq<ToolProduct> {
    if m.Tool? && m.payload.Payload? && m.payload.products.Some? then m.payload.products.value else []
  }

  /** The products of all tool messages, in message order, duplicates included. */
  function ToolProducts(msgs: seq<Message>): seq<ToolProduct>
    decreases |msgs|
  {
    if msgs == [] then [] else ProductsOf(msgs[0]) + ToolProducts(msgs[1..])
  }

  lemma {:induction false} ToolProductsAppend(a: seq<Message>, b: seq<Message>)
    ensures ToolProducts(a + b) == ToolProducts(a) + ToolProducts(b)
    decreases |a|
  {
    if a == [] {
      assert a + b == b;
    } else {
      assert (a + b)[1..] == a[1..] + b;
      ToolProductsAppend(a[1..], b);
    }
  }

  /** Only tool messages contribute: collecting over the tool messages alone gives the same list. */
  lemma {:induction false} ToolProductsOfToolMessages(msgs: seq<Message>)
    ensures ToolProducts(Filter(msgs, (m: Message) => m.Tool?)) == ToolProducts(msgs)
    decreases |msgs|
  {
    if msgs != [] {
      ToolProductsOfToolMessages(msgs[1..]);
      var head := if msgs[0].Tool? then [msgs[0]] else [];
      ToolProductsAppend(head, Filter(msgs[1..], (m: Message) => m.Tool?));
    }
  }

  /** A product is collected exactly when some tool message carries it. */
  lemma {:induction false} ToolProductsOrigin(msgs: seq<Message>, p: ToolProduct)
    ensures p in ToolProducts(msgs) <==> exists i :: 0 <= i < |msgs| && p in ProductsOf(msgs[i])
    decreases |msgs|
  {
    if msgs != [] {
      ToolProductsOrigin(msgs[1..], p);
      if p in ToolProducts(msgs[1..]) {
        var i :| 0 <= i < |msgs[1..]| && p in ProductsOf(msgs[1..][i]);
        assert p in ProductsOf(msgs[i + 1]);
      }
      if i :| 0 <= i < |msgs| && p in ProductsOf(msgs[i]) {
        if i > 0 { assert p in ProductsOf(msgs[1..][i - 1]); }
      }
    }
  }

  /** Tool messages carrying the tools' own results give back all their products, result after result. */
  lemma {:induction false} ToolResultsRoundTrip(results: seq<AgentTools.ToolResult>)
    ensures ToolProducts(seq(|results|, i requires 0 <= i < |results| => Tool(AgentTools.Encode(results[i]))))
            == Flatten(seq(|results|, i requires 0 <= i < |results| => results[i].products))
    decreases |results|
  {
    if results != [] {
      ToolResultsRoundTrip(results[1..]);
      var msgs := seq(|results|, i requires 0 <= i < |results| => Tool(AgentTools.Encode(results[i])));
      var lists := seq(|results|, i requires 0 <= i < |results| => results[i].products);
      assert msgs[1..] == seq(|results[1..]|, i requires 0 <= i < |results[1..]| => Tool(AgentTools.Encode(results[1..][i])));
      assert lists[1..] == seq(|results[1..]|, i requires 0 <= i < |results[1..]| => results[1..][i].products);
    }
  }

  /** The `forEach` over the tool messages, concatenating each parsable `products` array. */
  method CollectProducts(msgs: seq<Message>) returns (products: seq<ToolProduct>)
    ensures products == ToolProducts(msgs)
  {
    var toolMessages := Filter(msgs, (m: Message) => m.Tool?);
    products := [];
    var i := 0;
    while i < |toolMessages|
      invariant 0 <= i <= |toolMessages|
      invariant products == ToolProducts(toolMessages[..i])
    {
      ToolProductsAppend(toolMessages[..i], [toolMessages[i]]);
      assert toolMessages[..i + 1] == toolMessages[..i] + [toolMessages[i]];
      products := products + ProductsOf(toolMessages[i]);
      i := i + 1;
    }
    assert toolMessages[..i] == toolMessages;
    ToolProductsOfToolMessages(msgs);
  }

  // ---------------------------------------------------------------------------
  // The handler

  /** `POST`; `agentInput` is the conversation passed to `agent.invoke`, or None when it is not called. */
  method Post(request: Option<ChatRequest>, agent: seq<Message> -> Option<seq<Message>>)
    returns (response: ChatResponse, agentInput: Option<seq<Message>>)
    ensures request.None? ==> response == ChatResponse(500, Failure(ProcessingFailed)) && agentInput.None?
    ensures request.Some? && !Truthy(request.value.message) ==>
              response == ChatResponse(400, Failure(MessageRequired)) && agentInput.None?
    ensures request.Some? && Truthy(request.value.message) ==>
              agentInput == Some(Conversation(request.value.history, request.value.message.value))
    ensures agentInput.Some? && (agent(agentInput.value).None? || agent(agentInput.value).value == []) ==>
              response == ChatResponse(500, Failure(ProcessingFailed))
    ensures agentInput.Some? && agent(agentInput.value).Some? && agent(agentInput.value).value != [] ==>
              var msgs := agent(agentInput.value).value;
              var last := msgs[|msgs| - 1];
              && response.status == 200
              && (last.Ai? ==> response.body == Answer(last.content, if ToolProducts(msgs) == [] then None else Some(ToolProducts(msgs))))
              && (!last.Ai? ==> response.body == Answer("", None))
    ensures response.body.Answer? && response.body.products.Some? ==> response.body.products.value != []
  {
    agentInput := None;
    if request.None? {
      return ChatResponse(500, Failure(ProcessingFailed)), None;
    }
    var message := request.value.message;
    if !Truthy(message) {
      return ChatResponse(400, Failure(MessageRequired)), None;
    }
    var conversation := HistoryMessages(request.value.history);
    conversation := conversation + [Human(message.value)];
    agentInput := Some(conversation);
    var result := agent(conversation);
    if result.None? || result.value == [] {
      return ChatResponse(500, Failure(ProcessingFailed)), agentInput;
    }
    var msgs := result.value;
    var last := msgs[|msgs| - 1];
    var content := "";
    var products: seq<ToolProduct> := [];
    if last.Ai? {
      content := last.content;
      products := CollectProducts(msgs);
    }
    response := ChatResponse(200, Answer(content, if |products| > 0 then Some(products) else None));
  }
}
