/**
  * The chat widget's state: the message list, the input box, the loading
  * flag and the open flag, with the transitions of sending a message and
  * closing the widget.
  *
  * `handleSend` awaits the chat endpoint in the middle, so it is split into
  * the part before the request (`BeginSend`, which hands back the request
  * body it would post) and the part after it (`FinishSend`, given what the
  * request produced). Rendering, scrolling and the Enter-key handler are
  * not modelled.
  */
module ShoppingAssistant {
  import opened Builtins
  import opened Catalog
  import opened Messages
  import ChatRoute

  const Greeting := "Hi! I'm your MinkenWorld AI. How can I help you find what you need today?"
  const Apology := "I'm sorry, I couldn't process that request."
  const ErrorText := "Sorry, I encountered an error. Please try again."

  datatype Role = User | Assistant

  datatype ChatMessage = ChatMessage(role: Role, content: string, products: Option<seq<ToolProduct>>)

  function RoleName(r: Role): string {
    match r
    case User => "user"
    case Assistant => "assistant"
  }

  /** `messages.map(m => ({ role: m.role, content: m.content }))` */
  function History(msgs: seq<ChatMessage>): (h: seq<HistoryEntry>)
    ensures |h| == |msgs|
    ensures forall i :: 0 <= i < |msgs| ==> h[i] == HistoryEntry(RoleName(msgs[i].role), msgs[i].content)
  {
    seq(|msgs|, i requires 0 <= i < |msgs| => HistoryEntry(RoleName(msgs[i].role), msgs[i].content))
  }

  /** Whether the response is `ok` (a 2xx status). */
  predicate Ok(status: int) {
    200 <= status < 300
  }

  /**
    * The assistant message a finished request adds. `outcome` is the
    * endpoint's response, or None when `fetch` or `response.json()` threw.
    */
  function ReplyMessage(outcome: Option<ChatRoute.ChatResponse>): (m: ChatMessage)
    ensures m.role == Assistant && m.content != ""
    ensures (outcome.None? || !Ok(outcome.value.status)) ==> m == ChatMessage(Assistant, ErrorText, None)
    ensures outcome.Some? && Ok(outcome.value.status) && outcome.value.body.Answer? ==>
              m.products == outcome.value.body.products &&
              (outcome.value.body.content != "" ==> m.content == outcome.value.body.content) &&
              (outcome.value.body.content == "" ==> m.content == Apology)
    ensures outcome.Some? && Ok(outcome.value.status) && outcome.value.body.Failure? ==>
              m == ChatMessage(Assistant, Apology, None)
  {
    if outcome.None? || !Ok(outcome.value.status) then ChatMessage(Assistant, ErrorText, None)
    else match outcome.value.body
      case Answer(content, products) => ChatMessage(Assistant, if content != "" then content else Apology, products)
      case Failure(_) => ChatMessage(Assistant, Apology, None)
  }

  /**
    * The shape every reachable message list has: the greeting, then user and
    * assistant messages in turn, ending with a user message exactly while a
    * request is in flight.
    */
  ghost predicate Alternating(msgs: seq<ChatMessage>, loading: bool) {
    && |msgs| > 0
    && msgs[0] == ChatMessage(Assistant, Greeting, None)
    && (forall i :: 0 < i < |msgs| ==> msgs[i].role == (if i % 2 == 1 then User else Assistant))
    && (loading <==> |msgs| % 2 == 0)
  }

  class Widget {
    var messages: seq<ChatMessage>
    var input: string
    var isLoading: bool
    var internalIsOpen: bool
    /** The `isOpen` prop, controlled by the embedding component. */
    var externalIsOpen: Option<bool>
    const isMobile: bool
    /** Whether an `onClose` callback was passed. */
    const hasOnClose: bool

    ghost predicate Valid()
      reads this
    {
      Alternating(messages, isLoading)
    }

    constructor(isMobile: bool, externalIsOpen: Option<bool>, hasOnClose: bool)
      ensures Valid()
      ensures messages == [ChatMessage(Assistant, Greeting, None)]
      ensures input == "" && !isLoading && !internalIsOpen
      ensures this.isMobile == isMobile && this.externalIsOpen == externalIsOpen && this.hasOnClose == hasOnClose
    {
      messages := [ChatMessage(Assistant, Greeting, None)];
      input := "";
      isLoading := false;
      internalIsOpen := false;
      this.externalIsOpen := externalIsOpen;
      this.isMobile := isMobile;
      this.hasOnClose := hasOnClose;
    }

    /** On mobile the prop decides, defaulting to closed; on desktop the widget's own flag. */
    function IsOpen(): (open: bool)
      reads this
      ensures isMobile ==> (open <==> externalIsOpen == Some(true))
      ensures !isMobile ==> (open <==> internalIsOpen)
    {
      if isMobile then externalIsOpen.GetOr(false) else internalIsOpen
    }

    /** Typing into the input box. */
    method SetInput(text: string)
      modifies this
      ensures input == text
      ensures messages == old(messages) && isLoading == old(isLoading) && internalIsOpen == old(internalIsOpen)
      ensures externalIsOpen == old(externalIsOpen)
    {
      input := text;
    }

    /** The floating button of the desktop widget. */
    method OpenWidget()
      modifies this
      ensures internalIsOpen
      ensures messages == old(messages) && input == old(input) && isLoading == old(isLoading)
      ensures externalIsOpen == old(externalIsOpen)
    {
      internalIsOpen := true;
    }

    /**
      * `handleSend` up to the request: ignored when the input is blank or a
      * request is in flight; otherwise the user message (untrimmed) is
      * appended, the input cleared, loading set, and the request body is the
      * input with the history as it was before the new message.
      */
    method BeginSend() returns (request: Option<ChatRoute.ChatRequest>)
      requires Valid()
      modifies this
      ensures Valid()
      ensures internalIsOpen == old(internalIsOpen) && externalIsOpen == old(externalIsOpen)
      ensures old(IsBlank(input) || isLoading) ==>
                request.None? && messages == old(messages) && input == old(input) && isLoading == old(isLoading)
      ensures !old(IsBlank(input) || isLoading) ==>
                && request == Some(ChatRoute.ChatRequest(Some(old(input)), History(old(messages))))
                && messages == old(messages) + [ChatMessage(User, old(input), None)]
                && input == ""
                && isLoading
    {
      if IsBlank(input) || isLoading {
        return None;
      }
      var userMessage := ChatMessage(User, input, None);
      var currentInput := input;
      request := Some(ChatRoute.ChatRequest(Some(currentInput), History(messages)));
      messages := messages + [userMessage];
      input := "";
      isLoading := true;
    }

    /**
      * `handleSend` after the request: exactly one assistant message is
      * appended, whatever the outcome, and loading ends.
      */
    method FinishSend(outcome: Option<ChatRoute.ChatResponse>)
      requires Valid() && isLoading
      modifies this
      ensures Valid()
      ensures messages == old(messages) + [ReplyMessage(outcome)]
      ensures !isLoading
      ensures input == old(input) && internalIsOpen == old(internalIsOpen) && externalIsOpen == old(externalIsOpen)
    {
      messages := messages + [ReplyMessage(outcome)];
      isLoading := false;
    }

    /**
      * `handleClose`: on mobile with an `onClose` callback the callback is
      * called (reported as `calledOnClose`) and nothing else changes;
      * otherwise the widget's own flag is cleared.
      */
    method HandleClose() returns (calledOnClose: bool)
      modifies this
      ensures calledOnClose <==> isMobile && hasOnClose
      ensures calledOnClose ==> internalIsOpen == old(internalIsOpen)
      ensures !calledOnClose ==> !internalIsOpen
      ensures !isMobile ==> !IsOpen()
      ensures messages == old(messages) && input == old(input) && isLoading == old(isLoading)
      ensures externalIsOpen == old(externalIsOpen)
    {
      if isMobile && hasOnClose {
        return true;
      }
      internalIsOpen := false;
      return false;
    }
  }

  /**
    * Every request the widget sends passes the endpoint's validation, and
    * every history entry in it has a role the endpoint keeps, so the agent
    * sees the whole visible conversation followed by the new message.
    */
  lemma SentRequestAccepted(msgs: seq<ChatMessage>, text: string)
    requires !IsBlank(text)
    ensures Truthy(Some(text))
    ensures |ChatRoute.HistoryMessages(History(msgs))| == |msgs|
    ensures forall i :: 0 <= i < |msgs| ==>
              ChatRoute.HistoryMessages(History(msgs))[i] ==
                (if msgs[i].role == User then Human(msgs[i].content) else Ai(msgs[i].content, []))
  {
    assert text != [];
    var h := History(msgs);
    assert forall i :: 0 <= i < |h| ==> ChatRoute.KnownRole(h[i]);
    ChatRoute.KnownHistoryKept(h);
  }
}
