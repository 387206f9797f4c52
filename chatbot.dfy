/**
 * The chat widget: an append-only conversation, the text box, a session id drawn
 * once when the widget is created, and the flag for a request in flight. The
 * request itself goes to the chat turn of the router; its outcome comes back as
 * `OnSuccess` (with the reply) or `OnError`.
 */
module ChatWidget {
  import opened Wrappers
  import opened Text
  import Router

  datatype Speaker = FromUser | FromAssistant

  datatype Message = Message(id: string, role: Speaker, content: string)

  /** The id of the greeting shown in an empty conversation. */
  const WelcomeId := "welcome"

  /**
   * What a send hands to the router: the trimmed text with the widget's session,
   * or nothing when the trimmed text is empty or a request is still pending.
   */
  function SendRequest(input: string, pending: bool, sessionId: string): (r: Option<Router.ChatInput>)
    ensures r.Some? <==> !pending && exists i :: 0 <= i < |input| && !IsSpace(input[i])
    ensures r.Some? ==> r.value.sessionId == Some(sessionId)
    ensures r.Some? ==> r.value.message != "" && Trim(input) == r.value.message
  {
    TrimEmptyIff(input);
    var text := Trim(input);
    if text == "" || pending then None else Some(Router.ChatInput(text, Some(sessionId)))
  }

  /** What is sent neither starts nor ends with white space. */
  lemma SentTextIsTrimmed(input: string, pending: bool, sessionId: string)
    requires SendRequest(input, pending, sessionId).Some?
    ensures var m := SendRequest(input, pending, sessionId).value.message;
      !IsSpace(m[0]) && !IsSpace(m[|m| - 1])
  {
    TrimShape(input);
  }

  /** The router keeps the widget's session: every turn of one widget lands in one conversation. */
  lemma RouterKeepsWidgetSession(input: string, pending: bool, sessionId: string, freshId: string)
    requires sessionId != ""
    requires SendRequest(input, pending, sessionId).Some?
    ensures Router.SessionFor(SendRequest(input, pending, sessionId).value, freshId) == sessionId
  {
  }

  /** Enter without Shift sends; every other key, Shift+Enter included, is typed into the box. */
  predicate SendsOnKey(key: string, shift: bool) {
    key == "Enter" && !shift
  }

  class ChatBot {
    var isOpen: bool
    var messages: seq<Message>
    var input: string
    var pending: bool
    /** Drawn once when the widget is created; never reassigned. */
    const sessionId: string
    /** The greeting text (the widget's fixed Sinhala welcome). */
    const welcome: string

    constructor(freshId: string, welcome: string)
      ensures !isOpen && messages == [] && input == "" && !pending
      ensures sessionId == freshId && this.welcome == welcome
    {
      isOpen := false;
      messages := [];
      input := "";
      pending := false;
      sessionId := freshId;
      this.welcome := welcome;
    }

    /** The mount effect: an empty conversation gets the greeting, anything else is left alone. */
    method Mount()
      modifies this
      ensures old(messages) == [] ==> messages == [Message(WelcomeId, FromAssistant, welcome)]
      ensures old(messages) != [] ==> messages == old(messages)
      ensures isOpen == old(isOpen) && input == old(input) && pending == old(pending)
    {
      if |messages| == 0 {
        messages := [Message(WelcomeId, FromAssistant, welcome)];
      }
    }

    method SetOpen(open: bool)
      modifies this
      ensures isOpen == open
      ensures messages == old(messages) && input == old(input) && pending == old(pending)
    {
      isOpen := open;
    }

    /**
     * Typing into the box. The page disables the box while a request is pending;
     * the model accepts the edit then as well, which changes no promise about
     * the conversation.
     */
    method SetInput(text: string)
      modifies this
      ensures input == text
      ensures messages == old(messages) && isOpen == old(isOpen) && pending == old(pending)
    {
      input := text;
    }

    /**
     * `handleSend`: a blank box or a pending request changes nothing; otherwise one
     * user message with the trimmed text is appended, the box is cleared and the
     * request is sent with the widget's session id.
     */
    method HandleSend(freshMsgId: string) returns (sent: Option<Router.ChatInput>)
      modifies this
      ensures sent == SendRequest(old(input), old(pending), sessionId)
      ensures sent.None? ==> messages == old(messages) && input == old(input) && pending == old(pending)
      ensures sent.Some? ==>
        && messages == old(messages) + [Message(freshMsgId, FromUser, sent.value.message)]
        && input == "" && pending
      ensures isOpen == old(isOpen)
    {
      sent := SendRequest(input, pending, sessionId);
      if sent.Some? {
        messages := messages + [Message(freshMsgId, FromUser, sent.value.message)];
        input := "";
        pending := true;
      }
    }

    /**
     * `handleKeyDown`: Enter without Shift sends, any other key changes nothing.
     * The disabled box delivers no key while a request is pending; here such a
     * key reaches the send, which then does nothing.
     */
    method HandleKeyDown(key: string, shift: bool, freshMsgId: string) returns (sent: Option<Router.ChatInput>)
      modifies this
      ensures SendsOnKey(key, shift) ==> sent == SendRequest(old(input), old(pending), sessionId)
      ensures !SendsOnKey(key, shift) ==> sent.None?
      ensures sent.None? ==> messages == old(messages) && input == old(input) && pending == old(pending)
      ensures sent.Some? ==>
        && messages == old(messages) + [Message(freshMsgId, FromUser, sent.value.message)]
        && input == "" && pending
      ensures isOpen == old(isOpen)
    {
      if SendsOnKey(key, shift) {
        sent := HandleSend(freshMsgId);
      } else {
        sent := None;
      }
    }

    /** The reply arrived: exactly one assistant message with the server's text is appended. */
    method OnSuccess(data: Router.ChatResponse, freshMsgId: string)
      modifies this
      ensures messages == old(messages) + [Message(freshMsgId, FromAssistant, data.message)]
      ensures !pending && input == old(input) && isOpen == old(isOpen)
    {
      messages := messages + [Message(freshMsgId, FromAssistant, data.message)];
      pending := false;
    }

    /** The request failed: there is no error handler, so only the pending flag drops. */
    method OnError()
      modifies this
      ensures messages == old(messages)
      ensures !pending && input == old(input) && isOpen == old(isOpen)
    {
      pending := false;
    }
  }

  /** One step the user or the network can take on the widget. */
  datatype Event =
    | Mounted
    | Toggled(open: bool)
    | Typed(text: string)
    | Sent(msgId: string)
    | KeyPressed(key: string, shift: bool, msgId: string)
    | Replied(data: Router.ChatResponse, msgId: string)
    | Failed

  /**
   * Runs a sequence of events on a widget: whatever happens, the earlier
   * conversation stays a prefix of the new one, and a conversation that starts empty
   * and is mounted first opens with the greeting.
   */
  method Run(w: ChatBot, events: seq<Event>)
    modifies w
    ensures |w.messages| >= |old(w.messages)| && w.messages[..|old(w.messages)|] == old(w.messages)
    ensures old(w.messages) == [] && events != [] && events[0].Mounted? ==>
      |w.messages| >= 1 && w.messages[0] == Message(WelcomeId, FromAssistant, w.welcome)
  {
    var k := 0;
    while k < |events|
      invariant 0 <= k <= |events|
      invariant k == 0 ==> w.messages == old(w.messages)
      invariant |w.messages| >= |old(w.messages)| && w.messages[..|old(w.messages)|] == old(w.messages)
      invariant old(w.messages) == [] && k > 0 && events[0].Mounted? ==>
        |w.messages| >= 1 && w.messages[0] == Message(WelcomeId, FromAssistant, w.welcome)
    {
      ghost var before := w.messages;
      match events[k] {
        case Mounted => w.Mount();
        case Toggled(open) => w.SetOpen(open);
        case Typed(text) => w.SetInput(text);
        case Sent(id) => var _ := w.HandleSend(id);
        case KeyPressed(key, shift, id) => var _ := w.HandleKeyDown(key, shift, id);
        case Replied(data, id) => w.OnSuccess(data, id);
        case Failed => w.OnError();
      }
      assert |w.messages| >= |before| && w.messages[..|before|] == before;
      k := k + 1;
    }
  }
}
