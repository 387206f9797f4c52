/**
 * The server procedures of the core: the chat turn (`chat.sendMessage`), the
 * conversation read-back (`chat.getHistory`) and the budget recommendations
 * (`vehicle.getByBudget`). The language model, the id generator and the clock
 * are parameters.
 */
module Router {
  import opened Wrappers
  import opened Text
  import opened Schema
  import opened Seqs
  import Budget
  import opened ChatContext
  import opened Store

  // ---- the chat turn ----

  datatype CompletionRole = SystemTurn | UserTurn | AssistantTurn

  datatype CompletionMessage = CompletionMessage(role: CompletionRole, content: string)

  /**
   * What the completion call gives back: a string content, a reply whose content is
   * missing or not a string, or a failure (the call throws).
   */
  datatype LlmReply = TextReply(text: string) | OtherContent | LlmFailure

  /** The reply used when the model's content is not a string ("sorry, I could not answer, try again"). */
  const Apology := "සමාවන්න, මට පිළිතුරක් දෙන්න බැරි වුණා. නැවත උත්සාහ කරන්න."

  /** The persona prose around the knowledge base: the text before it and the guidelines after it. */
  datatype Persona = Persona(intro: string, guidelines: string)

  datatype ChatInput = ChatInput(message: string, sessionId: Option<string>)

  datatype ChatResponse = ChatResponse(sessionId: string, message: string)

  /**
   * How a turn fails: the input is refused before anything runs; the user turn
   * cannot be stored (that error is passed on as it is); or the model call or the
   * assistant save fails ("chat service temporarily unavailable").
   */
  datatype ChatError = BadRequest | StoreFailure | ServiceUnavailable

  /** The message is 1 to 1000 UTF-16 code units long; the session id is any string or absent. */
  predicate ValidInput(input: ChatInput) {
    1 <= Utf16Length(input.message) <= 1000
  }

  /** `input.sessionId || nanoid()`: a given non-empty id, otherwise the fresh one. */
  function SessionFor(input: ChatInput, freshId: string): (sid: string)
    ensures input.sessionId.Some? && input.sessionId.value != "" ==> sid == input.sessionId.value
    ensures input.sessionId.None? || input.sessionId.value == "" ==> sid == freshId
  {
    if input.sessionId.Some? && input.sessionId.value != "" then input.sessionId.value else freshId
  }

  /** The system prompt embeds the knowledge base verbatim between the persona texts. */
  function SystemPrompt(p: Persona, context: string): (r: string)
    ensures |r| == |p.intro| + |context| + |p.guidelines|
    ensures r[..|p.intro|] == p.intro && r[|p.intro|..|p.intro| + |context|] == context
  {
    p.intro + context + p.guidelines
  }

  function AsCompletion(c: ChatRow): CompletionMessage {
    CompletionMessage(if c.role == User then UserTurn else AssistantTurn, c.content)
  }

  /** The listings within the budget the message mentions (with a reliability floor of 6), or none. */
  function BudgetListings(st: Store, message: string): seq<Listing> {
    match Budget.Extract(message)
    case None => []
    case Some(m) =>
      Budget.ExtractTakesWholeRun(message);
      ListingsByBudget(st, Budget.Ceiling(m), Some(6))
  }

  /**
   * The messages sent to the model: the system prompt, the session's last ten rows
   * oldest first, then the current message.
   */
  function Prompt(st: Store, message: string, sessionId: string, persona: Persona): seq<CompletionMessage> {
    Framing(persona, KnowledgeBase(st, message), Reverse(ChatHistory(st, sessionId, 10)), message)
  }

  /** The knowledge base the system prompt carries: the models, five good deals, the listings within the budget. */
  function KnowledgeBase(st: Store, message: string): string {
    VehicleContext(AllModels(st), GoodDeals(st, 5), BudgetListings(st, message))
  }

  /** The system message over the knowledge base, one message per turn, then the current message. */
  function Framing(persona: Persona, knowledge: string, turns: seq<ChatRow>, message: string): seq<CompletionMessage> {
    [CompletionMessage(SystemTurn, SystemPrompt(persona, knowledge))]
      + Map(turns, AsCompletion)
      + [CompletionMessage(UserTurn, message)]
  }

  /** Where the system message, the turns and the current message sit among the framed messages. */
  lemma FramingShape(persona: Persona, knowledge: string, turns: seq<ChatRow>, message: string)
    ensures var p := Framing(persona, knowledge, turns, message);
      && |p| == |turns| + 2
      && p[0] == CompletionMessage(SystemTurn, SystemPrompt(persona, knowledge))
      && (forall i :: 0 <= i < |turns| ==> p[i + 1] == AsCompletion(turns[i]))
      && p[|p| - 1] == CompletionMessage(UserTurn, message)
  {
    Framed(CompletionMessage(SystemTurn, SystemPrompt(persona, knowledge)), turns, AsCompletion,
      CompletionMessage(UserTurn, message));
  }

  /** The assistant row's metadata: a budget range from 0 to digits times 100,000 when a budget was detected. */
  function AssistantMetadata(message: string): (r: Option<ChatMetadata>)
    ensures r.Some? <==> Budget.Extract(message).Some?
    ensures r.Some? ==> r.value.budgetRange.Some? && r.value.budgetRange.value.min == 0
    ensures r.Some? ==> var m := Budget.Extract(message).value;
      && (forall k :: 0 <= k < |m.digits| ==> IsDigit(m.digits[k]))
      && r.value == ChatMetadata(None, Some(BudgetRange(0, Budget.StoredMax(m))), None)
  {
    match Budget.Extract(message)
    case None => None
    case Some(m) =>
      Budget.ExtractTakesWholeRun(message);
      Some(ChatMetadata(None, Some(BudgetRange(0, Budget.StoredMax(m))), None))
  }

  /**
   * "I have 2 million" searches listings up to 2,000,000 (`Budget.ExampleMillion`)
   * yet records a maximum of 200,000.
   */
  lemma MillionMessageRecordsTenth()
    ensures AssistantMetadata("I have 2 million") == Some(ChatMetadata(None, Some(BudgetRange(0, 200000)), None))
  {
    Budget.ExampleMillion();
    assert Budget.Amount(Budget.BudgetMatch(7, "2", Budget.Million)) == 2;
  }

  /** The reply text: the model's string content, otherwise the apology. */
  function ReplyText(reply: LlmReply): string
    requires !reply.LlmFailure?
  {
    if reply.TextReply? then reply.text else Apology
  }

  datatype TurnResult = TurnResult(outcome: Result<ChatResponse, ChatError>, store: Store)

  /** The part of the turn after the model call: store the reply and answer with it. */
  function Answer(st1: Store, sid: string, message: string, reply: LlmReply, tAssistant: int): TurnResult {
    if reply.LlmFailure? then TurnResult(Failure(ServiceUnavailable), st1)
    else
      var text := ReplyText(reply);
      match SaveChat(st1, NewChatMessage(sid, None, Assistant, text, AssistantMetadata(message)), tAssistant)
      case None => TurnResult(Failure(ServiceUnavailable), st1)
      case Some(st2) => TurnResult(Success(ChatResponse(sid, text)), st2)
  }

  /**
   * One chat turn: validate, store the user turn, read history and vehicle data,
   * ask the model, store the assistant turn, answer.
   */
  function ChatTurn(st: Store, input: ChatInput, persona: Persona, llm: seq<CompletionMessage> -> LlmReply,
                    freshId: string, tUser: int, tAssistant: int): TurnResult
  {
    if !ValidInput(input) then TurnResult(Failure(BadRequest), st)
    else
      var sid := SessionFor(input, freshId);
      match SaveChat(st, NewChatMessage(sid, None, User, input.message, None), tUser)
      case None => TurnResult(Failure(StoreFailure), st)
      case Some(st1) => Answer(st1, sid, input.message, llm(Prompt(st1, input.message, sid, persona)), tAssistant)
  }

  /**
   * The prompt's shape: the system prompt over the knowledge base, then the
   * session's newest rows (ten, or all when there are fewer) oldest first, then
   * the current message. `Store.HistoryLeavesOutOlder` and `Store.HistoryNoRepeats`
   * add that no newer session row is left out and none is sent twice.
   */
  lemma {:induction false} PromptWindow(st: Store, message: string, sid: string, persona: Persona)
    ensures var p := Prompt(st, message, sid, persona);
      var w := Reverse(ChatHistory(st, sid, 10));
      && |p| == |w| + 2
      && p[0] == CompletionMessage(SystemTurn, SystemPrompt(persona, KnowledgeBase(st, message)))
      && (forall i :: 0 <= i < |w| ==> p[i + 1] == AsCompletion(w[i]))
      && p[|p| - 1] == CompletionMessage(UserTurn, message)
      && |w| == (if 10 <= |SessionRows(AllChats(st), sid)| then 10 else |SessionRows(AllChats(st), sid)|)
      && (forall i :: 0 <= i < |w| ==> w[i] in AllChats(st) && w[i].sessionId == sid)
      && SortedBy(w, CreatedAt)
  {
    FramingShape(persona, KnowledgeBase(st, message), Reverse(ChatHistory(st, sid, 10)), message);
    HistoryOldestFirst(st, sid, 10);
  }

  /** A refused input changes nothing. */
  lemma InvalidInputWritesNothing(st: Store, input: ChatInput, persona: Persona, llm: seq<CompletionMessage> -> LlmReply,
                                  freshId: string, tUser: int, tAssistant: int)
    requires !ValidInput(input)
    ensures ChatTurn(st, input, persona, llm, freshId, tUser, tAssistant) == TurnResult(Failure(BadRequest), st)
  {
  }

  /**
   * A successful turn answers in the session it stored into, with the model's text
   * or the apology, and, with a connection, adds exactly two rows: the user's message
   * and then the reply, the reply carrying a budget range exactly when the message
   * mentions a budget.
   */
  lemma SuccessfulTurn(st: Store, input: ChatInput, persona: Persona, llm: seq<CompletionMessage> -> LlmReply,
                       freshId: string, tUser: int, tAssistant: int)
    requires ChatTurn(st, input, persona, llm, freshId, tUser, tAssistant).outcome.Success?
    ensures var t := ChatTurn(st, input, persona, llm, freshId, tUser, tAssistant);
      var sid := SessionFor(input, freshId);
      var r := t.outcome.value;
      && ValidInput(input)
      && r.sessionId == sid
      && (st.Offline? ==> t.store == Offline)
      && (st.Online? ==>
            var before := st.tables.chats;
            && t.store.Online?
            && t.store.tables.chats == before
               + [ChatRow(|before| + 1, sid, None, User, input.message, None, tUser)]
               + [ChatRow(|before| + 2, sid, None, Assistant, r.message, AssistantMetadata(input.message), tAssistant)])
  {
    var sid := SessionFor(input, freshId);
    var st1 := SaveChat(st, NewChatMessage(sid, None, User, input.message, None), tUser);
    assert ValidInput(input) && st1.Some?;
    var reply := llm(Prompt(st1.value, input.message, sid, persona));
    assert ChatTurn(st, input, persona, llm, freshId, tUser, tAssistant)
      == Answer(st1.value, sid, input.message, reply, tAssistant);
    SavedThenAnswered(st, sid, input.message, reply, tUser, tAssistant);
  }

  /** The user's row and then the reply row, when both saves succeed. */
  lemma SavedThenAnswered(st: Store, sid: string, message: string, reply: LlmReply, tUser: int, tAssistant: int)
    requires SaveChat(st, NewChatMessage(sid, None, User, message, None), tUser).Some?
    requires Answer(SaveChat(st, NewChatMessage(sid, None, User, message, None), tUser).value,
                    sid, message, reply, tAssistant).outcome.Success?
    ensures var t := Answer(SaveChat(st, NewChatMessage(sid, None, User, message, None), tUser).value,
                            sid, message, reply, tAssistant);
      var r := t.outcome.value;
      && r.sessionId == sid
      && (st.Offline? ==> t.store == Offline)
      && (st.Online? ==>
            var before := st.tables.chats;
            && t.store.Online?
            && t.store.tables.chats == before
               + [ChatRow(|before| + 1, sid, None, User, message, None, tUser)]
               + [ChatRow(|before| + 2, sid, None, Assistant, r.message, AssistantMetadata(message), tAssistant)])
  {
    var st1 := SaveChat(st, NewChatMessage(sid, None, User, message, None), tUser).value;
    AnswerAppends(st1, sid, message, reply, tAssistant);
  }

  /** A stored reply is one more row after the rows already there. */
  lemma AnswerAppends(st1: Store, sid: string, message: string, reply: LlmReply, tAssistant: int)
    requires Answer(st1, sid, message, reply, tAssistant).outcome.Success?
    ensures !reply.LlmFailure?
    ensures var t := Answer(st1, sid, message, reply, tAssistant);
      && t.outcome.value == ChatResponse(sid, ReplyText(reply))
      && (st1.Offline? ==> t.store == Offline)
      && (st1.Online? ==>
            && t.store.Online?
            && t.store.tables.chats == st1.tables.chats
               + [ChatRow(|st1.tables.chats| + 1, sid, None, Assistant, ReplyText(reply), AssistantMetadata(message), tAssistant)])
  {
  }

  /** The reply is the model's text when it gave a string, and the apology otherwise. */
  lemma ReplyFromModel(st: Store, input: ChatInput, persona: Persona, llm: seq<CompletionMessage> -> LlmReply,
                       freshId: string, tUser: int, tAssistant: int)
    requires ChatTurn(st, input, persona, llm, freshId, tUser, tAssistant).outcome.Success?
    ensures var sid := SessionFor(input, freshId);
      var st1 := SaveChat(st, NewChatMessage(sid, None, User, input.message, None), tUser);
      var r := ChatTurn(st, input, persona, llm, freshId, tUser, tAssistant).outcome.value;
      && st1.Some?
      && var reply := llm(Prompt(st1.value, input.message, sid, persona));
      && (reply.TextReply? ==> r.message == reply.text)
      && (!reply.TextReply? ==> r.message == Apology)
  {
    var sid := SessionFor(input, freshId);
    var st1 := SaveChat(st, NewChatMessage(sid, None, User, input.message, None), tUser);
    assert ValidInput(input) && st1.Some?;
    var reply := llm(Prompt(st1.value, input.message, sid, persona));
    assert ChatTurn(st, input, persona, llm, freshId, tUser, tAssistant)
      == Answer(st1.value, sid, input.message, reply, tAssistant);
  }

  /** When the model call fails, the user's message stays stored and no reply row is written. */
  lemma ModelFailureKeepsUserTurn(st: Store, input: ChatInput, persona: Persona, llm: seq<CompletionMessage> -> LlmReply,
                                  freshId: string, tUser: int, tAssistant: int)
    requires ValidInput(input) && st.Online?
    requires var sid := SessionFor(input, freshId);
      ChatRowFits(NewChatMessage(sid, None, User, input.message, None))
      && llm(Prompt(SaveChat(st, NewChatMessage(sid, None, User, input.message, None), tUser).value, input.message, sid, persona)).LlmFailure?
    ensures var t := ChatTurn(st, input, persona, llm, freshId, tUser, tAssistant);
      && t.outcome == Failure(ServiceUnavailable)
      && t.store.Online?
      && t.store.tables.chats == st.tables.chats + [ChatRow(|st.tables.chats| + 1, SessionFor(input, freshId), None, User, input.message, None, tUser)]
  {
  }

  /**
   * When the model answers but the reply row is rejected (a reply longer than its
   * column), the turn fails as unavailable and only the user's message stays stored.
   */
  lemma AssistantSaveFailureKeepsUserTurn(st: Store, input: ChatInput, persona: Persona,
                                          llm: seq<CompletionMessage> -> LlmReply,
                                          freshId: string, tUser: int, tAssistant: int)
    requires ValidInput(input) && st.Online?
    requires ChatRowFits(NewChatMessage(SessionFor(input, freshId), None, User, input.message, None))
    requires var sid := SessionFor(input, freshId);
      var reply := llm(Prompt(SaveChat(st, NewChatMessage(sid, None, User, input.message, None), tUser).value,
                              input.message, sid, persona));
      && !reply.LlmFailure?
      && !ChatRowFits(NewChatMessage(sid, None, Assistant, ReplyText(reply), AssistantMetadata(input.message)))
    ensures var t := ChatTurn(st, input, persona, llm, freshId, tUser, tAssistant);
      && t.outcome == Failure(ServiceUnavailable)
      && t.store.Online?
      && t.store.tables.chats == st.tables.chats + [ChatRow(|st.tables.chats| + 1, SessionFor(input, freshId), None, User, input.message, None, tUser)]
  {
    var sid := SessionFor(input, freshId);
    var st1 := SaveChat(st, NewChatMessage(sid, None, User, input.message, None), tUser).value;
    var reply := llm(Prompt(st1, input.message, sid, persona));
    var text := ReplyText(reply);
    assert SaveChat(st1, NewChatMessage(sid, None, Assistant, text, AssistantMetadata(input.message)), tAssistant).None?;
  }

  /** A session id longer than its column makes the first save fail, and nothing is written. */
  lemma OverlongSessionFails(st: Store, input: ChatInput, persona: Persona, llm: seq<CompletionMessage> -> LlmReply,
                             freshId: string, tUser: int, tAssistant: int)
    requires ValidInput(input) && st.Online? && |SessionFor(input, freshId)| > SessionIdMaxLength
    ensures ChatTurn(st, input, persona, llm, freshId, tUser, tAssistant) == TurnResult(Failure(StoreFailure), st)
  {
  }

  /**
   * The history is read after the user's message is stored, so when the clock has
   * moved past every stored row the current message reaches the model twice: as the
   * newest history entry and again as the final message.
   */
  lemma CurrentMessageSentTwice(st: Store, message: string, sid: string, persona: Persona, tUser: int)
    requires st.Online?
    requires forall i :: 0 <= i < |st.tables.chats| ==> st.tables.chats[i].createdAt < tUser
    requires ChatRowFits(NewChatMessage(sid, None, User, message, None))
    ensures var st1 := SaveChat(st, NewChatMessage(sid, None, User, message, None), tUser).value;
      var p := Prompt(st1, message, sid, persona);
      && |p| >= 3
      && p[|p| - 2] == CompletionMessage(UserTurn, message)
      && p[|p| - 1] == CompletionMessage(UserTurn, message)
  {
    var msg := NewChatMessage(sid, None, User, message, None);
    var st1 := SaveChat(st, msg, tUser).value;
    var row := ChatRowFor(msg, |st.tables.chats| + 1, tUser);
    SavedRowLeadsHistory(st, msg, tUser, 10);
    var history := ChatHistory(st1, sid, 10);
    var w := Reverse(history);
    assert w[|w| - 1] == row;
    var p := Prompt(st1, message, sid, persona);
    PromptWindow(st1, message, sid, persona);
    assert p[|w|] == AsCompletion(row);
  }

  // ---- getByBudget ----

  /** `new Map(models.map(m => [m.baseModel, m])).get(name)`: the last model with that name. */
  function ModelLookup(models: seq<VehicleModel>, name: string): (r: Option<VehicleModel>)
    ensures r.None? <==> forall i :: 0 <= i < |models| ==> models[i].baseModel != name
    ensures r.Some? ==> r.value in models && r.value.baseModel == name
    ensures r.Some? ==> exists i ::
      && 0 <= i < |models| && models[i] == r.value
      && forall j :: i < j < |models| ==> models[j].baseModel != name
  {
    if models == [] then None
    else if models[|models| - 1].baseModel == name then Some(models[|models| - 1])
    else ModelLookup(models[..|models| - 1], name)
  }

  /** The store's score lookup and the router's model lookup find the same model. */
  lemma {:induction false} LookupsAgree(models: seq<VehicleModel>, name: string)
    ensures ScoreLookup(models, name) == (match ModelLookup(models, name)
      case None => None
      case Some(m) => Some(m.reliabilityScore))
  {
    if models != [] && models[|models| - 1].baseModel != name {
      LookupsAgree(models[..|models| - 1], name);
    }
  }

  /** A recommendation: the listing, the score of its model (`|| 7`) and the model itself. */
  datatype BudgetPick = BudgetPick(listing: Listing, reliabilityScore: int, modelInfo: Option<VehicleModel>)

  /** `?.reliabilityScore || 7`: a missing model or a score of 0 shows as 7. */
  function ShownScore(m: Option<VehicleModel>): (s: int)
    ensures s != 0
    ensures m.Some? && m.value.reliabilityScore != 0 ==> s == m.value.reliabilityScore
    ensures m.None? || m.value.reliabilityScore == 0 ==> s == DefaultReliabilityScore
  {
    if m.Some? && m.value.reliabilityScore != 0 then m.value.reliabilityScore else DefaultReliabilityScore
  }

  // ---- the procedures over a database handle ----

  class ChatService {
    const db: Database

    constructor (db: Database)
      ensures this.db == db
    {
      this.db := db;
    }

    /** `chat.sendMessage`: the turn, with the history reversed in place as the source does. */
    method SendMessage(input: ChatInput, persona: Persona, llm: seq<CompletionMessage> -> LlmReply,
                       freshId: string, tUser: int, tAssistant: int) returns (r: Result<ChatResponse, ChatError>)
      modifies db
      ensures var t := ChatTurn(old(db.store), input, persona, llm, freshId, tUser, tAssistant);
        r == t.outcome && db.store == t.store
    {
      if !ValidInput(input) {
        return Failure(BadRequest);
      }
      var sid := SessionFor(input, freshId);
      var saved := db.SaveChatMessage(NewChatMessage(sid, None, User, input.message, None), tUser);
      if !saved {
        return Failure(StoreFailure);
      }
      var history := ChatHistory(db.store, sid, 10);
      var oldestFirst := ReversedCopy(history);
      var context := KnowledgeBase(db.store, input.message);
      var messages := [CompletionMessage(SystemTurn, SystemPrompt(persona, context))]
        + Map(oldestFirst, AsCompletion)
        + [CompletionMessage(UserTurn, input.message)];
      assert messages == Prompt(db.store, input.message, sid, persona);
      var reply := llm(messages);
      r := StoreReply(sid, input.message, reply, tAssistant);
    }

    /** The steps after the model call: store the reply, answer with it. */
    method StoreReply(sid: string, message: string, reply: LlmReply, tAssistant: int) returns (r: Result<ChatResponse, ChatError>)
      modifies db
      ensures var t := Answer(old(db.store), sid, message, reply, tAssistant);
        r == t.outcome && db.store == t.store
    {
      if reply.LlmFailure? {
        return Failure(ServiceUnavailable);
      }
      var text := ReplyText(reply);
      var saved := db.SaveChatMessage(NewChatMessage(sid, None, Assistant, text, AssistantMetadata(message)), tAssistant);
      if !saved {
        return Failure(ServiceUnavailable);
      }
      r := Success(ChatResponse(sid, text));
    }

    /**
     * `chat.getHistory`: the session's last fifty rows, oldest first; when the
     * session has fewer, all of them.
     */
    method GetHistory(sessionId: string) returns (r: seq<ChatRow>)
      ensures r == Reverse(ChatHistory(db.store, sessionId, 50))
      ensures |r| <= 50
      ensures forall i :: 0 <= i < |r| ==> r[i] in AllChats(db.store) && r[i].sessionId == sessionId
      ensures SortedBy(r, CreatedAt)
      ensures |r| < 50 ==> forall c :: c in AllChats(db.store) && c.sessionId == sessionId ==> c in r
    {
      var history := ChatHistory(db.store, sessionId, 50);
      r := ReversedCopy(history);
      HistoryOldestFirst(db.store, sessionId, 50);
      ReverseMembers(history);
    }

    /**
     * `vehicle.getByBudget`: the budget listings in the store's order, each with
     * its model (the last of that name) and the score shown for it.
     */
    method GetByBudget(maxBudget: int, minReliability: Option<int>) returns (r: seq<BudgetPick>)
      ensures var ls := ListingsByBudget(db.store, maxBudget, minReliability);
        && |r| == |ls|
        && forall i :: 0 <= i < |r| ==>
          && r[i].listing == ls[i]
          && r[i].modelInfo == ModelLookup(AllModels(db.store), ls[i].baseModel)
          && r[i].reliabilityScore == ShownScore(r[i].modelInfo)
    {
      var listings := ListingsByBudget(db.store, maxBudget, minReliability);
      var models := AllModels(db.store);
      r := [];
      for i := 0 to |listings|
        invariant |r| == i
        invariant forall k :: 0 <= k < i ==>
          && r[k].listing == listings[k]
          && r[k].modelInfo == ModelLookup(models, listings[k].baseModel)
          && r[k].reliabilityScore == ShownScore(r[k].modelInfo)
      {
        var info := ModelLookup(models, listings[i].baseModel);
        r := r + [BudgetPick(listings[i], ShownScore(info), info)];
      }
    }
  }
}
