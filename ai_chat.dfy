/** The AI chat page: the send handler over the chat store, the history it sends to the streaming
    service with per-chat sessions, how the service's callbacks and settled promise change the page
    and the store, the error texts, and the persona picker.

    `streamedResponse`, `assistantMessageId` and the chat id of the send's render are what the
    latest send's callbacks close over; they are held here next to the page's own state. */
module AIChat {

  import opened Wrappers
  import Text
  import ChatTypes
  import ChatContext

  type ChatSession = ChatContext.ChatSession

  datatype Persona = Persona(id: string, name: string, description: string, systemPrompt: string)

  /** `validateEnv()` for the configured key. */
  predicate EnvValid(apiKey: string) {
    apiKey != "" && apiKey != "demo_mode"
  }

  const DEMO_REPLY := "I'm currently running in demo mode. To get real AI responses, please set up your Gemini API key in the environment variables."
  const DEFAULT_CHAT_ID := "default-chat"

  // The texts shown for a failed call; each is written as its sentences joined.
  const NETWORK_ERROR := "Network error. " + "Please check your internet connection."
  const TIMEOUT_ERROR := "Request timed out. Please try again."
  const RATE_ERROR := "Rate limit exceeded. " + "Please try again in a moment."
  const TOO_LONG_ERROR := "This conversation has become too long. " + "Some older messages had to be summarized."
  const FAILED_ERROR := "Failed to communicate with the AI. " + "Please check your internet connection and try again."

  /** The text `onError` shows for an error whose message is `message` (`None` when it has none). */
  function ClassifyError(message: Option<string>): string {
    if message.Some? && Text.Contains(message.value, "network") then NETWORK_ERROR
    else if message.Some? && Text.Contains(message.value, "timeout") then TIMEOUT_ERROR
    else if message.Some? && Text.Contains(message.value, "rate") then RATE_ERROR
    else if message.Some? && ChatTypes.IsContextLimit(message.value) then TOO_LONG_ERROR
    else "Error: " + (if message.None? || message.value == "" then "Unknown error" else message.value)
  }

  /** The checks are tried in order and the first that matches decides; a message matching none is
      shown after "Error: ", an empty or missing one as "Unknown error". Each fixed text is shown
      exactly when its check is the first to match. */
  lemma {:induction false} ClassifyErrorSpec(message: Option<string>)
    ensures var r := ClassifyError(message);
      var has := (w: string) => message.Some? && Text.Contains(message.value, w);
      (r == NETWORK_ERROR <==> has("network"))
      && (r == TIMEOUT_ERROR <==> !has("network") && has("timeout"))
      && (r == RATE_ERROR <==> !has("network") && !has("timeout") && has("rate"))
      && (r == TOO_LONG_ERROR <==> !has("network") && !has("timeout") && !has("rate")
                                   && (has("token limit") || has("context length")))
      && (!has("network") && !has("timeout") && !has("rate") && !has("token limit") && !has("context length") ==>
            r == "Error: " + (if message.None? || message.value == "" then "Unknown error" else message.value))
      && r != FAILED_ERROR
  {
    var r := ClassifyError(message);
    var tail := if message.None? || message.value == "" then "Unknown error" else message.value;
    assert ("Error: " + tail)[0] == 'E';
    assert NETWORK_ERROR[0] == 'N' && TIMEOUT_ERROR[1] == 'e' && RATE_ERROR[1] == 'a' && TOO_LONG_ERROR[0] == 'T';
    assert FAILED_ERROR[0] == 'F';
  }

  /** `messages.map(...)` followed by `push` of the raw input. */
  function MessageHistory(messages: seq<ChatContext.Message>, input: string): seq<ChatTypes.ChatMessage> {
    seq(|messages|, i requires 0 <= i < |messages| =>
      ChatTypes.ChatMessage(if messages[i].role == ChatContext.User then ChatTypes.User else ChatTypes.Model, messages[i].content))
    + [ChatTypes.ChatMessage(ChatTypes.User, input)]
  }

  /** The history is every message shown, in order, with its content and 'user' or 'model' role, and
      then the input exactly as typed, as a user message. */
  lemma {:induction false} MessageHistorySpec(messages: seq<ChatContext.Message>, input: string)
    ensures var r := MessageHistory(messages, input);
      |r| == |messages| + 1
      && r[|messages|] == ChatTypes.ChatMessage(ChatTypes.User, input)
      && (forall i :: 0 <= i < |messages| ==> r[i].parts == messages[i].content)
      && (forall i :: 0 <= i < |messages| ==> (r[i].role == ChatTypes.User <==> messages[i].role == ChatContext.User))
      && ChatTypes.LastUserMessage(r) == Some(ChatTypes.ChatMessage(ChatTypes.User, input))
  {
    var r := MessageHistory(messages, input);
    ChatTypes.LastUserMessageSpec(r);
  }

  /** The chat id the call uses: `currentChatId || 'default-chat'`. */
  function ChatIdOf(current: Option<string>): string {
    if ChatContext.NoCurrent(current) then DEFAULT_CHAT_ID else current.value
  }

  /** `getCurrentChat()?.messages || []`. */
  function ShownMessages(chats: seq<ChatSession>, current: Option<string>): seq<ChatContext.Message> {
    match ChatContext.CurrentChat(chats, current)
    case None => []
    case Some(c) => c.messages
  }

  /** The sessions after `addMessage`, and the id it returns. */
  function Added(chats: seq<ChatSession>, current: Option<string>, role: ChatContext.Author, content: string,
                 id: string, now: int): seq<ChatSession> {
    if ChatContext.NoCurrent(current) then chats
    else ChatContext.MessageAdded(chats, current.value, ChatContext.Message(id, role, content, now), now)
  }

  function AddedId(current: Option<string>, id: string): string {
    if ChatContext.NoCurrent(current) then "" else id
  }

  /** What the page hands the service: `streamChatWithHistory(chatId, history, systemPrompt, personaId, …)`. */
  datatype Request = Request(chatId: string, history: seq<ChatTypes.ChatMessage>, systemPrompt: string, personaId: string)

  /** `sendChatId` is the `currentChatId` of the render that ran the latest send: the context
      functions that send's callbacks and timeout hold act on that chat. */
  datatype PageState = PageState(input: string, isLoading: bool, errorMessage: Option<string>,
                                 streamingMessageId: Option<string>, streamedResponse: string, assistantMessageId: string,
                                 sendChatId: Option<string>)

  datatype Sending = Sending(page: PageState, chats: seq<ChatSession>, request: Option<Request>)

  /** `handleSendMessage` up to the call, over the store's sessions with current id `current`. */
  function Sent(p: PageState, chats: seq<ChatSession>, current: Option<string>, envValid: bool, persona: Persona,
                userId: string, assistantId: string, now: int): Sending
  {
    if Text.Trim(p.input) == [] || p.isLoading then Sending(p, chats, None)
    else if !envValid then
      Sending(p.(input := "", isLoading := true, sendChatId := current), Added(chats, current, ChatContext.User, p.input, userId, now), None)
    else
      var withUser := Added(chats, current, ChatContext.User, p.input, userId, now);
      var aid := AddedId(current, assistantId);
      Sending(PageState("", true, None, Some(aid), "", aid, current),
              Added(withUser, current, ChatContext.Assistant, "", assistantId, now),
              Some(Request(ChatIdOf(current), MessageHistory(ShownMessages(chats, current), p.input),
                           persona.systemPrompt, persona.id)))
  }

  /** Blank input or a pending reply: nothing happens. Without a valid key: the input is added as a
      user message of the current chat, loading starts and nothing is sent. Otherwise the raw input
      and an empty assistant message are added to the current chat, and the service gets the current
      chat id (or the default), everything shown so far followed by the raw input, and the selected
      persona's prompt and id; without a current chat nothing is stored and the reply has no id. */
  lemma {:induction false} SendSpec(p: PageState, chats: seq<ChatSession>, current: Option<string>, envValid: bool,
                                    persona: Persona, userId: string, assistantId: string, now: int)
    ensures var r := Sent(p, chats, current, envValid, persona, userId, assistantId, now);
      var blocked := Text.Trim(p.input) == [] || p.isLoading;
      var user := ChatContext.Message(userId, ChatContext.User, p.input, now);
      var assistant := ChatContext.Message(assistantId, ChatContext.Assistant, "", now);
      (blocked ==> r == Sending(p, chats, None))
      && (r.request.Some? <==> !blocked && envValid)
      && (!blocked ==> r.page.isLoading && r.page.input == "" && r.page.sendChatId == current)
      && (!blocked && ChatContext.NoCurrent(current) ==> r.chats == chats)
      && (!blocked && !envValid && !ChatContext.NoCurrent(current) ==>
            ChatContext.CurrentChat(r.chats, current)
            == match ChatContext.CurrentChat(chats, current)
               case None => None
               case Some(c) => Some(c.(messages := c.messages + [user], updatedAt := now)))
      && (!blocked && envValid ==>
            r.page.errorMessage.None? && r.page.streamedResponse == ""
            && r.page.streamingMessageId == Some(r.page.assistantMessageId)
            && r.request.value.chatId == (if ChatContext.NoCurrent(current) then "default-chat" else current.value)
            && r.request.value.history == MessageHistory(ShownMessages(chats, current), p.input)
            && r.request.value.systemPrompt == persona.systemPrompt && r.request.value.personaId == persona.id
            && (ChatContext.NoCurrent(current) ==> r.page.assistantMessageId == "")
            && (!ChatContext.NoCurrent(current) ==>
                  r.page.assistantMessageId == assistantId
                  && ChatContext.CurrentChat(r.chats, current)
                     == match ChatContext.CurrentChat(chats, current)
                        case None => None
                        case Some(c) => Some(c.(messages := c.messages + [user, assistant], updatedAt := now))))
  {
    var blocked := Text.Trim(p.input) == [] || p.isLoading;
    if !blocked && !ChatContext.NoCurrent(current) {
      var id := current.value;
      var user := ChatContext.Message(userId, ChatContext.User, p.input, now);
      var assistant := ChatContext.Message(assistantId, ChatContext.Assistant, "", now);
      var withUser := ChatContext.MessageAdded(chats, id, user, now);
      ChatContext.MessageAddedCurrent(chats, id, user, now);
      ChatContext.MessageAddedCurrent(withUser, id, assistant, now);
      if ChatContext.CurrentChat(chats, current).Some? {
        var c := ChatContext.CurrentChat(chats, current).value;
        assert c.messages + [user] + [assistant] == c.messages + [user, assistant];
      }
    }
  }

  /** The demo timeout: the fixed reply is added as an assistant message and loading stops. */
  function DemoReplied(p: PageState, chats: seq<ChatSession>, current: Option<string>, id: string, now: int)
    : (PageState, seq<ChatSession>)
  {
    (p.(isLoading := false), Added(chats, current, ChatContext.Assistant, DEMO_REPLY, id, now))
  }

  /** Without a valid key, a send followed by its timeout leaves the current chat with the raw input
      and then the demo reply, and the page no longer loading. */
  lemma {:induction false} DemoExchange(p: PageState, chats: seq<ChatSession>, persona: Persona, chatId: string,
                                        userId: string, replyId: string, now: int, later: int)
    requires Text.Trim(p.input) != [] && !p.isLoading && chatId != ""
    requires ChatContext.CurrentChat(chats, Some(chatId)).Some?
    ensures var s := Sent(p, chats, Some(chatId), false, persona, userId, "", now);
      var (page, after) := DemoReplied(s.page, s.chats, s.page.sendChatId, replyId, later);
      var c := ChatContext.CurrentChat(chats, Some(chatId)).value;
      s.request.None? && s.page.sendChatId == Some(chatId) && !page.isLoading && page.input == "" && page.errorMessage == p.errorMessage
      && ChatContext.CurrentChat(after, Some(chatId)).Some?
      && ChatContext.CurrentChat(after, Some(chatId)).value.messages
         == c.messages + [ChatContext.Message(userId, ChatContext.User, p.input, now),
                          ChatContext.Message(replyId, ChatContext.Assistant, DEMO_REPLY, later)]
  {
    var s := Sent(p, chats, Some(chatId), false, persona, userId, "", now);
    var user := ChatContext.Message(userId, ChatContext.User, p.input, now);
    var reply := ChatContext.Message(replyId, ChatContext.Assistant, DEMO_REPLY, later);
    ChatContext.MessageAddedCurrent(chats, chatId, user, now);
    ChatContext.MessageAddedCurrent(s.chats, chatId, reply, later);
    var c := ChatContext.CurrentChat(chats, Some(chatId)).value;
    assert c.messages + [user] + [reply] == c.messages + [user, reply];
  }

  /** The page and the store's sessions while a reply streams. The callbacks act on the chat of the
      send (`current` below is the send's `sendChatId`), whichever chat is current by then. */
  datatype Flow = Flow(page: PageState, chats: seq<ChatSession>)

  /** `if (assistantMessageId) updateLastAssistantMessage(assistantMessageId, content)`. */
  function Displayed(chats: seq<ChatSession>, current: Option<string>, messageId: string, content: string, now: int)
    : seq<ChatSession>
  {
    if messageId != "" && !ChatContext.NoCurrent(current) then ChatContext.ContentUpdated(chats, current.value, messageId, content, now)
    else chats
  }

  /** One callback, with the clock at `now`. */
  function Applied(f: Flow, current: Option<string>, now: int, e: ChatTypes.Event): Flow {
    match e
    case Start => f
    case Token(t) =>
      var response := f.page.streamedResponse + t;
      Flow(f.page.(streamedResponse := response), Displayed(f.chats, current, f.page.assistantMessageId, response, now))
    case Complete(full) =>
      Flow(f.page.(isLoading := false, streamingMessageId := None),
           Displayed(f.chats, current, f.page.assistantMessageId, full, now))
    case ErrorReported(m) =>
      Flow(f.page.(errorMessage := Some(ClassifyError(Some(m))), isLoading := false, streamingMessageId := None), f.chats)
  }

  function Replayed(f: Flow, current: Option<string>, now: int, events: seq<ChatTypes.Event>): Flow
    decreases |events|
  {
    if events == [] then f else Replayed(Applied(f, current, now, events[0]), current, now, events[1..])
  }

  lemma {:induction false} ReplayedAppend(f: Flow, current: Option<string>, now: int, a: seq<ChatTypes.Event>, b: seq<ChatTypes.Event>)
    ensures Replayed(f, current, now, a + b) == Replayed(Replayed(f, current, now, a), current, now, b)
    decreases |a|
  {
    if a != [] {
      var w := Applied(f, current, now, a[0]);
      assert (a + b)[0] == a[0];
      assert (a + b)[1..] == a[1..] + b;
      ReplayedAppend(w, current, now, a[1..], b);
      assert Replayed(f, current, now, a + b) == Replayed(w, current, now, a[1..] + b);
      assert Replayed(f, current, now, a) == Replayed(w, current, now, a[1..]);
    } else {
      assert a + b == b;
    }
  }

  /** Showing a text and then another shows only the second. */
  lemma {:induction false} DisplayedLastWins(chats: seq<ChatSession>, current: Option<string>, messageId: string,
                                             first: string, second: string, now: int)
    ensures Displayed(Displayed(chats, current, messageId, first, now), current, messageId, second, now)
            == Displayed(chats, current, messageId, second, now)
  {
    if messageId != "" && !ChatContext.NoCurrent(current) {
      ChatContext.ContentUpdatedLastWins(chats, current.value, messageId, first, second, now, now);
    }
  }

  /** One more token after a run of them. */
  lemma {:induction false} ReplayOneMore(f: Flow, current: Option<string>, now: int, init: seq<string>, c: string)
    ensures Replayed(f, current, now, ChatTypes.Tokens(init + [c]))
            == Applied(Replayed(f, current, now, ChatTypes.Tokens(init)), current, now, ChatTypes.Token(c))
  {
    ChatTypes.TokensAppend(init, [c]);
    ReplayedAppend(f, current, now, ChatTypes.Tokens(init), ChatTypes.Tokens([c]));
    var mid := Replayed(f, current, now, ChatTypes.Tokens(init));
    assert ChatTypes.Tokens([c]) == [ChatTypes.Token(c)];
    assert Replayed(mid, current, now, [ChatTypes.Token(c)]) == Applied(mid, current, now, ChatTypes.Token(c));
  }

  /** One token grows the response by its text and shows the grown response in the reply. */
  lemma {:induction false} TokenStep(mid: Flow, chats: seq<ChatSession>, current: Option<string>, now: int, c: string)
    ensures var r := Applied(mid, current, now, ChatTypes.Token(c));
      r.page == mid.page.(streamedResponse := mid.page.streamedResponse + c)
      && r.chats == Displayed(mid.chats, current, mid.page.assistantMessageId, mid.page.streamedResponse + c, now)
  {
  }

  /** While the reply streams, the accumulated response is everything received so far and the stored
      reply shows exactly that text, however many chunks came before. */
  lemma {:induction false} ReplayTokens(f: Flow, current: Option<string>, now: int, chunks: seq<string>)
    ensures var r := Replayed(f, current, now, ChatTypes.Tokens(chunks));
      r.page == f.page.(streamedResponse := f.page.streamedResponse + ChatTypes.Concat(chunks))
      && r.chats == if chunks == [] then f.chats
                    else Displayed(f.chats, current, f.page.assistantMessageId, r.page.streamedResponse, now)
    decreases |chunks|
  {
    if chunks == [] {
      assert f.page.streamedResponse + "" == f.page.streamedResponse;
    } else {
      var init := chunks[..|chunks| - 1];
      var c := chunks[|chunks| - 1];
      assert chunks == init + [c];
      ReplayTokens(f, current, now, init);
      ReplayOneMore(f, current, now, init, c);
      ChatTypes.ConcatSnoc(init, c);
      var mid := Replayed(f, current, now, ChatTypes.Tokens(init));
      var response := f.page.streamedResponse + ChatTypes.Concat(chunks);
      assert mid.page.streamedResponse + c == response;
      TokenStep(mid, f.chats, current, now, c);
      if init != [] {
        DisplayedLastWins(f.chats, current, f.page.assistantMessageId, mid.page.streamedResponse, response, now);
      }
    }
  }

  /** The `catch` of the handler, as written. */
  function Caught(f: Flow, result: ChatTypes.CallResult): Flow {
    if result.Rejected? then Flow(f.page.(errorMessage := Some(FAILED_ERROR), isLoading := false, streamingMessageId := None), f.chats)
    else f
  }

  function Settled(f: Flow, current: Option<string>, now: int, events: seq<ChatTypes.Event>, result: ChatTypes.CallResult): Flow {
    Caught(Replayed(f, current, now, events), result)
  }

  /** A reply that streams and completes ends with the stored reply showing the full response, the
      chunks accumulated, loading stopped, no message marked as streaming and the error unchanged. */
  lemma {:induction false} SuccessShowsReply(f: Flow, current: Option<string>, now: int, chunks: seq<string>, full: string)
    ensures var r := Settled(f, current, now, [ChatTypes.Start] + ChatTypes.Tokens(chunks) + [ChatTypes.Complete(full)],
                             ChatTypes.Resolved(full));
      r.chats == Displayed(f.chats, current, f.page.assistantMessageId, full, now)
      && r.page == f.page.(isLoading := false, streamingMessageId := None,
                           streamedResponse := f.page.streamedResponse + ChatTypes.Concat(chunks))
  {
    var toks := ChatTypes.Tokens(chunks);
    ReplayedAppend(f, current, now, [ChatTypes.Start] + toks, [ChatTypes.Complete(full)]);
    ReplayedAppend(f, current, now, [ChatTypes.Start], toks);
    ReplayTokens(f, current, now, chunks);
    var mid := Replayed(f, current, now, toks);
    assert Replayed(mid, current, now, [ChatTypes.Complete(full)]) == Applied(mid, current, now, ChatTypes.Complete(full));
    var aid := f.page.assistantMessageId;
    if chunks != [] && aid != "" && !ChatContext.NoCurrent(current) {
      ChatContext.ContentUpdatedLastWins(f.chats, current.value, aid, mid.page.streamedResponse, full, now, now);
    }
  }

  /** As written, a failure the service reports through `onError` and then rethrows ends with the
      generic text: the classified text `onError` set is always replaced by the `catch`. */
  lemma {:induction false} FailureShowsGenericMessage(f: Flow, current: Option<string>, now: int, chunks: seq<string>,
                                                      e: ChatTypes.ProviderError)
    ensures var r := Settled(f, current, now, [ChatTypes.Start] + ChatTypes.Tokens(chunks) + [ChatTypes.ErrorReported(e.message)],
                             ChatTypes.Rejected(e));
      r.page.errorMessage == Some(FAILED_ERROR) && r.page.errorMessage != Some(ClassifyError(Some(e.message)))
      && !r.page.isLoading && r.page.streamingMessageId.None?
      && r.chats == if chunks == [] then f.chats
                    else Displayed(f.chats, current, f.page.assistantMessageId, f.page.streamedResponse + ChatTypes.Concat(chunks), now)
  {
    var toks := ChatTypes.Tokens(chunks);
    var end := ChatTypes.ErrorReported(e.message);
    ReplayedAppend(f, current, now, [ChatTypes.Start] + toks, [end]);
    ReplayedAppend(f, current, now, [ChatTypes.Start], toks);
    ReplayTokens(f, current, now, chunks);
    var mid := Replayed(f, current, now, toks);
    assert Replayed(mid, current, now, [end]) == Applied(mid, current, now, end);
    ClassifyErrorSpec(Some(e.message));
  }

  /** The `catch` as evidently intended: the generic text only for a failure `onError` has not
      already described. */
  function CaughtIntended(f: Flow, result: ChatTypes.CallResult): Flow {
    if result.Rejected? then
      Flow(f.page.(errorMessage := Some(f.page.errorMessage.GetOr(FAILED_ERROR)), isLoading := false, streamingMessageId := None),
           f.chats)
    else f
  }

  function SettledIntended(f: Flow, current: Option<string>, now: int, events: seq<ChatTypes.Event>,
                           result: ChatTypes.CallResult): Flow {
    CaughtIntended(Replayed(f, current, now, events), result)
  }

  /** With the intended `catch`, a reported failure shows its classified text, and a failure nothing
      reported shows the generic one; both stop loading. */
  lemma {:induction false} IntendedFailureShowsClassifiedMessage(f: Flow, current: Option<string>, now: int,
                                                                 chunks: seq<string>, e: ChatTypes.ProviderError)
    requires f.page.errorMessage.None?
    ensures var r := SettledIntended(f, current, now, [ChatTypes.Start] + ChatTypes.Tokens(chunks) + [ChatTypes.ErrorReported(e.message)],
                                     ChatTypes.Rejected(e));
      r.page.errorMessage == Some(ClassifyError(Some(e.message))) && !r.page.isLoading && r.page.streamingMessageId.None?
    ensures var r := SettledIntended(f, current, now, ChatTypes.Tokens(chunks), ChatTypes.Rejected(e));
      r.page.errorMessage == Some(FAILED_ERROR) && !r.page.isLoading
  {
    var toks := ChatTypes.Tokens(chunks);
    var end := ChatTypes.ErrorReported(e.message);
    ReplayedAppend(f, current, now, [ChatTypes.Start] + toks, [end]);
    ReplayedAppend(f, current, now, [ChatTypes.Start], toks);
    ReplayTokens(f, current, now, chunks);
    var mid := Replayed(f, current, now, toks);
    assert Replayed(mid, current, now, [end]) == Applied(mid, current, now, end);
  }

  /** The page's state and handlers; the store is the chat context. */
  class AIChatView {
    var input: string
    var isLoading: bool
    var errorMessage: Option<string>
    var streamingMessageId: Option<string>
    var streamedResponse: string
    var assistantMessageId: string
    var sendChatId: Option<string>

    function State(): PageState
      reads this
    {
      PageState(input, isLoading, errorMessage, streamingMessageId, streamedResponse, assistantMessageId, sendChatId)
    }

    constructor()
      ensures State() == PageState("", false, None, None, "", "", None)
    {
      input := "";
      isLoading := false;
      errorMessage := None;
      streamingMessageId := None;
      streamedResponse := "";
      assistantMessageId := "";
      sendChatId := None;
    }

    method SetInput(value: string)
      modifies this
      ensures State() == old(State()).(input := value)
    {
      input := value;
    }

    /** `handleSendMessage` up to the call; `userId` and `assistantId` stand for the generated ids. */
    method HandleSendMessage(store: ChatContext.ChatStore, envValid: bool, persona: Persona,
                             userId: string, assistantId: string, now: int) returns (request: Option<Request>)
      modifies this, store
      ensures Sending(State(), store.chatSessions, request)
              == Sent(old(State()), old(store.chatSessions), old(store.currentChatId), envValid, persona, userId, assistantId, now)
      ensures store.currentChatId == old(store.currentChatId) && store.selectedPersonaId == old(store.selectedPersonaId)
    {
      if Text.Trim(input) == [] || isLoading {
        return None;
      }
      if !envValid {
        var ignored := store.AddMessage(store.currentChatId, ChatContext.User, input, userId, now);
        sendChatId := store.currentChatId;
        input := "";
        isLoading := true;
        return None;
      }
      request := SendLive(store, persona, userId, assistantId, now);
    }

    /** The send with a valid key, from adding the user message to building the request. */
    method SendLive(store: ChatContext.ChatStore, persona: Persona, userId: string, assistantId: string, now: int)
      returns (request: Option<Request>)
      requires Text.Trim(input) != [] && !isLoading
      modifies this, store
      ensures Sending(State(), store.chatSessions, request)
              == Sent(old(State()), old(store.chatSessions), old(store.currentChatId), true, persona, userId, assistantId, now)
      ensures store.currentChatId == old(store.currentChatId) && store.selectedPersonaId == old(store.selectedPersonaId)
    {
      var chat := store.currentChatId;
      var typed := input;
      var history := MessageHistory(ShownMessages(store.chatSessions, chat), typed);
      ghost var before := store.chatSessions;
      var userMessageId := store.AddMessage(chat, ChatContext.User, typed, userId, now);
      ghost var withUser := store.chatSessions;
      assert withUser == Added(before, chat, ChatContext.User, typed, userId, now);
      var aid := store.AddMessage(chat, ChatContext.Assistant, "", assistantId, now);
      assert store.chatSessions == Added(withUser, chat, ChatContext.Assistant, "", assistantId, now);
      assert aid == AddedId(chat, assistantId);
      input := "";
      isLoading := true;
      errorMessage := None;
      streamingMessageId := Some(aid);
      streamedResponse := "";
      assistantMessageId := aid;
      sendChatId := chat;
      request := Some(Request(ChatIdOf(chat), history, persona.systemPrompt, persona.id));
    }

    /** The demo timeout, which adds its reply through the send's `addMessage`. */
    method DemoReplyArrived(store: ChatContext.ChatStore, replyId: string, now: int)
      modifies this, store
      ensures (State(), store.chatSessions)
              == DemoReplied(old(State()), old(store.chatSessions), old(sendChatId), replyId, now)
      ensures store.currentChatId == old(store.currentChatId) && store.selectedPersonaId == old(store.selectedPersonaId)
    {
      var ignored := store.AddMessage(sendChatId, ChatContext.Assistant, DEMO_REPLY, replyId, now);
      isLoading := false;
    }

    /** `onToken`, whose `updateLastAssistantMessage` is the send's. */
    method OnToken(store: ChatContext.ChatStore, token: string, now: int)
      modifies this, store
      ensures Flow(State(), store.chatSessions)
              == Applied(Flow(old(State()), old(store.chatSessions)), old(sendChatId), now, ChatTypes.Token(token))
      ensures store.currentChatId == old(store.currentChatId) && store.selectedPersonaId == old(store.selectedPersonaId)
    {
      streamedResponse := streamedResponse + token;
      if assistantMessageId != "" {
        store.UpdateLastAssistantMessage(sendChatId, assistantMessageId, streamedResponse, now);
      }
    }

    /** `onComplete`, whose `updateLastAssistantMessage` is the send's. */
    method OnComplete(store: ChatContext.ChatStore, fullResponse: string, now: int)
      modifies this, store
      ensures Flow(State(), store.chatSessions)
              == Applied(Flow(old(State()), old(store.chatSessions)), old(sendChatId), now, ChatTypes.Complete(fullResponse))
      ensures store.currentChatId == old(store.currentChatId) && store.selectedPersonaId == old(store.selectedPersonaId)
    {
      if assistantMessageId != "" {
        store.UpdateLastAssistantMessage(sendChatId, assistantMessageId, fullResponse, now);
      }
      isLoading := false;
      streamingMessageId := None;
    }

    method OnError(message: string)
      modifies this
      ensures State() == Applied(Flow(old(State()), []), None, 0, ChatTypes.ErrorReported(message)).page
    {
      errorMessage := Some(ClassifyError(Some(message)));
      isLoading := false;
      streamingMessageId := None;
    }

    /** The `catch` around the call, as written. */
    method OnRejected(e: ChatTypes.ProviderError)
      modifies this
      ensures State() == Caught(Flow(old(State()), []), ChatTypes.Rejected(e)).page
    {
      errorMessage := Some(FAILED_ERROR);
      isLoading := false;
      streamingMessageId := None;
    }

    /** `handlePersonaChange`: an id of a known persona selects the first persona with that id (and the
        store then switches chats); an unknown id changes nothing. */
    method HandlePersonaChange(store: ChatContext.ChatStore, personas: seq<Persona>, personaId: string,
                               newId: string, dateText: string, now: int) returns (picked: Option<Persona>)
      modifies store
      ensures picked.None? <==> forall i :: 0 <= i < |personas| ==> personas[i].id != personaId
      ensures picked.Some? ==> picked.value in personas && picked.value.id == personaId
      ensures picked.Some? ==>
        exists i :: 0 <= i < |personas| && picked.value == personas[i] && forall j :: 0 <= j < i ==> personas[j].id != personaId
      ensures picked.None? ==> store.Current() == old(store.Current()) && store.selectedPersonaId == old(store.selectedPersonaId)
      ensures picked.Some? ==> store.selectedPersonaId == personaId
      ensures picked.Some? && personaId != old(store.selectedPersonaId) ==>
        store.Current() == ChatContext.SwitchTo(old(store.chatSessions), personaId, newId, dateText, now)
      ensures picked.Some? && personaId == old(store.selectedPersonaId) ==> store.Current() == old(store.Current())
    {
      picked := None;
      var i := 0;
      while i < |personas|
        invariant 0 <= i <= |personas|
        invariant forall j :: 0 <= j < i ==> personas[j].id != personaId
        invariant picked.None?
      {
        if personas[i].id == personaId {
          picked := Some(personas[i]);
          assert picked.value == personas[i];
          break;
        }
        i := i + 1;
      }
      if picked.Some? {
        store.SelectPersona(picked.value.id, newId, dateText, now);
      }
    }
  }
}
