/** The simplified streaming service: a configurable client with demo fallback, sessions keyed by id
    with a thirty-minute idle sweep, a shortened system prompt tried once when starting a chat
    fails, a chunk loop that reports each chunk before it looks at the abort signal, and a
    configuration update that drops every session. The provider is a script: how starting a chat
    ends, the chunks a stream yields and how it ends, and when an outside `cancelStream` aborts. */
module SimpleGeminiService {

  import opened Wrappers
  import opened ChatTypes
  import SessionExpiry
  import DemoMode

  /** Thirty minutes, in milliseconds. */
  const SESSION_TIMEOUT_MS: int := 30 * 60 * 1000

  /** Stands for the key built into the source; its value is not part of this model. */
  const DEFAULT_API_KEY: string := "built-in-key"
  const DEFAULT_MODEL_NAME: string := "gemini-2.0-pro-exp-02-05"
  const DEFAULT_MAX_OUTPUT_TOKENS: int := 2048
  const DEFAULT_TEMPERATURE: real := 0.7
  const DEMO_KEY: string := "demo_mode"

  /** The fixed instruction used when starting a chat with the caller's prompt fails. */
  const SHORTENED_PROMPT: string :=
    "You are Mr. Bun Theon, an expert Khmer science tutor using the Feynman Technique. "
    + "Always respond in Khmer language. Explain concepts step-by-step. Use LaTeX for math formulas."

  const NOT_INITIALIZED: string := "Gemini API client not initialized"
  const SESSION_FAILED: string := "Failed to create chat session"
  const NO_USER_MESSAGE: string := "No user message found"

  /** `GeminiServiceOptions`: every field may be left out. */
  datatype Options = Options(
    apiKey: Option<string>,
    modelName: Option<string>,
    maxOutputTokens: Option<int>,
    temperature: Option<real>,
    isDemoMode: Option<bool>)

  /** The client configuration fields. */
  datatype Config = Config(apiKey: string, modelName: string, maxOutputTokens: int, temperature: real)

  /** A provider chat: the simulated demo chat, or a started chat with the system instruction it
      was started with (`None`: started without one). */
  datatype Chat = DemoChat | LiveChat(handle: nat, instruction: Option<string>)

  datatype Session = Session(chat: Chat, lastActive: int)

  function LastActive(s: Session): int {
    s.lastActive
  }

  /** The fields of the service object. `modelReady` is `model !== null`; chat handles and abort
      controllers are numbered by fresh counters; `aborted` records every aborted controller. */
  datatype ServiceState = ServiceState(
    config: Config,
    isDemoMode: bool,
    modelReady: bool,
    sessions: map<string, Session>,
    controller: Option<nat>,
    aborted: set<nat>,
    nextHandle: nat,
    nextController: nat)

  /** Handles and controllers in use were all handed out by the counters. */
  predicate ValidState(st: ServiceState) {
    (forall id :: id in st.sessions && st.sessions[id].chat.LiveChat? ==> st.sessions[id].chat.handle < st.nextHandle)
    && (st.controller.Some? ==> st.controller.value < st.nextController)
    && (forall c :: c in st.aborted ==> c < st.nextController)
  }

  /** How `startChat` ends for a new session: with the caller's prompt, then with the shortened one. */
  datatype ChatSetup = ChatSetup(fullPromptFails: bool, shortenedPromptFails: bool)

  /** A chat, or the error that resolving it threw, with the state afterwards. */
  datatype Resolution = Resolution(chat: Result<Chat, ProviderError>, state: ServiceState)

  /** Callbacks fired, how the promise settles, the state afterwards and the texts sent with
      `sendMessageStream`. */
  datatype Outcome = Outcome(events: seq<Event>, result: CallResult, state: ServiceState, requests: seq<string>)

  /** JavaScript's `supplied || fallback` for a field that may be left out: a left-out or falsy
      supplied value gives the fallback. */
  function Or<T(==)>(supplied: Option<T>, falsy: T, fallback: T): T {
    if supplied.Some? && supplied.value != falsy then supplied.value else fallback
  }

  /** The constructor's fields before the client is initialised. */
  function DefaultConfig(options: Options): Config {
    Config(Or(options.apiKey, "", DEFAULT_API_KEY),
           Or(options.modelName, "", DEFAULT_MODEL_NAME),
           Or(options.maxOutputTokens, 0, DEFAULT_MAX_OUTPUT_TOKENS),
           Or(options.temperature, 0.0, DEFAULT_TEMPERATURE))
  }

  /** `initializeClient` when demo mode is off: on success the model is ready, when it throws demo
      mode is forced on and the model stays as it was. */
  function Initialised(st: ServiceState, clientInitOk: bool): ServiceState {
    if clientInitOk then st.(modelReady := true) else st.(isDemoMode := true)
  }

  /** The freshly constructed service. */
  function InitialState(options: Options, clientInitOk: bool): (r: ServiceState)
    ensures r.isDemoMode <==> options.isDemoMode == Some(true) || r.config.apiKey == DEMO_KEY || !clientInitOk
    ensures r.modelReady <==> !r.isDemoMode
    ensures options.apiKey.Some? && options.apiKey.value != "" ==> r.config.apiKey == options.apiKey.value
    ensures options.apiKey.None? || options.apiKey.value == "" ==> r.config.apiKey == DEFAULT_API_KEY
    ensures r.sessions == map[] && r.controller.None? && ValidState(r)
  {
    var config := DefaultConfig(options);
    var demo := Or(options.isDemoMode, false, config.apiKey == DEMO_KEY);
    var st := ServiceState(config, demo, false, map[], None, {}, 0, 0);
    if demo then st else Initialised(st, clientInitOk)
  }

  /** `configChanged`: some supplied field differs from the current value. */
  predicate ConfigChanged(c: Config, options: Options) {
    (options.apiKey.Some? && options.apiKey.value != c.apiKey)
    || (options.modelName.Some? && options.modelName.value != c.modelName)
    || (options.maxOutputTokens.Some? && options.maxOutputTokens.value != c.maxOutputTokens)
    || (options.temperature.Some? && options.temperature.value != c.temperature)
  }

  /** `updateConfig(options)`: when some supplied field differs, the fields are reassigned with `||`,
      demo mode is recomputed, the client is initialised again unless in demo mode, and every session
      is dropped; otherwise nothing changes. */
  function Reconfigured(st: ServiceState, options: Options, clientInitOk: bool): ServiceState {
    if !ConfigChanged(st.config, options) then st
    else
      var st1 := Reassigned(st, options);
      var st2 := if st1.isDemoMode then st1 else Initialised(st1, clientInitOk);
      st2.(sessions := map[])
  }

  /** The `||` assignments of `updateConfig` and its demo-mode rule. */
  function Reassigned(st: ServiceState, options: Options): ServiceState {
    var c := st.config;
    var config := Config(Or(options.apiKey, "", c.apiKey),
                         Or(options.modelName, "", c.modelName),
                         Or(options.maxOutputTokens, 0, c.maxOutputTokens),
                         Or(options.temperature, 0.0, c.temperature));
    st.(config := config,
        isDemoMode := if options.isDemoMode.Some? then options.isDemoMode.value else config.apiKey == DEMO_KEY)
  }

  /** `cancelStream`: abort the controller if there is one and forget it. */
  function Cancelled(st: ServiceState): (r: ServiceState)
    ensures st.controller.None? ==> r == st
    ensures r.controller.None? && r.sessions == st.sessions && r.config == st.config
    ensures st.controller.Some? ==> r.aborted == st.aborted + {st.controller.value}
  {
    match st.controller
    case None => st
    case Some(c) => st.(controller := None, aborted := st.aborted + {c})
  }

  /** Store a newly started chat under `chatId`. */
  function Started(st: ServiceState, chatId: string, instruction: Option<string>, now: int): Resolution {
    var chat := LiveChat(st.nextHandle, instruction);
    Resolution(Success(chat), st.(sessions := st.sessions[chatId := Session(chat, now)], nextHandle := st.nextHandle + 1))
  }

  /** `getOrCreateChatSession(chatId, systemPrompt)`. A left-out prompt is the empty string: both
      are falsy and behave alike. */
  function GetOrCreate(st: ServiceState, chatId: string, systemPrompt: string, now: int, setup: ChatSetup): Resolution {
    if chatId in st.sessions then
      Resolution(Success(st.sessions[chatId].chat),
                 st.(sessions := st.sessions[chatId := st.sessions[chatId].(lastActive := now)]))
    else if st.isDemoMode then
      Resolution(Success(DemoChat), st.(sessions := st.sessions[chatId := Session(DemoChat, now)]))
    else if !st.modelReady then
      Resolution(Failure(PlainError(NOT_INITIALIZED)), st)
    else if !setup.fullPromptFails then
      Started(st, chatId, if systemPrompt != "" then Some(systemPrompt) else None, now)
    else if !setup.shortenedPromptFails then
      Started(st, chatId, Some(SHORTENED_PROMPT), now)
    else
      Resolution(Failure(PlainError(SESSION_FAILED)), st)
  }

  /** The chunk loop breaks when the outside `cancelStream` comes while it waits for a chunk that
      still arrives: the abort comes after `abortAfter.value` chunks and before the end. */
  predicate Broke(n: nat, abortAfter: Option<nat>) {
    abortAfter.Some? && abortAfter.value < n
  }

  /** How many of `n` chunks a loop that reports each chunk and then checks the signal reports. */
  function Delivered(n: nat, abortAfter: Option<nat>): (r: nat)
    ensures r <= n
    ensures !Broke(n, abortAfter) ==> r == n
    ensures Broke(n, abortAfter) ==> r >= 1 && AbortedBy(abortAfter, r - 1)
    ensures forall j :: 0 <= j < r - 1 ==> !AbortedBy(abortAfter, j)
  {
    if Broke(n, abortAfter) then abortAfter.value + 1 else n
  }

  /** The `finally`: an outside `cancelStream` that came after `handled` chunks has aborted the
      controller; then the controller is forgotten. */
  function Finished(st: ServiceState, abortAfter: Option<nat>, handled: nat): (r: ServiceState)
    ensures r.controller.None? && r.sessions == st.sessions && r.config == st.config
  {
    (if AbortedBy(abortAfter, handled) then Cancelled(st) else st).(controller := None)
  }

  /** A throw before `onStart`: `onError` unless the signal is aborted, then the error is rethrown. */
  function EarlyFailure(st: ServiceState, e: ProviderError, abortAfter: Option<nat>): Outcome {
    Outcome(if AbortedBy(abortAfter, 0) then [] else [ErrorReported(e.message)],
            Rejected(e), Finished(st, abortAfter, 0), [])
  }

  /** From `onStart` on: send the last user message, report chunks, then complete or report the
      provider's error; in both cases the callback is skipped once the signal is aborted. */
  function StreamReply(st: ServiceState, text: string, reply: Reply, abortAfter: Option<nat>): Outcome {
    var chunks := reply.chunks;
    var d := Delivered(|chunks|, abortAfter);
    var full := Concat(chunks[..d]);
    var events := [Start] + Tokens(chunks[..d]);
    var st2 := Finished(st, abortAfter, d);
    var quiet := AbortedBy(abortAfter, d);
    if Broke(|chunks|, abortAfter) || reply.failure.None? then
      Outcome(events + (if quiet then [] else [Complete(full)]), Resolved(full), st2, [text])
    else
      Outcome(events + (if quiet then [] else [ErrorReported(reply.failure.value.message)]),
              Rejected(reply.failure.value), st2, [text])
  }

  /** The controller every call installs after `cancelStream`. */
  function Armed(st0: ServiceState): ServiceState {
    Cancelled(st0).(controller := Some(st0.nextController), nextController := st0.nextController + 1)
  }

  /** The live path of `streamChatWithHistory`. */
  function LiveCall(st0: ServiceState, chatId: string, messages: seq<ChatMessage>, systemPrompt: string,
                    now: int, setup: ChatSetup, reply: Reply, abortAfter: Option<nat>): Outcome
  {
    LiveStream(Armed(st0), chatId, messages, systemPrompt, now, setup, reply, abortAfter)
  }

  /** The live path once the controller is installed: the unpruned history is searched for its last
      user message after the session is resolved. */
  function LiveStream(st1: ServiceState, chatId: string, messages: seq<ChatMessage>, systemPrompt: string,
                      now: int, setup: ChatSetup, reply: Reply, abortAfter: Option<nat>): Outcome
  {
    var res := GetOrCreate(st1, chatId, systemPrompt, now, setup);
    var lastUser := LastUserMessage(messages);
    if res.chat.Failure? then EarlyFailure(res.state, res.chat.error, abortAfter)
    else if lastUser.None? then EarlyFailure(res.state, PlainError(NO_USER_MESSAGE), abortAfter)
    else StreamReply(res.state, lastUser.value.parts, reply, abortAfter)
  }

  /** The demo path of `streamChatWithHistory`. */
  function DemoCall(st0: ServiceState, messages: seq<ChatMessage>): Outcome {
    DemoStream(Armed(st0), messages)
  }

  /** The demo path once the controller is installed: the demo module's stream is returned without
      being awaited, so the `finally` forgets the controller at once and no `cancelStream` can reach
      that stream's signal. */
  function DemoStream(st1: ServiceState, messages: seq<ChatMessage>): Outcome {
    var st := st1.(controller := None);
    var lastUser := LastUserMessage(messages);
    if lastUser.None? then
      Outcome([ErrorReported(NO_USER_MESSAGE)], Rejected(PlainError(NO_USER_MESSAGE)), st, [])
    else
      var run := DemoMode.CharStream(DemoMode.StreamTemplate(lastUser.value.parts), None);
      Outcome(run.events, Resolved(run.resolved), st, [])
  }

  /** `getLastUserMessage`: the index loop from the end. */
  method GetLastUserMessage(msgs: seq<ChatMessage>) returns (r: Option<ChatMessage>)
    ensures r == LastUserMessage(msgs)
  {
    var i := |msgs|;
    assert msgs[..i] == msgs;
    while i > 0
      invariant 0 <= i <= |msgs|
      invariant LastUserMessage(msgs[..i]) == LastUserMessage(msgs)
      decreases i
    {
      assert msgs[..i][..i - 1] == msgs[..i - 1];
      if msgs[i - 1].role == User {
        return Some(msgs[i - 1]);
      }
      i := i - 1;
    }
    assert msgs[..0] == [];
    return None;
  }

  /** The chunk loop: append the chunk, report it, and only then check the signal. */
  method RelayChunks(chunks: seq<string>, abortAfter: Option<nat>)
    returns (text: string, tokens: seq<Event>, delivered: nat, broke: bool)
    ensures delivered == Delivered(|chunks|, abortAfter) && broke == Broke(|chunks|, abortAfter)
    ensures tokens == Tokens(chunks[..delivered])
    ensures text == Concat(chunks[..delivered])
  {
    text := "";
    tokens := [];
    delivered := 0;
    broke := false;
    while delivered < |chunks|
      invariant delivered <= Delivered(|chunks|, abortAfter)
      invariant delivered == 0 || !AbortedBy(abortAfter, delivered - 1)
      invariant tokens == Tokens(chunks[..delivered])
      invariant text == Concat(chunks[..delivered])
      decreases |chunks| - delivered
    {
      var token := chunks[delivered];
      assert chunks[..delivered + 1] == chunks[..delivered] + [token];
      ConcatSnoc(chunks[..delivered], token);
      text := text + token;
      tokens := tokens + [Token(token)];
      delivered := delivered + 1;
      if AbortedBy(abortAfter, delivered - 1) {
        broke := true;
        break;
      }
    }
  }

  class GeminiService {
    var apiKey: string
    var modelName: string
    var maxOutputTokens: int
    var temperature: real
    var isDemoMode: bool
    var modelReady: bool
    var chatSessions: map<string, Session>
    var abortController: Option<nat>
    var abortedSignals: set<nat>
    var nextHandle: nat
    var nextController: nat

    function State(): ServiceState
      reads this
    {
      ServiceState(Config(apiKey, modelName, maxOutputTokens, temperature), isDemoMode, modelReady,
                   chatSessions, abortController, abortedSignals, nextHandle, nextController)
    }

    /** `new GeminiService(options)`; `clientInitOk` says whether `initializeClient` succeeds. */
    constructor(options: Options, clientInitOk: bool)
      ensures State() == InitialState(options, clientInitOk)
    {
      var key := Or(options.apiKey, "", DEFAULT_API_KEY);
      apiKey := key;
      modelName := Or(options.modelName, "", DEFAULT_MODEL_NAME);
      maxOutputTokens := Or(options.maxOutputTokens, 0, DEFAULT_MAX_OUTPUT_TOKENS);
      temperature := Or(options.temperature, 0.0, DEFAULT_TEMPERATURE);
      isDemoMode := Or(options.isDemoMode, false, key == DEMO_KEY);
      modelReady := false;
      chatSessions := map[];
      abortController := None;
      abortedSignals := {};
      nextHandle := 0;
      nextController := 0;
      new;
      if !isDemoMode {
        InitializeClient(clientInitOk);
      }
    }

    method InitializeClient(clientInitOk: bool)
      modifies this
      ensures State() == Initialised(old(State()), clientInitOk)
    {
      if clientInitOk {
        modelReady := true;
      } else {
        isDemoMode := true;
      }
    }

    /** The sweep the interval timer runs: delete every entry idle for more than thirty minutes. */
    method CleanupExpiredSessions(now: int)
      modifies this
      ensures State() == old(State()).(sessions := SessionExpiry.Swept(old(chatSessions), LastActive, now, SESSION_TIMEOUT_MS))
    {
      var pending := chatSessions.Keys;
      while pending != {}
        invariant pending <= old(chatSessions).Keys
        invariant State() == old(State()).(sessions := chatSessions)
        invariant chatSessions == map id | id in old(chatSessions)
                    && (id in pending || !SessionExpiry.Expired(now, old(chatSessions)[id].lastActive, SESSION_TIMEOUT_MS))
                    :: old(chatSessions)[id]
        decreases pending
      {
        var chatId :| chatId in pending;
        if now - chatSessions[chatId].lastActive > SESSION_TIMEOUT_MS {
          chatSessions := chatSessions - {chatId};
        }
        pending := pending - {chatId};
      }
    }

    method StartChat(chatId: string, instruction: Option<string>, now: int) returns (chat: Chat)
      modifies this
      ensures Resolution(Success(chat), State()) == Started(old(State()), chatId, instruction, now)
    {
      chat := LiveChat(nextHandle, instruction);
      nextHandle := nextHandle + 1;
      chatSessions := chatSessions[chatId := Session(chat, now)];
    }

    method GetOrCreateChatSession(chatId: string, systemPrompt: string, now: int, setup: ChatSetup)
      returns (chat: Result<Chat, ProviderError>)
      modifies this
      ensures Resolution(chat, State()) == GetOrCreate(old(State()), chatId, systemPrompt, now, setup)
    {
      if chatId in chatSessions {
        var session := chatSessions[chatId];
        chatSessions := chatSessions[chatId := session.(lastActive := now)];
        return Success(session.chat);
      }
      if isDemoMode {
        chatSessions := chatSessions[chatId := Session(DemoChat, now)];
        return Success(DemoChat);
      }
      if !modelReady {
        return Failure(PlainError(NOT_INITIALIZED));
      }
      var started: Chat;
      if !setup.fullPromptFails {
        started := StartChat(chatId, if systemPrompt != "" then Some(systemPrompt) else None, now);
      } else if !setup.shortenedPromptFails {
        started := StartChat(chatId, Some(SHORTENED_PROMPT), now);
      } else {
        return Failure(PlainError(SESSION_FAILED));
      }
      chat := Success(started);
    }

    method CancelStream()
      modifies this
      ensures State() == Cancelled(old(State()))
    {
      if abortController.Some? {
        abortedSignals := abortedSignals + {abortController.value};
        abortController := None;
      }
    }

    /** The `cancelStream` from elsewhere that the script places after `handled` chunks, and the
        `finally` that forgets the controller. */
    method Finish(abortAfter: Option<nat>, handled: nat)
      modifies this
      ensures State() == Finished(old(State()), abortAfter, handled)
    {
      if AbortedBy(abortAfter, handled) {
        CancelStream();
      }
      abortController := None;
    }

    /** `streamChatWithHistory(chatId, messages, systemPrompt, callbacks)`: returns the callbacks
        fired, how the promise settles, and the texts sent to the provider. */
    method StreamChatWithHistory(chatId: string, messages: seq<ChatMessage>, systemPrompt: string, now: int,
                                 setup: ChatSetup, reply: Reply, abortAfter: Option<nat>)
      returns (events: seq<Event>, result: CallResult, requests: seq<string>)
      modifies this
      ensures old(isDemoMode) ==> Outcome(events, result, State(), requests) == DemoCall(old(State()), messages)
      ensures !old(isDemoMode) ==>
        Outcome(events, result, State(), requests)
          == LiveCall(old(State()), chatId, messages, systemPrompt, now, setup, reply, abortAfter)
    {
      Arm();
      if isDemoMode {
        events, result := StreamDemo(messages);
        requests := [];
      } else {
        events, result, requests := StreamLive(chatId, messages, systemPrompt, now, setup, reply, abortAfter);
      }
    }

    /** `cancelStream()`, then a new controller for this call. */
    method Arm()
      modifies this
      ensures State() == Armed(old(State()))
    {
      CancelStream();
      abortController := Some(nextController);
      nextController := nextController + 1;
    }

    /** The demo branch of the `try`. */
    method StreamDemo(messages: seq<ChatMessage>) returns (events: seq<Event>, result: CallResult)
      modifies this
      ensures Outcome(events, result, State(), []) == DemoStream(old(State()), messages)
    {
      var lastUserMessage := GetLastUserMessage(messages);
      abortController := None;
      if lastUserMessage.None? {
        var error := PlainError(NO_USER_MESSAGE);
        return [ErrorReported(error.message)], Rejected(error);
      }
      var resolved;
      events, resolved := DemoMode.StreamDemoResponse(lastUserMessage.value.parts, None);
      result := Resolved(resolved);
    }

    /** The live branch of the `try`, with its `catch` and `finally`. */
    method StreamLive(chatId: string, messages: seq<ChatMessage>, systemPrompt: string, now: int,
                      setup: ChatSetup, reply: Reply, abortAfter: Option<nat>)
      returns (events: seq<Event>, result: CallResult, requests: seq<string>)
      modifies this
      ensures Outcome(events, result, State(), requests)
              == LiveStream(old(State()), chatId, messages, systemPrompt, now, setup, reply, abortAfter)
    {
      var chat := GetOrCreateChatSession(chatId, systemPrompt, now, setup);
      var lastUserMessage := GetLastUserMessage(messages);
      if chat.Failure? {
        events, result := ReportEarly(chat.error, abortAfter);
        requests := [];
      } else if lastUserMessage.None? {
        events, result := ReportEarly(PlainError(NO_USER_MESSAGE), abortAfter);
        requests := [];
      } else {
        events, result, requests := SendAndRelay(lastUserMessage.value.parts, reply, abortAfter);
      }
    }

    /** The `catch` and `finally` for a throw before `onStart`. */
    method ReportEarly(error: ProviderError, abortAfter: Option<nat>) returns (events: seq<Event>, result: CallResult)
      modifies this
      ensures Outcome(events, result, State(), []) == EarlyFailure(old(State()), error, abortAfter)
    {
      events := if AbortedBy(abortAfter, 0) then [] else [ErrorReported(error.message)];
      Finish(abortAfter, 0);
      result := Rejected(error);
    }

    /** From `onStart` to the `finally`, once the session and the last user message are known. */
    method SendAndRelay(text: string, reply: Reply, abortAfter: Option<nat>)
      returns (events: seq<Event>, result: CallResult, requests: seq<string>)
      modifies this
      ensures Outcome(events, result, State(), requests) == StreamReply(old(State()), text, reply, abortAfter)
    {
      requests := [text];
      var fullResponse, tokens, delivered, broke := RelayChunks(reply.chunks, abortAfter);
      events := [Start] + tokens;
      var quiet := AbortedBy(abortAfter, delivered);
      if broke || reply.failure.None? {
        if !quiet {
          events := events + [Complete(fullResponse)];
        }
        result := Resolved(fullResponse);
      } else {
        if !quiet {
          events := events + [ErrorReported(reply.failure.value.message)];
        }
        result := Rejected(reply.failure.value);
      }
      Finish(abortAfter, delivered);
    }

    method ReassignFields(options: Options)
      modifies this
      ensures State() == Reassigned(old(State()), options)
    {
      apiKey := Or(options.apiKey, "", apiKey);
      modelName := Or(options.modelName, "", modelName);
      maxOutputTokens := Or(options.maxOutputTokens, 0, maxOutputTokens);
      temperature := Or(options.temperature, 0.0, temperature);
      isDemoMode := if options.isDemoMode.Some? then options.isDemoMode.value else apiKey == DEMO_KEY;
    }

    /** `updateConfig(options)`; `clientInitOk` says whether a new `initializeClient` succeeds. */
    method UpdateConfig(options: Options, clientInitOk: bool)
      modifies this
      ensures State() == Reconfigured(old(State()), options, clientInitOk)
    {
      var configChanged :=
        (options.apiKey.Some? && options.apiKey.value != apiKey)
        || (options.modelName.Some? && options.modelName.value != modelName)
        || (options.maxOutputTokens.Some? && options.maxOutputTokens.value != maxOutputTokens)
        || (options.temperature.Some? && options.temperature.value != temperature);
      assert configChanged == ConfigChanged(old(State()).config, options);
      if configChanged {
        ReassignFields(options);
        if !isDemoMode {
          InitializeClient(clientInitOk);
        }
        chatSessions := map[];
      }
    }
  }
}
