/** The streaming chat service with per-chat sessions, persona checks, history pruning, a one-hour
    idle sweep, single-flight cancellation and a retry after a context-length error. The provider is
    a script: what seeding a new session does, the chunks a stream yields and how it ends, and when
    an outside `cancelStream` aborts the signal. */
module GeminiService {

  import opened Wrappers
  import opened ChatTypes
  import HistoryPruning
  import SessionExpiry
  import DemoMode

  /** One hour, in milliseconds. */
  const SESSION_EXPIRY_MS: int := 60 * 60 * 1000

  const NO_USER_MESSAGE: string := "No user message found in history"

  /** A stored session: the provider chat handle, the persona it was seeded for, and its last use. */
  datatype Session = Session(chat: nat, personaId: string, lastActive: int)

  function LastActive(s: Session): int {
    s.lastActive
  }

  /** The fields of the service object. Chat handles and abort controllers are numbered by fresh
      counters; `aborted` records every controller whose signal was aborted. */
  datatype ServiceState = ServiceState(
    sessions: map<string, Session>,
    controller: Option<nat>,
    aborted: set<nat>,
    nextHandle: nat,
    nextController: nat)

  /** Handles and controllers in use were all handed out by the counters. */
  predicate ValidState(st: ServiceState) {
    (forall id :: id in st.sessions ==> st.sessions[id].chat < st.nextHandle)
    && (st.controller.Some? ==> st.controller.value < st.nextController)
    && (forall c :: c in st.aborted ==> c < st.nextController)
  }

  /** What the provider does during one `streamChatWithHistory` call. `seed` is how sending the
      system prompt to a newly started chat ends (`None`: it succeeds); `reply` is the stream for the
      last user message; `retrySeed` and `retryReply` are used by the context-length retry;
      `abortAfter` is the number of chunks handled when an outside `cancelStream` aborts the signal. */
  datatype LiveScript = LiveScript(
    seed: Option<ProviderError>,
    reply: Reply,
    retrySeed: Option<ProviderError>,
    retryReply: Reply,
    abortAfter: Option<nat>)

  /** A chat handle, or the error that resolving it threw, with the state afterwards. */
  datatype Resolution = Resolution(chat: Result<nat, ProviderError>, state: ServiceState)

  /** Callbacks fired, how the promise settles, the state afterwards and the texts sent with
      `sendMessageStream`, in order. */
  datatype Outcome = Outcome(events: seq<Event>, result: CallResult, state: ServiceState, requests: seq<string>)

  /** `cancelStream`: abort the controller if there is one and forget it. */
  function Cancelled(st: ServiceState): (r: ServiceState)
    ensures st.controller.None? ==> r == st
    ensures r.controller.None? && r.sessions == st.sessions
    ensures st.controller.Some? ==> r.aborted == st.aborted + {st.controller.value}
  {
    match st.controller
    case None => st
    case Some(c) => st.(controller := None, aborted := st.aborted + {c})
  }

  /** `createNewChatSession`: start a chat (a fresh handle), send it the system prompt, and only when
      that succeeds store `{chat, personaId, lastActive: now}` under `chatId`. */
  function CreateSession(st: ServiceState, chatId: string, personaId: string, now: int,
                         seed: Option<ProviderError>): (r: Resolution)
    ensures r.state.nextHandle == st.nextHandle + 1
    ensures r.state.controller == st.controller && r.state.aborted == st.aborted
    ensures seed.Some? ==> r.chat == Failure(seed.value) && r.state.sessions == st.sessions
    ensures seed.None? ==>
      r.chat == Success(st.nextHandle)
      && r.state.sessions == st.sessions[chatId := Session(st.nextHandle, personaId, now)]
  {
    var handle := st.nextHandle;
    var started := st.(nextHandle := handle + 1);
    match seed
    case Some(e) => Resolution(Failure(e), started)
    case None => Resolution(Success(handle), started.(sessions := st.sessions[chatId := Session(handle, personaId, now)]))
  }

  /** `getOrCreateChatSession`: reuse the stored chat when it was seeded for the same persona,
      refreshing its `lastActive`; otherwise create a new session over the old entry. */
  function GetOrCreate(st: ServiceState, chatId: string, personaId: string, now: int,
                       seed: Option<ProviderError>): Resolution
  {
    if chatId in st.sessions && st.sessions[chatId].personaId == personaId then
      Resolution(Success(st.sessions[chatId].chat),
                 st.(sessions := st.sessions[chatId := st.sessions[chatId].(lastActive := now)]))
    else
      CreateSession(st, chatId, personaId, now, seed)
  }

  /** An outside `cancelStream` that has happened once `handled` chunks went by. */
  function ApplyAbort(st: ServiceState, abortAfter: Option<nat>, handled: nat): ServiceState {
    if AbortedBy(abortAfter, handled) then Cancelled(st) else st
  }

  /** After the stream: refresh the session's `lastActive` when it is still stored. */
  function Refreshed(st: ServiceState, chatId: string, now: int): ServiceState {
    if chatId in st.sessions then st.(sessions := st.sessions[chatId := st.sessions[chatId].(lastActive := now)])
    else st
  }

  /** The outer `catch`: an `AbortError` resolves to "" silently; any other error is reported with
      `onError`, the session is deleted and the error is rethrown. */
  function Outer(events: seq<Event>, e: ProviderError, st: ServiceState, chatId: string, requests: seq<string>): Outcome {
    if e.name == "AbortError" then Outcome(events, Resolved(""), st, requests)
    else Outcome(events + [ErrorReported(e.message)], Rejected(e), st.(sessions := st.sessions - {chatId}), requests)
  }

  /** The live path of `streamChatWithHistory`, after `cancelStream`. */
  function LiveCall(st0: ServiceState, chatId: string, messages: seq<ChatMessage>, systemPrompt: string,
                    personaId: string, now: int, sc: LiveScript): Outcome
  {
    var c := st0.nextController;
    LiveArmed(Cancelled(st0).(controller := Some(c), nextController := c + 1),
              chatId, messages, systemPrompt, personaId, now, sc)
  }

  /** The live path once the call's own controller is installed. */
  function LiveArmed(st1: ServiceState, chatId: string, messages: seq<ChatMessage>, systemPrompt: string,
                     personaId: string, now: int, sc: LiveScript): Outcome
  {
    var res := GetOrCreate(st1, chatId, personaId, now, sc.seed);
    if res.chat.Failure? then
      Outer([Start], res.chat.error, ApplyAbort(res.state, sc.abortAfter, 0), chatId, [])
    else
      var lastUser := LastUserMessage(HistoryPruning.Pruned(messages, systemPrompt));
      if lastUser.None? then
        Outer([Start], PlainError(NO_USER_MESSAGE), ApplyAbort(res.state, sc.abortAfter, 0), chatId, [])
      else
        FirstStream(res.state, chatId, personaId, now, lastUser.value.parts, sc)
  }

  /** The stream for the last user message, and what follows its end. */
  function FirstStream(st: ServiceState, chatId: string, personaId: string, now: int, text: string,
                       sc: LiveScript): Outcome
  {
    var chunks := sc.reply.chunks;
    var k := Handled(|chunks|, sc.abortAfter);
    var full := Concat(chunks[..k]);
    var events := [Start] + Tokens(chunks[..k]);
    var st2 := ApplyAbort(st, sc.abortAfter, k);
    if k < |chunks| || sc.reply.failure.None? then
      Outcome(events + (if AbortedBy(sc.abortAfter, |chunks|) then [] else [Complete(full)]),
              Resolved(full), Refreshed(st2, chatId, now).(controller := None), [text])
    else if IsContextLimit(sc.reply.failure.value.message) then
      Retry(st2, chatId, personaId, now, text, events, sc)
    else
      Outer(events, sc.reply.failure.value, st2, chatId, [text])
  }

  /** The context-length retry: delete the session, create it again and stream only the last user
      message. The controller is not cleared on this path. */
  function Retry(st: ServiceState, chatId: string, personaId: string, now: int, text: string,
                 events: seq<Event>, sc: LiveScript): Outcome
  {
    var res := CreateSession(st.(sessions := st.sessions - {chatId}), chatId, personaId, now, sc.retrySeed);
    if res.chat.Failure? then
      Outer(events, res.chat.error, res.state, chatId, [text])
    else
      var left := AbortLeft(sc.abortAfter, |sc.reply.chunks|);
      var chunks := sc.retryReply.chunks;
      var k := Handled(|chunks|, left);
      var retryText := Concat(chunks[..k]);
      var events2 := events + Tokens(chunks[..k]);
      var st2 := ApplyAbort(res.state, left, k);
      if k < |chunks| || sc.retryReply.failure.None? then
        Outcome(events2 + (if AbortedBy(left, |chunks|) then [] else [Complete(retryText)]),
                Resolved(retryText), st2, [text, text])
      else
        Outer(events2, sc.retryReply.failure.value, st2, chatId, [text, text])
  }

  /** The demo path of `streamChatWithHistory`: after `cancelStream`, the short template for the
      last message's text is streamed under a controller of its own, which is cleared on completion
      and by the `cancelStream` that aborts it. */
  function DemoCall(st0: ServiceState, messages: seq<ChatMessage>, abortAt: Option<nat>): Outcome {
    var t := DemoMode.DemoReply(LastParts(messages));
    var run := DemoMode.CharStream(t, abortAt);
    var c := st0.nextController;
    var st1 := Cancelled(st0).(controller := Some(c), nextController := c + 1);
    var st2 := if AbortedBy(abortAt, |t|) then Cancelled(st1) else st1.(controller := None);
    Outcome(run.events, Resolved(run.resolved), st2, [])
  }

  /** The chunk loop: check the signal before each chunk, append it and report it. */
  method RelayChunks(chunks: seq<string>, abortAt: Option<nat>)
    returns (text: string, tokens: seq<Event>, handled: nat)
    ensures handled == Handled(|chunks|, abortAt)
    ensures tokens == Tokens(chunks[..handled])
    ensures text == Concat(chunks[..handled])
  {
    text := "";
    tokens := [];
    handled := 0;
    while handled < |chunks|
      invariant handled <= Handled(|chunks|, abortAt)
      invariant tokens == Tokens(chunks[..handled])
      invariant text == Concat(chunks[..handled])
      decreases |chunks| - handled
    {
      if AbortedBy(abortAt, handled) {
        break;
      }
      var chunkText := chunks[handled];
      assert chunks[..handled + 1] == chunks[..handled] + [chunkText];
      ConcatSnoc(chunks[..handled], chunkText);
      text := text + chunkText;
      tokens := tokens + [Token(chunkText)];
      handled := handled + 1;
    }
  }

  class GeminiService {
    var isDemoMode: bool
    var chatSessions: map<string, Session>
    var streamAbortController: Option<nat>
    var abortedSignals: set<nat>
    var nextHandle: nat
    var nextController: nat

    function State(): ServiceState
      reads this
    {
      ServiceState(chatSessions, streamAbortController, abortedSignals, nextHandle, nextController)
    }

    /** Demo mode is on when the key is missing or is `demo_mode`. */
    constructor(apiKey: string)
      ensures isDemoMode <==> apiKey == "" || apiKey == "demo_mode"
      ensures State() == ServiceState(map[], None, {}, 0, 0)
    {
      isDemoMode := apiKey == "" || apiKey == "demo_mode";
      chatSessions := map[];
      streamAbortController := None;
      abortedSignals := {};
      nextHandle := 0;
      nextController := 0;
    }

    /** `cleanupExpiredSessions`: delete, one by one, every entry idle for more than an hour. */
    method CleanupExpiredSessions(now: int)
      modifies this
      ensures chatSessions == SessionExpiry.Swept(old(chatSessions), LastActive, now, SESSION_EXPIRY_MS)
      ensures isDemoMode == old(isDemoMode) && streamAbortController == old(streamAbortController)
      ensures abortedSignals == old(abortedSignals)
      ensures nextHandle == old(nextHandle) && nextController == old(nextController)
    {
      var pending := chatSessions.Keys;
      while pending != {}
        invariant pending <= old(chatSessions).Keys
        invariant isDemoMode == old(isDemoMode) && streamAbortController == old(streamAbortController)
        invariant abortedSignals == old(abortedSignals)
        invariant nextHandle == old(nextHandle) && nextController == old(nextController)
        invariant chatSessions == map id | id in old(chatSessions)
                    && (id in pending || !SessionExpiry.Expired(now, old(chatSessions)[id].lastActive, SESSION_EXPIRY_MS))
                    :: old(chatSessions)[id]
        decreases pending
      {
        var chatId :| chatId in pending;
        if now - chatSessions[chatId].lastActive > SESSION_EXPIRY_MS {
          chatSessions := chatSessions - {chatId};
        }
        pending := pending - {chatId};
      }
    }

    method CreateNewChatSession(chatId: string, personaId: string, systemPrompt: string, now: int,
                                seed: Option<ProviderError>)
      returns (chat: Result<nat, ProviderError>)
      modifies this
      ensures Resolution(chat, State()) == CreateSession(old(State()), chatId, personaId, now, seed)
      ensures isDemoMode == old(isDemoMode)
    {
      chat := Success(nextHandle);
      nextHandle := nextHandle + 1;
      if seed.Some? {
        chat := Failure(seed.value);
        return;
      }
      chatSessions := chatSessions[chatId := Session(chat.value, personaId, now)];
    }

    method GetOrCreateChatSession(chatId: string, personaId: string, systemPrompt: string, now: int,
                                  seed: Option<ProviderError>)
      returns (chat: Result<nat, ProviderError>)
      modifies this
      ensures Resolution(chat, State()) == GetOrCreate(old(State()), chatId, personaId, now, seed)
      ensures isDemoMode == old(isDemoMode)
    {
      if chatId in chatSessions {
        var session := chatSessions[chatId];
        if session.personaId != personaId {
          chat := CreateNewChatSession(chatId, personaId, systemPrompt, now, seed);
          return;
        }
        chatSessions := chatSessions[chatId := session.(lastActive := now)];
        return Success(session.chat);
      }
      chat := CreateNewChatSession(chatId, personaId, systemPrompt, now, seed);
    }

    method CancelStream()
      modifies this
      ensures State() == Cancelled(old(State()))
      ensures isDemoMode == old(isDemoMode)
    {
      if streamAbortController.Some? {
        abortedSignals := abortedSignals + {streamAbortController.value};
        streamAbortController := None;
      }
    }

    /** The `cancelStream` from elsewhere that the script places after `handled` chunks. */
    method ExternalAbort(abortAt: Option<nat>, handled: nat)
      modifies this
      ensures State() == ApplyAbort(old(State()), abortAt, handled)
      ensures isDemoMode == old(isDemoMode)
    {
      if AbortedBy(abortAt, handled) {
        CancelStream();
      }
    }

    /** `generateContent`: the demo reply in demo mode; the live request is not modelled (`None`). */
    method GenerateContent(prompt: string) returns (reply: Option<string>)
      ensures isDemoMode ==> reply == Some(DemoMode.GenerateDemoResponse(prompt))
      ensures !isDemoMode ==> reply.None?
    {
      if isDemoMode {
        return Some(DemoMode.GenerateDemoResponse(prompt));
      }
      return None;
    }

    /** `chatWithHistory` in demo mode: the demo reply to the last message's text, or to "". */
    method ChatWithHistory(messages: seq<ChatMessage>, systemPrompt: string) returns (reply: Option<string>)
      ensures isDemoMode ==> reply == Some(DemoMode.GenerateDemoResponse(LastParts(messages)))
      ensures !isDemoMode ==> reply.None?
    {
      if isDemoMode {
        return Some(DemoMode.GenerateDemoResponse(LastParts(messages)));
      }
      return None;
    }

    /** The service's own `streamDemoResponse`: a new controller, the short template streamed one
        character at a time, the controller cleared on completion. */
    method StreamDemoResponse(prompt: string, abortAt: Option<nat>) returns (events: seq<Event>, resolved: string)
      modifies this
      ensures var t := DemoMode.DemoReply(prompt);
        var st1 := old(State()).(controller := Some(old(nextController)), nextController := old(nextController) + 1);
        DemoMode.StreamRun(events, resolved) == DemoMode.CharStream(t, abortAt)
        && State() == (if AbortedBy(abortAt, |t|) then Cancelled(st1) else st1.(controller := None))
      ensures isDemoMode == old(isDemoMode)
    {
      streamAbortController := Some(nextController);
      nextController := nextController + 1;
      var t := DemoMode.DemoReply(prompt);
      events, resolved := DemoMode.StreamChars(t, abortAt);
      if AbortedBy(abortAt, |t|) {
        CancelStream();
      } else {
        streamAbortController := None;
      }
    }

    /** The outer `catch` of `streamChatWithHistory`. */
    method ReportOuter(events: seq<Event>, e: ProviderError, chatId: string)
      returns (events': seq<Event>, result: CallResult)
      modifies this
      ensures var o := Outer(events, e, old(State()), chatId, []);
        events' == o.events && result == o.result && State() == o.state
      ensures isDemoMode == old(isDemoMode)
    {
      if e.name == "AbortError" {
        return events, Resolved("");
      }
      events' := events + [ErrorReported(e.message)];
      chatSessions := chatSessions - {chatId};
      result := Rejected(e);
    }

    /** `streamChatWithHistory(chatId, messages, systemPrompt, personaId, callbacks)`: returns the
        callbacks fired, how the promise settles, and the texts sent to the provider. */
    method StreamChatWithHistory(chatId: string, messages: seq<ChatMessage>, systemPrompt: string,
                                 personaId: string, now: int, script: LiveScript)
      returns (events: seq<Event>, result: CallResult, requests: seq<string>)
      modifies this
      ensures isDemoMode == old(isDemoMode)
      ensures old(isDemoMode) ==>
        Outcome(events, result, State(), requests) == DemoCall(old(State()), messages, script.abortAfter)
      ensures !old(isDemoMode) ==>
        Outcome(events, result, State(), requests)
          == LiveCall(old(State()), chatId, messages, systemPrompt, personaId, now, script)
    {
      CancelStream();
      if isDemoMode {
        var resolved;
        events, resolved := StreamDemoResponse(LastParts(messages), script.abortAfter);
        result := Resolved(resolved);
        requests := [];
        return;
      }
      streamAbortController := Some(nextController);
      nextController := nextController + 1;
      events, result, requests := StreamLive(chatId, messages, systemPrompt, personaId, now, script);
    }

    /** The live path of `streamChatWithHistory` once its own controller is installed. */
    method StreamLive(chatId: string, messages: seq<ChatMessage>, systemPrompt: string,
                      personaId: string, now: int, script: LiveScript)
      returns (events: seq<Event>, result: CallResult, requests: seq<string>)
      modifies this
      ensures isDemoMode == old(isDemoMode)
      ensures Outcome(events, result, State(), requests)
              == LiveArmed(old(State()), chatId, messages, systemPrompt, personaId, now, script)
    {
      requests := [];
      var chat := GetOrCreateChatSession(chatId, personaId, systemPrompt, now, script.seed);
      if chat.Failure? {
        ExternalAbort(script.abortAfter, 0);
        events, result := ReportOuter([Start], chat.error, chatId);
        return;
      }
      var prunedMessages := HistoryPruning.PruneMessageHistory(messages, systemPrompt);
      var lastUserMessage := LastUserMessage(prunedMessages);
      if lastUserMessage.None? {
        ExternalAbort(script.abortAfter, 0);
        events, result := ReportOuter([Start], PlainError(NO_USER_MESSAGE), chatId);
        return;
      }
      events, result, requests := StreamLastUserMessage(chatId, personaId, systemPrompt, now,
                                                         lastUserMessage.value.parts, script);
    }

    /** The inner `try` of `streamChatWithHistory`: stream the reply to the last user message. */
    method StreamLastUserMessage(chatId: string, personaId: string, systemPrompt: string, now: int, text: string,
                                 script: LiveScript)
      returns (events: seq<Event>, result: CallResult, requests: seq<string>)
      modifies this
      ensures isDemoMode == old(isDemoMode)
      ensures Outcome(events, result, State(), requests)
              == FirstStream(old(State()), chatId, personaId, now, text, script)
    {
      requests := [text];
      var chunks := script.reply.chunks;
      var fullResponse, tokens, handled := RelayChunks(chunks, script.abortAfter);
      events := [Start] + tokens;
      ExternalAbort(script.abortAfter, handled);
      if handled < |chunks| || script.reply.failure.None? {
        if !AbortedBy(script.abortAfter, |chunks|) {
          events := events + [Complete(fullResponse)];
        }
        if chatId in chatSessions {
          chatSessions := chatSessions[chatId := chatSessions[chatId].(lastActive := now)];
        }
        streamAbortController := None;
        result := Resolved(fullResponse);
        return;
      }
      var error := script.reply.failure.value;
      if !IsContextLimit(error.message) {
        events, result := ReportOuter(events, error, chatId);
        return;
      }
      events, result, requests := RetryWithLastUserMessage(chatId, personaId, systemPrompt, now, text, events, script);
    }

    /** The context-length branch of the inner `catch`. */
    method RetryWithLastUserMessage(chatId: string, personaId: string, systemPrompt: string, now: int, text: string,
                                    events0: seq<Event>, script: LiveScript)
      returns (events: seq<Event>, result: CallResult, requests: seq<string>)
      modifies this
      ensures isDemoMode == old(isDemoMode)
      ensures Outcome(events, result, State(), requests)
              == Retry(old(State()), chatId, personaId, now, text, events0, script)
    {
      events := events0;
      requests := [text];
      chatSessions := chatSessions - {chatId};
      var newChat := CreateNewChatSession(chatId, personaId, systemPrompt, now, script.retrySeed);
      if newChat.Failure? {
        events, result := ReportOuter(events, newChat.error, chatId);
        return;
      }
      requests := requests + [text];
      var left := AbortLeft(script.abortAfter, |script.reply.chunks|);
      var retryChunks := script.retryReply.chunks;
      var retryResponse, retryTokens, retryHandled := RelayChunks(retryChunks, left);
      events := events + retryTokens;
      ExternalAbort(left, retryHandled);
      if retryHandled < |retryChunks| || script.retryReply.failure.None? {
        if !AbortedBy(left, |retryChunks|) {
          events := events + [Complete(retryResponse)];
        }
        result := Resolved(retryResponse);
        return;
      }
      events, result := ReportOuter(events, script.retryReply.failure.value, chatId);
    }
  }
}
