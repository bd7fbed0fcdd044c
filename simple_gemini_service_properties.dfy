/** What the simplified streaming service promises, proved of its specification functions. */
module SimpleGeminiServiceProperties {

  import opened Wrappers
  import opened ChatTypes
  import DemoMode
  import opened SimpleGeminiService

  // Configuration

  /** An update with no differing field changes nothing at all, demo mode included; one with a
      differing field drops every session. */
  lemma {:induction false} UpdateClearsIffChanged(st: ServiceState, options: Options, clientInitOk: bool)
    ensures !ConfigChanged(st.config, options) ==> Reconfigured(st, options, clientInitOk) == st
    ensures ConfigChanged(st.config, options) ==> Reconfigured(st, options, clientInitOk).sessions == map[]
  {
  }

  /** A supplied falsy value (`0`, `""`) that differs from the current one counts as a change, so the
      sessions are dropped, yet `||` keeps the old value in place. */
  lemma {:induction false} FalsyValueClearsButKeeps(st: ServiceState, options: Options, clientInitOk: bool)
    requires options.maxOutputTokens == Some(0) && st.config.maxOutputTokens != 0
    ensures var r := Reconfigured(st, options, clientInitOk);
      r.sessions == map[] && r.config.maxOutputTokens == st.config.maxOutputTokens
  {
  }

  lemma {:induction false} EmptyKeyClearsButKeeps(st: ServiceState, options: Options, clientInitOk: bool)
    requires options.apiKey == Some("") && st.config.apiKey != ""
    ensures var r := Reconfigured(st, options, clientInitOk);
      r.sessions == map[] && r.config.apiKey == st.config.apiKey
  {
  }

  /** After a change, demo mode is the supplied flag when there is one and otherwise whether the key is
      `demo_mode`, forced on when the new client cannot be initialised; the model becomes ready only
      when a client is initialised. */
  lemma {:induction false} UpdateDemoRule(st: ServiceState, options: Options, clientInitOk: bool)
    requires ConfigChanged(st.config, options)
    ensures var r := Reconfigured(st, options, clientInitOk);
      var chosen := if options.isDemoMode.Some? then options.isDemoMode.value else r.config.apiKey == DEMO_KEY;
      (r.isDemoMode <==> chosen || !clientInitOk)
      && r.modelReady == (if !chosen && clientInitOk then true else st.modelReady)
  {
  }

  /** Every supplied truthy value is taken; every other field keeps its value. */
  lemma {:induction false} UpdateTakesTruthyValues(st: ServiceState, options: Options, clientInitOk: bool)
    requires ConfigChanged(st.config, options)
    ensures var r := Reconfigured(st, options, clientInitOk);
      (options.apiKey.Some? && options.apiKey.value != "" ==> r.config.apiKey == options.apiKey.value)
      && (options.modelName.Some? && options.modelName.value != "" ==> r.config.modelName == options.modelName.value)
      && (options.maxOutputTokens.Some? && options.maxOutputTokens.value != 0 ==>
            r.config.maxOutputTokens == options.maxOutputTokens.value)
      && (options.temperature.Some? && options.temperature.value != 0.0 ==>
            r.config.temperature == options.temperature.value)
      && (options.modelName.None? ==> r.config.modelName == st.config.modelName)
      && (options.temperature.None? ==> r.config.temperature == st.config.temperature)
      && r.controller == st.controller && r.aborted == st.aborted
  {
  }

  /** Applying the same update twice: the second finds nothing that differs. */
  lemma {:induction false} UpdateSettles(st: ServiceState, options: Options, clientInitOk: bool)
    requires options.apiKey != Some("") && options.modelName != Some("")
    requires options.maxOutputTokens != Some(0) && options.temperature != Some(0.0)
    ensures var r := Reconfigured(st, options, clientInitOk);
      !ConfigChanged(r.config, options) && Reconfigured(r, options, clientInitOk) == r
  {
  }

  // Sessions

  /** A stored id returns the same chat whatever the prompt and the setup, with only its `lastActive`
      refreshed: there is no persona check. */
  lemma {:induction false} ExistingSessionReturned(st: ServiceState, chatId: string, prompt1: string, prompt2: string,
                                                   now: int, setup1: ChatSetup, setup2: ChatSetup)
    requires chatId in st.sessions
    ensures var r := GetOrCreate(st, chatId, prompt1, now, setup1);
      r == GetOrCreate(st, chatId, prompt2, now, setup2)
      && r.chat == Success(st.sessions[chatId].chat)
      && r.state == st.(sessions := st.sessions[chatId := st.sessions[chatId].(lastActive := now)])
  {
  }

  /** A missing id in demo mode gets the simulated chat. */
  lemma {:induction false} DemoSessionCreated(st: ServiceState, chatId: string, prompt: string, now: int, setup: ChatSetup)
    requires chatId !in st.sessions && st.isDemoMode
    ensures var r := GetOrCreate(st, chatId, prompt, now, setup);
      r.chat == Success(DemoChat) && r.state.sessions == st.sessions[chatId := Session(DemoChat, now)]
  {
  }

  /** A missing id outside demo mode: no model throws `Gemini API client not initialized`; otherwise
      the chat is started with the caller's prompt as instruction when it is non-empty, and when that
      throws it is started once more with the shortened prompt; when that throws too the error is
      `Failed to create chat session`. A failure stores nothing. */
  lemma {:induction false} NewSessionFallback(st: ServiceState, chatId: string, prompt: string, now: int, setup: ChatSetup)
    requires chatId !in st.sessions && !st.isDemoMode
    ensures var r := GetOrCreate(st, chatId, prompt, now, setup);
      (!st.modelReady ==> r == Resolution(Failure(PlainError(NOT_INITIALIZED)), st))
      && (st.modelReady && !setup.fullPromptFails ==>
            r.chat == Success(LiveChat(st.nextHandle, if prompt == "" then None else Some(prompt))))
      && (st.modelReady && setup.fullPromptFails && !setup.shortenedPromptFails ==>
            r.chat == Success(LiveChat(st.nextHandle, Some(SHORTENED_PROMPT))))
      && (st.modelReady && setup.fullPromptFails && setup.shortenedPromptFails ==>
            r == Resolution(Failure(PlainError(SESSION_FAILED)), st))
  {
  }

  /** Whatever happens, only the entry for `chatId` can change; a resolved chat is stored under it,
      stamped `now`; a started chat has a handle no stored session has; the counters stay sound. */
  lemma {:induction false} GetOrCreateFrame(st: ServiceState, chatId: string, prompt: string, now: int, setup: ChatSetup)
    requires ValidState(st)
    ensures var r := GetOrCreate(st, chatId, prompt, now, setup);
      ValidState(r.state)
      && (forall id :: id != chatId ==> (id in r.state.sessions <==> id in st.sessions))
      && (forall id :: id != chatId && id in st.sessions ==> r.state.sessions[id] == st.sessions[id])
      && (r.chat.Success? ==> chatId in r.state.sessions && r.state.sessions[chatId] == Session(r.chat.value, now))
      && (r.chat.Success? && r.chat.value.LiveChat? && chatId !in st.sessions ==>
            forall id :: id in st.sessions && st.sessions[id].chat.LiveChat? ==>
              st.sessions[id].chat.handle != r.chat.value.handle)
      && r.state.config == st.config && r.state.isDemoMode == st.isDemoMode
      && r.state.controller == st.controller && r.state.aborted == st.aborted
  {
  }

  /** `cancelStream` twice is `cancelStream` once. */
  lemma {:induction false} CancelIdempotent(st: ServiceState)
    ensures Cancelled(Cancelled(st)) == Cancelled(st)
  {
  }

  // Streaming

  /** Every call first cancels the previous stream, then installs a fresh controller. */
  lemma {:induction false} ArmedFacts(st0: ServiceState)
    requires ValidState(st0)
    ensures var st1 := Armed(st0);
      ValidState(st1) && st1.controller == Some(st0.nextController) && st0.nextController !in st1.aborted
      && (st0.controller.Some? ==> st0.controller.value in st1.aborted)
      && st1.sessions == st0.sessions && st1.config == st0.config && st1.isDemoMode == st0.isDemoMode
  {
  }

  /** Reporting before checking delivers at most one chunk more than checking before reporting (the
      abort arrives while the loop waits for the next chunk, which is still reported), and exactly as
      many when no abort comes before the end. */
  lemma {:induction false} AtMostOneAfterAbort(n: nat, abortAfter: Option<nat>)
    ensures Delivered(n, abortAfter) <= Handled(n, abortAfter) + 1
    ensures Handled(n, abortAfter) <= Delivered(n, abortAfter)
    ensures Broke(n, abortAfter) ==> Delivered(n, abortAfter) == abortAfter.value + 1
    ensures !Broke(n, abortAfter) ==> Delivered(n, abortAfter) == Handled(n, abortAfter) == n
  {
  }

  /** From `onStart` on: `onStart` once and first, one `onToken` per reported chunk in order, the
      resolved text is their concatenation; `onComplete` fires iff the stream ends and the signal is
      not aborted; a provider error is always rethrown and reported iff the signal is not aborted;
      the controller is forgotten. */
  lemma {:induction false} StreamReplyFacts(st: ServiceState, text: string, reply: Reply, abortAfter: Option<nat>)
    ensures var o := StreamReply(st, text, reply, abortAfter);
      var d := Delivered(|reply.chunks|, abortAfter);
      var quiet := AbortedBy(abortAfter, d);
      var fails := !Broke(|reply.chunks|, abortAfter) && reply.failure.Some?;
      o.events[0] == Start && CountStarts(o.events) == 1
      && TokenTexts(o.events) == reply.chunks[..d]
      && o.requests == [text]
      && (!fails ==> o.result == Resolved(Concat(reply.chunks[..d])))
      && (fails ==> o.result == Rejected(reply.failure.value))
      && CountCompletes(o.events) == (if !fails && !quiet then 1 else 0)
      && CountErrors(o.events) == (if fails && !quiet then 1 else 0)
      && o.state.controller.None? && o.state.sessions == st.sessions
  {
    var chunks := reply.chunks;
    var d := Delivered(|chunks|, abortAfter);
    var quiet := AbortedBy(abortAfter, d);
    var fails := !Broke(|chunks|, abortAfter) && reply.failure.Some?;
    var end: seq<Event> :=
      if quiet then []
      else if !fails then [Complete(Concat(chunks[..d]))]
      else [ErrorReported(reply.failure.value.message)];
    TraceFacts(chunks[..d], end);
  }

  /** Without an abort, every chunk is reported and a stream that ends completes with the whole
      text as its last callback. */
  lemma {:induction false} StreamWithoutAbort(st: ServiceState, text: string, reply: Reply)
    requires reply.failure.None?
    ensures var o := StreamReply(st, text, reply, None);
      o.result == Resolved(Concat(reply.chunks)) && o.events[|o.events| - 1] == Complete(Concat(reply.chunks))
      && TokenTexts(o.events) == reply.chunks
  {
    StreamReplyFacts(st, text, reply, None);
    assert reply.chunks[..|reply.chunks|] == reply.chunks;
  }

  /** A throw before `onStart` is reported, unless the signal is aborted, and rethrown. */
  lemma {:induction false} EarlyFailureFacts(st: ServiceState, e: ProviderError, abortAfter: Option<nat>)
    ensures var o := EarlyFailure(st, e, abortAfter);
      o.result == Rejected(e) && CountStarts(o.events) == 0 && CountCompletes(o.events) == 0
      && CountErrors(o.events) == (if AbortedBy(abortAfter, 0) then 0 else 1)
      && o.requests == [] && o.state.controller.None? && o.state.sessions == st.sessions
  {
    assert [ErrorReported(e.message)][1..] == [];
  }

  /** The live path: the text sent is the last user message of the unpruned history; an error never
      deletes the session — the registry is what resolving the session left; the call always ends
      with no controller, and the one it cancelled is aborted. */
  lemma {:induction false} LiveCallFacts(st0: ServiceState, chatId: string, messages: seq<ChatMessage>,
                                         systemPrompt: string, now: int, setup: ChatSetup, reply: Reply,
                                         abortAfter: Option<nat>)
    requires ValidState(st0)
    ensures var o := LiveCall(st0, chatId, messages, systemPrompt, now, setup, reply, abortAfter);
      var res := GetOrCreate(Armed(st0), chatId, systemPrompt, now, setup);
      o.state.controller.None?
      && o.state.sessions == res.state.sessions
      && (st0.controller.Some? ==> st0.controller.value in o.state.aborted)
      && (o.requests == [] || (LastUserMessage(messages).Some? && o.requests == [LastUserMessage(messages).value.parts]))
      && (LastUserMessage(messages).None? ==> o.result == Rejected(PlainError(NO_USER_MESSAGE)) || res.chat.Failure?)
      && CountCompletes(o.events) + CountErrors(o.events) <= 1
  {
    var st1 := Armed(st0);
    var res := GetOrCreate(st1, chatId, systemPrompt, now, setup);
    var lastUser := LastUserMessage(messages);
    ArmedFacts(st0);
    GetOrCreateFrame(st1, chatId, systemPrompt, now, setup);
    if res.chat.Failure? {
      EarlyFailureFacts(res.state, res.chat.error, abortAfter);
    } else if lastUser.None? {
      EarlyFailureFacts(res.state, PlainError(NO_USER_MESSAGE), abortAfter);
    } else {
      StreamReplyFacts(res.state, lastUser.value.parts, reply, abortAfter);
    }
  }

  /** The demo path: the last user message's text is streamed by the demo module with no abort ever
      reaching it, so it always completes with the whole template; without a user message the call
      reports and rethrows `No user message found`. No session is touched and the controller is
      gone when the call returns, never aborted. */
  lemma {:induction false} DemoCallFacts(st0: ServiceState, messages: seq<ChatMessage>)
    requires ValidState(st0)
    ensures var o := DemoCall(st0, messages);
      o.state.sessions == st0.sessions && o.state.controller.None?
      && st0.nextController !in o.state.aborted && o.requests == []
      && (LastUserMessage(messages).None? ==>
            o.result == Rejected(PlainError(NO_USER_MESSAGE)) && o.events == [ErrorReported(NO_USER_MESSAGE)])
      && (LastUserMessage(messages).Some? ==>
            var t := DemoMode.StreamTemplate(LastUserMessage(messages).value.parts);
            o.result == Resolved(t) && o.events[|o.events| - 1] == Complete(t) && CountCompletes(o.events) == 1)
  {
    var lastUser := LastUserMessage(messages);
    if lastUser.Some? {
      DemoMode.NaturalCompletion(DemoMode.StreamTemplate(lastUser.value.parts), None);
    }
  }
}
