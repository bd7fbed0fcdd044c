/** What the streaming chat service promises, proved of its specification functions. */
module GeminiServiceProperties {

  import opened Wrappers
  import opened ChatTypes
  import HistoryPruning
  import DemoMode
  import opened GeminiService

  /** The outer `catch`: `AbortError` resolves to "" with nothing reported and nothing deleted; any
      other error is reported once with its message, deletes the session and is rethrown. */
  lemma OuterHandling(events: seq<Event>, e: ProviderError, st: ServiceState, chatId: string, reqs: seq<string>)
    ensures var o := Outer(events, e, st, chatId, reqs);
      (e.name == "AbortError" ==> o == Outcome(events, Resolved(""), st, reqs))
      && (e.name != "AbortError" ==>
            o.events == events + [ErrorReported(e.message)] && o.result == Rejected(e)
            && o.state == st.(sessions := st.sessions - {chatId}) && chatId !in o.state.sessions)
  {
  }

  /** Same id and same persona: the stored chat is returned and only its `lastActive` changes. */
  lemma GetOrCreateReuses(st: ServiceState, chatId: string, personaId: string, now: int, seed: Option<ProviderError>)
    requires chatId in st.sessions && st.sessions[chatId].personaId == personaId
    ensures var r := GetOrCreate(st, chatId, personaId, now, seed);
      r.chat == Success(st.sessions[chatId].chat)
      && r.state == st.(sessions := st.sessions[chatId := st.sessions[chatId].(lastActive := now)])
  {
  }

  /** A missing id or a different persona: when seeding succeeds a new entry with a handle never
      stored before overwrites that id and nothing else; when it fails no entry changes. */
  lemma {:induction false} GetOrCreateReplaces(st: ServiceState, chatId: string, personaId: string, now: int,
                                               seed: Option<ProviderError>)
    requires ValidState(st)
    requires !(chatId in st.sessions && st.sessions[chatId].personaId == personaId)
    ensures var r := GetOrCreate(st, chatId, personaId, now, seed);
      (seed.None? ==>
         r.chat.Success?
         && r.state.sessions == st.sessions[chatId := Session(r.chat.value, personaId, now)]
         && (forall id :: id in st.sessions ==> st.sessions[id].chat != r.chat.value))
      && (seed.Some? ==> r.chat == Failure(seed.value) && r.state.sessions == st.sessions)
      && ValidState(r.state)
  {
    var r := GetOrCreate(st, chatId, personaId, now, seed);
    assert r == CreateSession(st, chatId, personaId, now, seed);
  }

  /** `cancelStream` twice is `cancelStream` once. */
  lemma CancelIdempotent(st: ServiceState)
    ensures Cancelled(Cancelled(st)) == Cancelled(st)
  {
  }

  /** The first stream ends without an exception reaching the inner `catch`. */
  predicate FirstStreamEnds(sc: LiveScript) {
    Handled(|sc.reply.chunks|, sc.abortAfter) < |sc.reply.chunks| || sc.reply.failure.None?
  }

  /** The chat resolves and the pruned history has a user message: the call gets to streaming. */
  predicate ReachesStream(st0: ServiceState, chatId: string, messages: seq<ChatMessage>, systemPrompt: string,
                          personaId: string, now: int, sc: LiveScript)
  {
    var c := st0.nextController;
    var st1 := Cancelled(st0).(controller := Some(c), nextController := c + 1);
    GetOrCreate(st1, chatId, personaId, now, sc.seed).chat.Success?
    && LastUserMessage(HistoryPruning.Pruned(messages, systemPrompt)).Some?
  }

  /** The state after the chat was resolved, on the way to streaming. */
  function Resolved1(st0: ServiceState, chatId: string, personaId: string, now: int, sc: LiveScript): ServiceState {
    var c := st0.nextController;
    GetOrCreate(Cancelled(st0).(controller := Some(c), nextController := c + 1), chatId, personaId, now, sc.seed).state
  }

  /** `onStart` fires first and once, before anything else, and at most one of `onComplete` and
      `onError` fires. */
  lemma {:induction false} LiveTraceShape(st0: ServiceState, chatId: string, messages: seq<ChatMessage>,
                                          systemPrompt: string, personaId: string, now: int, sc: LiveScript)
    ensures var o := LiveCall(st0, chatId, messages, systemPrompt, personaId, now, sc);
      |o.events| >= 1 && o.events[0] == Start && CountStarts(o.events) == 1
      && CountCompletes(o.events) + CountErrors(o.events) <= 1
  {
    var toks, end := LiveTrace(st0, chatId, messages, systemPrompt, personaId, now, sc);
    TraceFacts(toks, end);
  }

  lemma {:induction false} OuterTrace(toks: seq<string>, e: ProviderError, st: ServiceState, chatId: string,
                                      reqs: seq<string>)
    returns (end: seq<Event>)
    ensures ClosingEnd(end)
    ensures Outer([Start] + Tokens(toks), e, st, chatId, reqs).events == [Start] + Tokens(toks) + end
  {
    end := if e.name == "AbortError" then [] else [ErrorReported(e.message)];
  }

  lemma {:induction false} RetryTrace(st: ServiceState, chatId: string, personaId: string, now: int, text: string,
                                      firstToks: seq<string>, sc: LiveScript)
    returns (toks: seq<string>, end: seq<Event>)
    ensures ClosingEnd(end)
    ensures Retry(st, chatId, personaId, now, text, [Start] + Tokens(firstToks), sc).events
            == [Start] + Tokens(toks) + end
    ensures sc.retrySeed.None? ==>
      toks == firstToks + sc.retryReply.chunks[..Handled(|sc.retryReply.chunks|, AbortLeft(sc.abortAfter, |sc.reply.chunks|))]
  {
    var events := [Start] + Tokens(firstToks);
    var res := CreateSession(st.(sessions := st.sessions - {chatId}), chatId, personaId, now, sc.retrySeed);
    if res.chat.Failure? {
      toks := firstToks;
      end := OuterTrace(firstToks, res.chat.error, res.state, chatId, [text]);
      return;
    }
    var left := AbortLeft(sc.abortAfter, |sc.reply.chunks|);
    var chunks := sc.retryReply.chunks;
    var k := Handled(|chunks|, left);
    toks := firstToks + chunks[..k];
    TokensAppend(firstToks, chunks[..k]);
    assert events + Tokens(chunks[..k]) == [Start] + Tokens(toks);
    if k < |chunks| || sc.retryReply.failure.None? {
      end := if AbortedBy(left, |chunks|) then [] else [Complete(Concat(chunks[..k]))];
    } else {
      end := OuterTrace(toks, sc.retryReply.failure.value, ApplyAbort(res.state, left, k), chatId, [text, text]);
    }
  }

  lemma {:induction false} FirstStreamTrace(st: ServiceState, chatId: string, personaId: string, now: int,
                                            text: string, sc: LiveScript)
    returns (toks: seq<string>, end: seq<Event>)
    ensures ClosingEnd(end)
    ensures FirstStream(st, chatId, personaId, now, text, sc).events == [Start] + Tokens(toks) + end
  {
    var chunks := sc.reply.chunks;
    var k := Handled(|chunks|, sc.abortAfter);
    var st2 := ApplyAbort(st, sc.abortAfter, k);
    if FirstStreamEnds(sc) {
      toks := chunks[..k];
      end := if AbortedBy(sc.abortAfter, |chunks|) then [] else [Complete(Concat(chunks[..k]))];
    } else if IsContextLimit(sc.reply.failure.value.message) {
      toks, end := RetryTrace(st2, chatId, personaId, now, text, chunks[..k], sc);
    } else {
      toks := chunks[..k];
      end := OuterTrace(toks, sc.reply.failure.value, st2, chatId, [text]);
    }
  }

  /** Every live trace is `onStart`, the tokens, and at most one closing callback. */
  lemma {:induction false} LiveTrace(st0: ServiceState, chatId: string, messages: seq<ChatMessage>,
                                     systemPrompt: string, personaId: string, now: int, sc: LiveScript)
    returns (toks: seq<string>, end: seq<Event>)
    ensures ClosingEnd(end)
    ensures LiveCall(st0, chatId, messages, systemPrompt, personaId, now, sc).events
            == [Start] + Tokens(toks) + end
  {
    var c := st0.nextController;
    var st1 := Cancelled(st0).(controller := Some(c), nextController := c + 1);
    var res := GetOrCreate(st1, chatId, personaId, now, sc.seed);
    var lastUser := LastUserMessage(HistoryPruning.Pruned(messages, systemPrompt));
    toks := [];
    assert [Start] + Tokens([]) == [Start];
    if res.chat.Failure? {
      end := OuterTrace([], res.chat.error, ApplyAbort(res.state, sc.abortAfter, 0), chatId, []);
    } else if lastUser.None? {
      end := OuterTrace([], PlainError(NO_USER_MESSAGE), ApplyAbort(res.state, sc.abortAfter, 0), chatId, []);
    } else {
      toks, end := FirstStreamTrace(res.state, chatId, personaId, now, lastUser.value.parts, sc);
    }
  }

  /** The last user message of the pruned history, which is what gets sent. */
  function SentMessage(messages: seq<ChatMessage>, systemPrompt: string): Option<ChatMessage> {
    LastUserMessage(HistoryPruning.Pruned(messages, systemPrompt))
  }

  /** A stream that ends without an exception: `onToken` fired for exactly the chunks handled before
      the abort point, in arrival order; the call resolves to their concatenation; `onComplete` fires,
      last and with that text, exactly when the signal was not aborted; the only text sent is the
      last user message of the pruned history; the controller is cleared. */
  lemma {:induction false} StreamSettles(st0: ServiceState, chatId: string, messages: seq<ChatMessage>,
                                         systemPrompt: string, personaId: string, now: int, sc: LiveScript)
    requires ReachesStream(st0, chatId, messages, systemPrompt, personaId, now, sc) && FirstStreamEnds(sc)
    ensures var o := LiveCall(st0, chatId, messages, systemPrompt, personaId, now, sc);
      var chunks := sc.reply.chunks;
      var u := SentMessage(messages, systemPrompt).value;
      TokenTexts(o.events) == chunks[..Handled(|chunks|, sc.abortAfter)]
      && o.result == Resolved(Concat(TokenTexts(o.events)))
      && (CountCompletes(o.events) == 1 <==> !AbortedBy(sc.abortAfter, |chunks|))
      && (CountCompletes(o.events) == 1 ==> o.events[|o.events| - 1] == Complete(o.result.text))
      && CountErrors(o.events) == 0
      && o.requests == [u.parts] && u.role == User
      && o.state.controller.None?
  {
    var o := LiveCall(st0, chatId, messages, systemPrompt, personaId, now, sc);
    var chunks := sc.reply.chunks;
    var k := Handled(|chunks|, sc.abortAfter);
    var end: seq<Event> := if AbortedBy(sc.abortAfter, |chunks|) then [] else [Complete(Concat(chunks[..k]))];
    assert o.events == [Start] + Tokens(chunks[..k]) + end;
    TraceFacts(chunks[..k], end);
    LastUserMessageSpec(HistoryPruning.Pruned(messages, systemPrompt));
  }

  /** The retry stream ends without an exception. */
  predicate RetryEnds(sc: LiveScript) {
    var left := AbortLeft(sc.abortAfter, |sc.reply.chunks|);
    Handled(|sc.retryReply.chunks|, left) < |sc.retryReply.chunks| || sc.retryReply.failure.None?
  }

  /** The retry on its own: the last user message is sent a second time; a retry that ends normally
      leaves the session under a fresh handle and resolves to the retry text; a retry that fails
      leaves the session deleted unless the error is an `AbortError`. */
  lemma {:induction false} RetryFacts(st: ServiceState, chatId: string, personaId: string, now: int, text: string,
                                      events: seq<Event>, sc: LiveScript)
    requires sc.retrySeed.None?
    ensures var o := Retry(st, chatId, personaId, now, text, events, sc);
      var left := AbortLeft(sc.abortAfter, |sc.reply.chunks|);
      var retryChunks := sc.retryReply.chunks;
      var k2 := Handled(|retryChunks|, left);
      o.requests == [text, text]
      && (RetryEnds(sc) ==>
            o.state.sessions == st.sessions[chatId := Session(st.nextHandle, personaId, now)]
            && o.result == Resolved(Concat(retryChunks[..k2])))
      && (!RetryEnds(sc) && sc.retryReply.failure.value.name != "AbortError" ==>
            chatId !in o.state.sessions && o.result == Rejected(sc.retryReply.failure.value))
  {
    var res := CreateSession(st.(sessions := st.sessions - {chatId}), chatId, personaId, now, sc.retrySeed);
    var left := AbortLeft(sc.abortAfter, |sc.reply.chunks|);
    var k2 := Handled(|sc.retryReply.chunks|, left);
    var o := Retry(st, chatId, personaId, now, text, events, sc);
    if RetryEnds(sc) {
      assert res.state.sessions == st.sessions[chatId := Session(st.nextHandle, personaId, now)];
    } else {
      OuterHandling(events + Tokens(sc.retryReply.chunks[..k2]), sc.retryReply.failure.value,
                    ApplyAbort(res.state, left, k2), chatId, [text, text]);
    }
  }

  /** A context-length error from the first stream hands the call to the retry, with every chunk of
      the first stream already reported. */
  lemma {:induction false} LiveCallRetries(st0: ServiceState, chatId: string, messages: seq<ChatMessage>,
                                           systemPrompt: string, personaId: string, now: int, sc: LiveScript)
    requires ReachesStream(st0, chatId, messages, systemPrompt, personaId, now, sc) && !FirstStreamEnds(sc)
    requires IsContextLimit(sc.reply.failure.value.message)
    ensures Handled(|sc.reply.chunks|, sc.abortAfter) == |sc.reply.chunks|
    ensures LiveCall(st0, chatId, messages, systemPrompt, personaId, now, sc)
            == Retry(ApplyAbort(Resolved1(st0, chatId, personaId, now, sc), sc.abortAfter, |sc.reply.chunks|),
                     chatId, personaId, now, SentMessage(messages, systemPrompt).value.parts,
                     [Start] + Tokens(sc.reply.chunks), sc)
  {
    assert sc.reply.chunks[..|sc.reply.chunks|] == sc.reply.chunks;
  }

  /** A context-length error from the first stream: the session is deleted and created again with a
      handle different from the one that failed, only the last user message is sent again, and a
      retry that ends normally resolves to the retry text alone. */
  lemma {:induction false} ContextLimitRetries(st0: ServiceState, chatId: string, messages: seq<ChatMessage>,
                                               systemPrompt: string, personaId: string, now: int, sc: LiveScript)
    requires ValidState(st0)
    requires ReachesStream(st0, chatId, messages, systemPrompt, personaId, now, sc) && !FirstStreamEnds(sc)
    requires IsContextLimit(sc.reply.failure.value.message) && sc.retrySeed.None?
    ensures var o := LiveCall(st0, chatId, messages, systemPrompt, personaId, now, sc);
      var first := GetOrCreate(Cancelled(st0).(controller := Some(st0.nextController),
                                               nextController := st0.nextController + 1),
                               chatId, personaId, now, sc.seed).chat.value;
      var u := SentMessage(messages, systemPrompt).value;
      var left := AbortLeft(sc.abortAfter, |sc.reply.chunks|);
      var retryChunks := sc.retryReply.chunks;
      var k2 := Handled(|retryChunks|, left);
      o.requests == [u.parts, u.parts]
      && (RetryEnds(sc) ==>
            chatId in o.state.sessions && o.state.sessions[chatId].chat != first
            && o.state.sessions[chatId].personaId == personaId
            && o.result == Resolved(Concat(retryChunks[..k2])))
  {
    var c := st0.nextController;
    var st1 := Cancelled(st0).(controller := Some(c), nextController := c + 1);
    var res := GetOrCreate(st1, chatId, personaId, now, sc.seed);
    assert ValidState(st1);
    assert res.chat.value < res.state.nextHandle by {
      if !(chatId in st1.sessions && st1.sessions[chatId].personaId == personaId) {
        assert res == CreateSession(st1, chatId, personaId, now, sc.seed);
      }
    }
    var u := SentMessage(messages, systemPrompt).value;
    var n := |sc.reply.chunks|;
    var st2 := ApplyAbort(res.state, sc.abortAfter, n);
    var events := [Start] + Tokens(sc.reply.chunks);
    LiveCallRetries(st0, chatId, messages, systemPrompt, personaId, now, sc);
    RetryFacts(st2, chatId, personaId, now, u.parts, events, sc);
    assert st2.nextHandle == res.state.nextHandle;
  }

  /** After a context-length retry the tokens of both streams have reached `onToken`, in order. */
  lemma {:induction false} ContextLimitRetryTokens(st0: ServiceState, chatId: string, messages: seq<ChatMessage>,
                                                   systemPrompt: string, personaId: string, now: int, sc: LiveScript)
    requires ReachesStream(st0, chatId, messages, systemPrompt, personaId, now, sc) && !FirstStreamEnds(sc)
    requires IsContextLimit(sc.reply.failure.value.message) && sc.retrySeed.None?
    ensures var o := LiveCall(st0, chatId, messages, systemPrompt, personaId, now, sc);
      var left := AbortLeft(sc.abortAfter, |sc.reply.chunks|);
      var retryChunks := sc.retryReply.chunks;
      TokenTexts(o.events) == sc.reply.chunks + retryChunks[..Handled(|retryChunks|, left)]
  {
    var c := st0.nextController;
    var res := GetOrCreate(Cancelled(st0).(controller := Some(c), nextController := c + 1), chatId, personaId, now, sc.seed);
    var u := SentMessage(messages, systemPrompt).value;
    var n := |sc.reply.chunks|;
    var st2 := ApplyAbort(res.state, sc.abortAfter, n);
    LiveCallRetries(st0, chatId, messages, systemPrompt, personaId, now, sc);
    var toks, end := RetryTrace(st2, chatId, personaId, now, u.parts, sc.reply.chunks, sc);
    TraceFacts(toks, end);
  }

  /** Any other error from the stream reaches the outer handler: `onError` fires once with its
      message, as the last callback, the session is deleted and the error is rethrown. */
  lemma {:induction false} OtherErrorReported(st0: ServiceState, chatId: string, messages: seq<ChatMessage>,
                                              systemPrompt: string, personaId: string, now: int, sc: LiveScript)
    requires ReachesStream(st0, chatId, messages, systemPrompt, personaId, now, sc) && !FirstStreamEnds(sc)
    requires !IsContextLimit(sc.reply.failure.value.message) && sc.reply.failure.value.name != "AbortError"
    ensures var o := LiveCall(st0, chatId, messages, systemPrompt, personaId, now, sc);
      var e := sc.reply.failure.value;
      o.result == Rejected(e) && o.events[|o.events| - 1] == ErrorReported(e.message)
      && CountErrors(o.events) == 1 && CountCompletes(o.events) == 0
      && chatId !in o.state.sessions
  {
    var o := LiveCall(st0, chatId, messages, systemPrompt, personaId, now, sc);
    var n := |sc.reply.chunks|;
    var e := sc.reply.failure.value;
    assert o.events == [Start] + Tokens(sc.reply.chunks[..n]) + [ErrorReported(e.message)];
    TraceFacts(sc.reply.chunks[..n], [ErrorReported(e.message)]);
  }

  /** An error named `AbortError` from the stream resolves the call to "": no `onError`, no
      `onComplete`, and the session is kept. */
  lemma {:induction false} AbortErrorSwallowed(st0: ServiceState, chatId: string, messages: seq<ChatMessage>,
                                               systemPrompt: string, personaId: string, now: int, sc: LiveScript)
    requires ReachesStream(st0, chatId, messages, systemPrompt, personaId, now, sc) && !FirstStreamEnds(sc)
    requires !IsContextLimit(sc.reply.failure.value.message) && sc.reply.failure.value.name == "AbortError"
    ensures var o := LiveCall(st0, chatId, messages, systemPrompt, personaId, now, sc);
      o.result == Resolved("") && CountErrors(o.events) == 0 && CountCompletes(o.events) == 0
      && chatId in o.state.sessions
  {
    var o := LiveCall(st0, chatId, messages, systemPrompt, personaId, now, sc);
    var n := |sc.reply.chunks|;
    assert o.events == [Start] + Tokens(sc.reply.chunks[..n]) + [];
    TraceFacts(sc.reply.chunks[..n], []);
  }

  /** A pruned history without a user message fails with "No user message found in history":
      `onStart` then `onError`, the session deleted, nothing sent. */
  lemma {:induction false} NoUserMessageFails(st0: ServiceState, chatId: string, messages: seq<ChatMessage>,
                                              systemPrompt: string, personaId: string, now: int, sc: LiveScript)
    requires GetOrCreate(Cancelled(st0).(controller := Some(st0.nextController), nextController := st0.nextController + 1),
                         chatId, personaId, now, sc.seed).chat.Success?
    requires forall i :: 0 <= i < |HistoryPruning.Pruned(messages, systemPrompt)| ==>
               HistoryPruning.Pruned(messages, systemPrompt)[i].role != User
    ensures var o := LiveCall(st0, chatId, messages, systemPrompt, personaId, now, sc);
      o.result == Rejected(PlainError(NO_USER_MESSAGE))
      && o.events == [Start, ErrorReported(NO_USER_MESSAGE)]
      && chatId !in o.state.sessions && o.requests == []
  {
    LastUserMessageSpec(HistoryPruning.Pruned(messages, systemPrompt));
  }

  /** During a call whose own controller is `c`: the counters only moved forward, the only controller
      that may have been aborted since `cancelStream` is `c`, and no other controller is current. */
  predicate Tracks(st0: ServiceState, st: ServiceState) {
    var c := st0.nextController;
    ValidState(st) && st.nextController == c + 1 && st.nextHandle >= st0.nextHandle
    && Cancelled(st0).aborted <= st.aborted <= Cancelled(st0).aborted + {c}
    && (st.controller.None? || st.controller == Some(c))
  }

  lemma {:induction false} TracksStep(st0: ServiceState, st: ServiceState, chatId: string, personaId: string,
                                      now: int, seed: Option<ProviderError>, abortAt: Option<nat>, handled: nat)
    requires Tracks(st0, st)
    ensures Tracks(st0, ApplyAbort(st, abortAt, handled))
    ensures Tracks(st0, CreateSession(st, chatId, personaId, now, seed).state)
    ensures Tracks(st0, GetOrCreate(st, chatId, personaId, now, seed).state)
    ensures Tracks(st0, Refreshed(st, chatId, now).(controller := None))
    ensures Tracks(st0, st.(sessions := st.sessions - {chatId}))
  {
  }

  lemma {:induction false} RetryControllerFacts(st0: ServiceState, st: ServiceState, chatId: string, personaId: string,
                                                now: int, text: string, events: seq<Event>, sc: LiveScript)
    requires Tracks(st0, st)
    ensures var o := Retry(st, chatId, personaId, now, text, events, sc);
      Tracks(st0, o.state)
      && (CountCompletes(o.events) > CountCompletes(events) ==>
            !AbortedBy(AbortLeft(sc.abortAfter, |sc.reply.chunks|), |sc.retryReply.chunks|)
            && (st0.nextController !in st.aborted ==> st0.nextController !in o.state.aborted))
  {
    var o := Retry(st, chatId, personaId, now, text, events, sc);
    var st1 := st.(sessions := st.sessions - {chatId});
    TracksStep(st0, st, chatId, personaId, now, sc.retrySeed, None, 0);
    var res := CreateSession(st1, chatId, personaId, now, sc.retrySeed);
    TracksStep(st0, st1, chatId, personaId, now, sc.retrySeed, None, 0);
    if res.chat.Success? {
      var left := AbortLeft(sc.abortAfter, |sc.reply.chunks|);
      var chunks := sc.retryReply.chunks;
      var k := Handled(|chunks|, left);
      TracksStep(st0, res.state, chatId, personaId, now, None, left, k);
      var st2 := ApplyAbort(res.state, left, k);
      var events2 := events + Tokens(chunks[..k]);
      CountsOfTokens(chunks[..k]);
      CountsAppend(events, Tokens(chunks[..k]));
      if k < |chunks| || sc.retryReply.failure.None? {
        var end: seq<Event> := if AbortedBy(left, |chunks|) then [] else [Complete(Concat(chunks[..k]))];
        CountsAppend(events2, end);
        ClosingEndFacts(end);
      } else {
        var e := sc.retryReply.failure.value;
        TracksStep(st0, st2, chatId, personaId, now, None, None, 0);
        var end: seq<Event> := if e.name == "AbortError" then [] else [ErrorReported(e.message)];
        assert o.events == events2 + end;
        CountsAppend(events2, end);
        ClosingEndFacts(end);
      }
    } else {
      var e := res.chat.error;
      TracksStep(st0, res.state, chatId, personaId, now, None, None, 0);
      var end: seq<Event> := if e.name == "AbortError" then [] else [ErrorReported(e.message)];
      assert o.events == events + end;
      CountsAppend(events, end);
      ClosingEndFacts(end);
    }
  }

  lemma {:induction false} FirstStreamControllerFacts(st0: ServiceState, st: ServiceState, chatId: string,
                                                      personaId: string, now: int, text: string, sc: LiveScript)
    requires Tracks(st0, st) && st0.nextController !in st.aborted
    ensures var o := FirstStream(st, chatId, personaId, now, text, sc);
      Tracks(st0, o.state) && (CountCompletes(o.events) >= 1 ==> st0.nextController !in o.state.aborted)
  {
    var o := FirstStream(st, chatId, personaId, now, text, sc);
    var chunks := sc.reply.chunks;
    var k := Handled(|chunks|, sc.abortAfter);
    var events := [Start] + Tokens(chunks[..k]);
    var st2 := ApplyAbort(st, sc.abortAfter, k);
    TracksStep(st0, st, chatId, personaId, now, None, sc.abortAfter, k);
    TraceHeadFacts(chunks[..k]);
    if FirstStreamEnds(sc) {
      TracksStep(st0, st2, chatId, personaId, now, None, None, 0);
      var end: seq<Event> := if AbortedBy(sc.abortAfter, |chunks|) then [] else [Complete(Concat(chunks[..k]))];
      TraceFacts(chunks[..k], end);
    } else if IsContextLimit(sc.reply.failure.value.message) {
      RetryControllerFacts(st0, st2, chatId, personaId, now, text, events, sc);
      if CountCompletes(o.events) >= 1 {
        assert !AbortedBy(sc.abortAfter, k);
      }
    } else {
      var e := sc.reply.failure.value;
      TracksStep(st0, st2, chatId, personaId, now, None, None, 0);
      var end: seq<Event> := if e.name == "AbortError" then [] else [ErrorReported(e.message)];
      TraceFacts(chunks[..k], end);
    }
  }

  /** Over a whole live call: the service stays valid; the controller left behind is the call's own
      or none; `onComplete` fires only if the call's signal was never aborted; and the controller
      that was current when the call began has been aborted and is no longer current, so at most
      one stream is in flight. */
  lemma {:induction false} LiveControllerFacts(st0: ServiceState, chatId: string, messages: seq<ChatMessage>,
                                               systemPrompt: string, personaId: string, now: int, sc: LiveScript)
    requires ValidState(st0)
    ensures var o := LiveCall(st0, chatId, messages, systemPrompt, personaId, now, sc);
      var c := st0.nextController;
      ValidState(o.state)
      && (o.state.controller.None? || o.state.controller == Some(c))
      && (CountCompletes(o.events) >= 1 ==> c !in o.state.aborted)
      && (st0.controller.Some? ==> st0.controller.value in o.state.aborted && o.state.controller != st0.controller)
  {
    var c := st0.nextController;
    var st1 := Cancelled(st0).(controller := Some(c), nextController := c + 1);
    assert Tracks(st0, st1);
    var res := GetOrCreate(st1, chatId, personaId, now, sc.seed);
    TracksStep(st0, st1, chatId, personaId, now, sc.seed, None, 0);
    assert c !in res.state.aborted;
    var lastUser := LastUserMessage(HistoryPruning.Pruned(messages, systemPrompt));
    if res.chat.Failure? {
      EarlyFailureControllerFacts(st0, res.state, res.chat.error, chatId, sc.abortAfter);
    } else if lastUser.None? {
      EarlyFailureControllerFacts(st0, res.state, PlainError(NO_USER_MESSAGE), chatId, sc.abortAfter);
    } else {
      FirstStreamControllerFacts(st0, res.state, chatId, personaId, now, lastUser.value.parts, sc);
    }
  }

  /** A failure before any chunk: only `onStart` and possibly `onError` fire. */
  lemma {:induction false} EarlyFailureControllerFacts(st0: ServiceState, st: ServiceState, e: ProviderError,
                                                       chatId: string, abortAt: Option<nat>)
    requires Tracks(st0, st)
    ensures var o := Outer([Start], e, ApplyAbort(st, abortAt, 0), chatId, []);
      Tracks(st0, o.state) && CountCompletes(o.events) == 0
  {
    TracksStep(st0, st, chatId, "", 0, None, abortAt, 0);
    TracksStep(st0, ApplyAbort(st, abortAt, 0), chatId, "", 0, None, None, 0);
    var end: seq<Event> := if e.name == "AbortError" then [] else [ErrorReported(e.message)];
    TraceFacts([], end);
    assert [Start] + Tokens([]) == [Start];
  }

  /** The demo path streams the short template for the last message's text, resolves to a prefix of
      it, completes exactly when not aborted, leaves no controller behind and aborts the controller
      that was current when it began. */
  lemma {:induction false} DemoCallFacts(st0: ServiceState, messages: seq<ChatMessage>, abortAt: Option<nat>)
    requires ValidState(st0)
    ensures var o := DemoCall(st0, messages, abortAt);
      var t := DemoMode.DemoReply(LastParts(messages));
      o.events == DemoMode.CharStream(t, abortAt).events
      && o.result.Resolved? && o.result.text <= t
      && (CountCompletes(o.events) == 1 <==> !AbortedBy(abortAt, |t|))
      && o.state.controller.None? && o.requests == [] && ValidState(o.state)
      && (st0.controller.Some? ==> st0.controller.value in o.state.aborted)
  {
    var t := DemoMode.DemoReply(LastParts(messages));
    DemoMode.TokensAreSuccessiveChars(t, abortAt);
    if AbortedBy(abortAt, |t|) {
      DemoMode.AbortSuppressesCompletion(t, abortAt.value);
    } else {
      DemoMode.NaturalCompletion(t, abortAt);
    }
  }
}
