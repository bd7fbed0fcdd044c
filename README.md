# Study-assistant chat app: a Dafny model of its core

This project models the logic at the core of a React/TypeScript study-assistant app and proves
properties of that model. The app chats with a Gemini model through a streaming service. It also
keeps chat, reminder and Pomodoro state in React contexts. Its pages filter and sort exam papers,
a prompt library, a bilingual dictionary and reminders.

The model covers:

- **The older streaming service** (`src/services/geminiService.ts`).
  - It keeps a session registry keyed by chat id. A session is replaced when the persona changes.
  - An idle sweep removes sessions after one hour.
  - Before each message history is sent, it is pruned against a token budget.
  - Streams are single-flight, with cancellation.
  - A stream that fails with a context-length error is retried once with only the last user message.
  - An `AbortError` is swallowed.
  - Demo mode streams a short template.
- **The simplified streaming service** (`src/services/gemini/geminiService.ts`).
  - The constructor's demo flag, and client initialisation.
  - A thirty-minute idle sweep.
  - `getOrCreateChatSession`, with no persona check and a one-shot fallback to a shortened prompt.
  - A chunk loop that reports each chunk before it checks the abort signal.
  - `onError` is skipped once the signal is aborted.
  - `updateConfig`.
- **The demo responder** (`src/services/gemini/demoMode.ts`) and **the history pruner**
  (`src/services/gemini/utils.ts`; the older service holds a textually identical copy).
- **The contexts**:
  - chat sessions and their messages (`ChatContext.tsx`);
  - reminders (`RemindersContext.tsx`);
  - the Pomodoro timer and its streak (`PomodoroContext.tsx`).
- **The pages' list logic**: exam papers, the prompt library, the dictionary, reminders, the home
  page, the chat sidebar and the Pomodoro clock.
- **The three chat front-ends**: `StableChat.tsx`, `ChatInterface.tsx` and the `AIChat.tsx` page. For
  each: what sending does, what each stream callback does to the component's state, and retry.

How the model represents each kind of code:

- **The provider is a script.** The remote model is a script of chunk sequences, an optional error,
  and an optional abort point. The abort point is the number of chunks that have gone by when an
  outside `cancelStream` happens.
- **Each service call's callbacks are its result.** A service call returns the callbacks it fires,
  as a trace of `onStart`/`onToken`/`onComplete`/`onError` events. It also returns how its promise
  settles and the texts it sent to the provider.
- **Time is a parameter.** The clock is an integer `now`. Calendar dates are compared as text.
- **Code that mutates state is a class.** The services, the chat store, the Pomodoro timer
  and the components' own fields are classes. Each method states its new state as a function of its
  old state. The lemmas about those functions carry the properties.
- **Pure code is functions.** Filters, sorts and reducers are functions over sequences.
- **`Array.prototype.sort` is a stable sort.** Each page's comparator is modelled as written. A
  lemma shows that it orders pairs exactly as a rank does. The sort is then the stable sort by that
  rank.

Where the code and the description of the app disagree, the model follows the code:

- **Pruning.**
  - The elision marker is prepended only when the backward walk stops at an index above 0. Dropping
    just the oldest message therefore adds no marker.
  - When the newest message alone is over budget, nothing original survives. The result is the
    marker alone, or empty for a one-message history. The newest message is not kept.
- **The older service.**
  - Its demo stream answers the text of the last message, whatever its role.
  - After a context-length retry, the call resolves to the retry's text alone. The first stream's
    tokens have already reached `onToken`.
- **The simplified service.**
  - Its demo stream is returned without being awaited inside `try`/`finally`. The controller is
    therefore forgotten at once, and no `cancelStream` can abort that stream.
  - It never deletes a session on error.
- **`handleRetry` in `StableChat` and `ChatInterface`.** It resends nothing once the send being
  retried has cleared the input: the send handler's closure still holds the old list and an empty
  input. The model states that outright.
- **`isKhmerText` (`src/pages/AIChat.tsx:168-171`).** It uses the same pattern as `containsKhmerText`.
  It is covered by `StableChat.ContainsKhmerSpec`.

## Model

| member | source | states |
|---|---|---|
| HistoryPruning.EstimateTokenCount | src/services/gemini/utils.ts:13-16 | the estimate is the ceiling of a quarter of the length (four times it covers the length, four times one less does not), and it is 0 exactly for the empty text |
| HistoryPruning.PruneMessageHistory | src/services/gemini/utils.ts:24-57 | the reverse loop with its running total and `unshift` computes the specified pruned history |
| HistoryPruning.KeptCountSpec | src/services/gemini/utils.ts:33-53 | the kept messages fit the budget, and no longer run of newest messages does |
| HistoryPruning.KeptCountUnique | src/services/gemini/utils.ts:33-53 | any count that fits while one more would not is the count the walk stops at |
| HistoryPruning.PrunedShape | src/services/gemini/utils.ts:42-53 | the output is a contiguous run of the newest inputs in their order, possibly headed by the marker; the marker stands only at index 0 and the output is at most one longer than the input |
| HistoryPruning.PrunedWithinBudget | src/services/gemini/utils.ts:26-51 | the kept originals' summed estimate never exceeds `30000 - est(systemPrompt) - 1000` |
| HistoryPruning.MarkerIffTwoDropped | src/services/gemini/utils.ts:38-47 | the marker is prepended exactly when the walk stopped at an index above 0, i.e. when two or more messages were dropped |
| HistoryPruning.WholeHistoryFits | src/services/gemini/utils.ts:33-53 | a history that fits whole comes back unchanged, without a marker |
| HistoryPruning.NewestOverBudget | src/services/gemini/utils.ts:33-47 | with the newest message alone over budget the result is `[marker]` for two or more messages and `[]` for one |
| HistoryPruning.OnlyOldestDropped | src/services/gemini/utils.ts:38-47 | when only the oldest message does not fit it is dropped silently, with no marker |
| SessionExpiry.Swept | src/services/geminiService.ts:81-91 | the sweep keeps exactly the entries idle for at most the window, unchanged |
| SessionExpiry.BoundaryKept | src/services/geminiService.ts:81-91 | an entry idle for exactly the window survives, one idle a millisecond longer is removed |
| SessionExpiry.SweepIdempotent | src/services/geminiService.ts:81-91 | a second sweep at the same time removes nothing more |
| SessionExpiry.SweepMonotone | src/services/geminiService.ts:81-91 | a later sweep keeps a subset of what an earlier one keeps |
| DemoMode.DemoReply | src/services/geminiService.ts:390-396 | the short template quotes the prompt: the prompt occurs in it, between a fixed head and tail |
| DemoMode.StreamTemplate | src/services/gemini/demoMode.ts:40-46 | the streamed template starts with the short reply and contains the prompt |
| DemoMode.GenerateDemoResponse | src/services/gemini/demoMode.ts:12-18 | the demo reply contains the prompt it answers |
| DemoMode.Chars | src/services/gemini/demoMode.ts:63-77 | the template split into one-character strings, one per index, in order |
| DemoMode.StreamChars | src/services/gemini/demoMode.ts:53-85 | the character loop, checking the signal before each character, produces the specified character stream |
| DemoMode.StreamDemoResponse | src/services/gemini/demoMode.ts:27-91 | `streamDemoResponse` produces the character stream of the template for its prompt |
| DemoMode.StartOnceFirst | src/services/gemini/demoMode.ts:33-37 | `onStart` is called exactly once, as the first callback |
| DemoMode.TokensAreSuccessiveChars | src/services/gemini/demoMode.ts:63-77 | each `onToken` gets one character, at successive indices of the template, and the result is a prefix of the template |
| DemoMode.TokensGlueToResolved | src/services/gemini/demoMode.ts:63-77 | the tokens put together are the resolved text |
| DemoMode.ConcatOfChars | src/services/gemini/demoMode.ts:63-77 | gluing a text's one-character strings together gives the text back |
| DemoMode.NaturalCompletion | src/services/gemini/demoMode.ts:78-85 | without an abort, `onComplete` fires once, last, with the whole template, and the promise resolves to it |
| DemoMode.AbortSuppressesCompletion | src/services/gemini/demoMode.ts:55-60 | an abort seen at any check, before the first character or after the last, suppresses `onComplete`; the promise resolves to the prefix streamed so far |
| ChatTypes.LastUserMessageSpec | src/services/geminiService.ts:287-290 | the backward search finds a user message iff there is one, and it finds the last one |
| GeminiService.Cancelled | src/services/geminiService.ts:184-190 | `cancelStream` aborts the controller present, forgets it, and changes nothing else |
| GeminiService.CreateSession | src/services/geminiService.ts:116-138 | a fresh handle is stored under the id with persona and stamp only when seeding succeeds; a failure stores nothing |
| GeminiService.RelayChunks | src/services/geminiService.ts:297-311 | the chunk loop reports, in order, exactly the chunks before the abort point and returns their concatenation |
| GeminiService.GeminiService.constructor | src/services/geminiService.ts:64-78 | demo mode is on iff the key is empty or `demo_mode`; the registry starts empty with no controller |
| GeminiService.GeminiService.CleanupExpiredSessions | src/services/geminiService.ts:81-91 | the deletion loop leaves the registry swept with the one-hour window, and nothing else changes |
| GeminiService.GeminiService.CreateNewChatSession | src/services/geminiService.ts:116-138 | the method does what the session-creation specification says |
| GeminiService.GeminiService.GetOrCreateChatSession | src/services/geminiService.ts:94-113 | the method does what the get-or-create specification says |
| GeminiService.GeminiService.CancelStream | src/services/geminiService.ts:184-190 | the new state is the cancelled state |
| GeminiService.GeminiService.ExternalAbort | src/services/geminiService.ts:184-190 | an outside `cancelStream` happens exactly when the script's abort point has been reached |
| GeminiService.GeminiService.GenerateContent | src/services/geminiService.ts:193-213 | in demo mode the demo reply to the prompt; the live request is not modelled |
| GeminiService.GeminiService.ChatWithHistory | src/services/geminiService.ts:216-248 | in demo mode the demo reply to the last message's text; the live request is not modelled |
| GeminiService.GeminiService.StreamDemoResponse | src/services/geminiService.ts:399-457 | the short template streamed one character at a time under a fresh controller, which is cleared on completion or by the abort |
| GeminiService.GeminiService.ReportOuter | src/services/geminiService.ts:372-386 | the outer `catch` as specified: silent "" for `AbortError`, otherwise `onError`, deletion and rethrow |
| GeminiService.GeminiService.StreamChatWithHistory | src/services/geminiService.ts:251-386 | the whole call's trace, settlement, new state and requests are those of the demo or live specification |
| GeminiService.GeminiService.StreamLive | src/services/geminiService.ts:270-386 | once its own controller is installed, the live call's trace, settlement, new state and requests are those of the live specification |
| GeminiService.GeminiService.StreamLastUserMessage | src/services/geminiService.ts:292-332 | the inner `try` matches the first-stream specification |
| GeminiService.GeminiService.RetryWithLastUserMessage | src/services/geminiService.ts:334-366 | the context-length branch matches the retry specification |
| GeminiServiceProperties.OuterHandling | src/services/geminiService.ts:372-386 | `AbortError` resolves to "" with nothing reported or deleted; any other error is reported once with its message, deletes the session and is rethrown |
| GeminiServiceProperties.GetOrCreateReuses | src/services/geminiService.ts:96-108 | same id and persona: the stored chat is returned and only its `lastActive` becomes `now` |
| GeminiServiceProperties.GetOrCreateReplaces | src/services/geminiService.ts:100-135 | missing id or other persona: a never-stored handle overwrites that id only, or nothing changes when seeding fails |
| GeminiServiceProperties.CancelIdempotent | src/services/geminiService.ts:184-190 | cancelling twice is cancelling once |
| GeminiServiceProperties.LiveTraceShape | src/services/geminiService.ts:275-318 | `onStart` fires first and once, and at most one of `onComplete` and `onError` fires |
| GeminiServiceProperties.OuterTrace | src/services/geminiService.ts:372-386 | the outer handler adds at most one closing callback to the trace |
| GeminiServiceProperties.RetryTrace | src/services/geminiService.ts:334-366 | a retry keeps the trace `onStart`, tokens, at most one closing callback |
| GeminiServiceProperties.FirstStreamTrace | src/services/geminiService.ts:292-332 | the first stream keeps the trace `onStart`, tokens, at most one closing callback |
| GeminiServiceProperties.LiveTrace | src/services/geminiService.ts:275-386 | every live trace is `onStart`, the tokens and at most one closing callback |
| GeminiServiceProperties.StreamSettles | src/services/geminiService.ts:297-321 | exactly the chunks before the abort point reach `onToken`, in order; the call resolves to their concatenation; `onComplete` fires last with it iff not aborted; only the pruned history's last user message is sent |
| GeminiServiceProperties.RetryFacts | src/services/geminiService.ts:334-366 | the last user message is sent again; a normal retry leaves a fresh handle and resolves to the retry text; a failed one deletes the session unless it is an `AbortError` |
| GeminiServiceProperties.LiveCallRetries | src/services/geminiService.ts:334-340 | a context-length error from the first stream hands the call to the retry, after every first-stream chunk has been reported |
| GeminiServiceProperties.ContextLimitRetries | src/services/geminiService.ts:334-366 | a context-length error deletes and recreates the session with a new handle and resends only the last user message |
| GeminiServiceProperties.ContextLimitRetryTokens | src/services/geminiService.ts:297-366 | after a context-length retry the tokens of both streams have reached `onToken`, in order |
| GeminiServiceProperties.OtherErrorReported | src/services/geminiService.ts:372-386 | any other stream error fires `onError` once with its message, last, deletes the session and is rethrown |
| GeminiServiceProperties.AbortErrorSwallowed | src/services/geminiService.ts:372-386 | an `AbortError` resolves the call to "" with no `onError`, no `onComplete`, and the session kept |
| GeminiServiceProperties.NoUserMessageFails | src/services/geminiService.ts:287-290 | no user message after pruning: `onStart`, then `onError` with "No user message found in history", the session deleted, nothing sent |
| GeminiServiceProperties.TracksStep | src/services/geminiService.ts:184-190 | a cancellation step keeps the bookkeeping that only the call's own controller can be aborted |
| GeminiServiceProperties.RetryControllerFacts | src/services/geminiService.ts:334-366 | the retry path keeps the controller bookkeeping and completes only while the signal is not aborted |
| GeminiServiceProperties.FirstStreamControllerFacts | src/services/geminiService.ts:292-332 | the first stream keeps the controller bookkeeping and completes only while the signal is not aborted |
| GeminiServiceProperties.LiveControllerFacts | src/services/geminiService.ts:259-386 | across a live call the state stays valid, the controller left is the call's own or none, `onComplete` only if never aborted, and the previous controller is aborted: one stream in flight |
| GeminiServiceProperties.EarlyFailureControllerFacts | src/services/geminiService.ts:372-386 | a failure before any chunk fires only `onStart` and possibly `onError` |
| GeminiServiceProperties.DemoCallFacts | src/services/geminiService.ts:264-268 | the demo path streams the template for the last message's text, resolves to a prefix, completes iff not aborted, leaves no controller and aborts the previous one |
| SimpleGeminiService.InitialState | src/services/gemini/geminiService.ts:19-33 | demo mode iff the flag is truthy or the key is `demo_mode`, forced on when initialisation throws; no sessions, no controller |
| SimpleGeminiService.Cancelled | src/services/gemini/geminiService.ts:271-277 | `cancelStream` aborts the controller present, forgets it, and changes nothing else |
| SimpleGeminiService.Delivered | src/services/gemini/geminiService.ts:225-244 | a report-then-check loop reports the chunks up to and including the one during which the abort came |
| SimpleGeminiService.Finished | src/services/gemini/geminiService.ts:262-265 | after the `finally` the controller is gone and the sessions and configuration are untouched |
| SimpleGeminiService.GetLastUserMessage | src/services/gemini/geminiService.ts:183-190 | the index loop from the end finds the last user message, or nothing when there is none |
| SimpleGeminiService.RelayChunks | src/services/gemini/geminiService.ts:225-244 | the loop reports each chunk before it checks the signal and returns the concatenation of what it reported |
| SimpleGeminiService.GeminiService.constructor | src/services/gemini/geminiService.ts:19-33 | the new service is the specified initial state |
| SimpleGeminiService.GeminiService.InitializeClient | src/services/gemini/geminiService.ts:35-50 | success readies the model; a throw forces demo mode on and keeps the model |
| SimpleGeminiService.GeminiService.CleanupExpiredSessions | src/services/gemini/geminiService.ts:52-65 | the deletion loop leaves the registry swept with the thirty-minute window, and nothing else changes |
| SimpleGeminiService.GeminiService.StartChat | src/services/gemini/geminiService.ts:122-135 | a started chat gets a fresh handle and is stored under the id, stamped `now` |
| SimpleGeminiService.GeminiService.GetOrCreateChatSession | src/services/gemini/geminiService.ts:70-160 | the method does what the get-or-create specification says, fallback included |
| SimpleGeminiService.GeminiService.CancelStream | src/services/gemini/geminiService.ts:271-277 | the new state is the cancelled state |
| SimpleGeminiService.GeminiService.Finish | src/services/gemini/geminiService.ts:262-265 | the outside cancel, if it came, then the controller forgotten |
| SimpleGeminiService.GeminiService.StreamChatWithHistory | src/services/gemini/geminiService.ts:165-266 | the whole call's trace, settlement, new state and requests are those of the demo or live specification |
| SimpleGeminiService.GeminiService.Arm | src/services/gemini/geminiService.ts:174-179 | the previous stream is cancelled and a fresh controller installed |
| SimpleGeminiService.GeminiService.StreamDemo | src/services/gemini/geminiService.ts:193-204 | the demo branch matches the demo specification |
| SimpleGeminiService.GeminiService.StreamLive | src/services/gemini/geminiService.ts:206-265 | the live branch matches the live specification |
| SimpleGeminiService.GeminiService.ReportEarly | src/services/gemini/geminiService.ts:247-265 | a throw before `onStart` is reported unless aborted, rethrown, and the controller forgotten |
| SimpleGeminiService.GeminiService.SendAndRelay | src/services/gemini/geminiService.ts:215-265 | from `onStart` to the `finally` the call matches the stream specification |
| SimpleGeminiService.GeminiService.ReassignFields | src/services/gemini/geminiService.ts:291-295 | truthy supplied values replace the fields and demo mode is recomputed |
| SimpleGeminiService.GeminiService.UpdateConfig | src/services/gemini/geminiService.ts:282-305 | the new state is the specified reconfiguration |
| SimpleGeminiServiceProperties.UpdateClearsIffChanged | src/services/gemini/geminiService.ts:283-304 | an update with no differing field changes nothing, demo mode included; one with a differing field drops every session |
| SimpleGeminiServiceProperties.FalsyValueClearsButKeeps | src/services/gemini/geminiService.ts:286-294 | a differing falsy number drops the sessions yet leaves the old value in place |
| SimpleGeminiServiceProperties.EmptyKeyClearsButKeeps | src/services/gemini/geminiService.ts:284-291 | a differing empty key drops the sessions yet leaves the old key in place |
| SimpleGeminiServiceProperties.UpdateDemoRule | src/services/gemini/geminiService.ts:295-300 | after a change demo mode is the supplied flag, else whether the key is `demo_mode`, forced on when the client cannot start |
| SimpleGeminiServiceProperties.UpdateTakesTruthyValues | src/services/gemini/geminiService.ts:291-294 | every supplied truthy value is taken and every other field is kept |
| SimpleGeminiServiceProperties.UpdateSettles | src/services/gemini/geminiService.ts:282-305 | the same update applied twice finds nothing to change the second time |
| SimpleGeminiServiceProperties.ExistingSessionReturned | src/services/gemini/geminiService.ts:75-79 | a stored id returns the same chat whatever the prompt, with only `lastActive` refreshed: no persona check |
| SimpleGeminiServiceProperties.DemoSessionCreated | src/services/gemini/geminiService.ts:84-92 | a missing id in demo mode stores and returns the simulated chat |
| SimpleGeminiServiceProperties.NewSessionFallback | src/services/gemini/geminiService.ts:94-159 | no model throws 'Gemini API client not initialized'; a failed start is retried once with the shortened prompt; a second failure throws 'Failed to create chat session' |
| SimpleGeminiServiceProperties.GetOrCreateFrame | src/services/gemini/geminiService.ts:70-160 | only the entry for the id can change; a started chat has a handle no stored session has |
| SimpleGeminiServiceProperties.CancelIdempotent | src/services/gemini/geminiService.ts:271-277 | cancelling twice is cancelling once |
| SimpleGeminiServiceProperties.ArmedFacts | src/services/gemini/geminiService.ts:174-179 | every call first cancels the previous stream, then installs a fresh controller |
| SimpleGeminiServiceProperties.AtMostOneAfterAbort | src/services/gemini/geminiService.ts:225-244 | reporting before checking delivers at most one chunk more than checking first, and as many when no abort comes |
| SimpleGeminiServiceProperties.StreamReplyFacts | src/services/gemini/geminiService.ts:215-265 | `onStart` once and first, one `onToken` per reported chunk, result their concatenation, `onComplete` iff ended and not aborted, errors rethrown and reported iff not aborted |
| SimpleGeminiServiceProperties.StreamWithoutAbort | src/services/gemini/geminiService.ts:225-246 | without an abort every chunk is reported and `onComplete` ends the trace with the whole text |
| SimpleGeminiServiceProperties.EarlyFailureFacts | src/services/gemini/geminiService.ts:247-261 | a throw before `onStart` is reported unless aborted, and rethrown |
| SimpleGeminiServiceProperties.LiveCallFacts | src/services/gemini/geminiService.ts:206-265 | the unpruned history's last user message is sent; an error never deletes the session; the call ends with no controller and the one it cancelled is aborted |
| SimpleGeminiServiceProperties.DemoCallFacts | src/services/gemini/geminiService.ts:193-204 | the demo stream cannot be aborted and always completes with the whole template; without a user message the call reports and rethrows 'No user message found' |
| ChatContext.ChatStore.constructor | src/contexts/ChatContext.tsx:53-56 | no sessions, no current chat, the default persona selected |
| ChatContext.ChatStore.CreateNewChat | src/contexts/ChatContext.tsx:97-110 | one new empty session is appended for the given or the selected persona, and its id is returned |
| ChatContext.ChatStore.AddMessage | src/contexts/ChatContext.tsx:118-142 | a render's function acts on that render's current chat: with none it returns '' and changes nothing; otherwise the message goes to that chat and its id is returned |
| ChatContext.ChatStore.UpdateLastAssistantMessage | src/contexts/ChatContext.tsx:145-162 | a render's function acts on that render's current chat: with none nothing changes; otherwise the content of the matching message of that chat is replaced |
| ChatContext.ChatStore.ClearCurrentChat | src/contexts/ChatContext.tsx:165-178 | with no current chat nothing changes; otherwise the current chat's messages are emptied |
| ChatContext.ChatStore.ClearAllChats | src/contexts/ChatContext.tsx:181-186 | the list becomes one new chat for the selected persona, made current |
| ChatContext.ChatStore.RenameChatSession | src/contexts/ChatContext.tsx:189-200 | the matching chat is renamed |
| ChatContext.ChatStore.DeleteChatSession | src/contexts/ChatContext.tsx:203-220 | the sessions and current id become those of the delete specification |
| ChatContext.ChatStore.SelectPersona | src/contexts/ChatContext.tsx:85-94 | a changed persona id switches to that persona's first chat or a new one; the same id changes nothing else |
| ChatContext.ChatStore.SwitchToPersona | src/contexts/ChatContext.tsx:85-94 | the persona effect: the first chat of the persona becomes current, or a new one is appended |
| ChatContext.NewChatAppends | src/contexts/ChatContext.tsx:97-110 | exactly one empty session is appended, for the given persona or else the selected one; the others are unchanged |
| ChatContext.MessageAddedOnlyThere | src/contexts/ChatContext.tsx:118-139 | the message is appended to the sessions with the current id only |
| ChatContext.ContentSetOnlyThere | src/contexts/ChatContext.tsx:150-152 | only messages with that id change, and only their content |
| ChatContext.ContentUpdatedOnlyThere | src/contexts/ChatContext.tsx:145-162 | only the matching message of the current chat changes; no chat gains or loses messages; other chats are untouched |
| ChatContext.ClearAndRenameOnlyThere | src/contexts/ChatContext.tsx:165-200 | clearing empties the current chat only; renaming changes only the name and stamp of the matching chat |
| ChatContext.ClearTwice | src/contexts/ChatContext.tsx:165-178 | clearing twice is clearing once |
| ChatContext.ContentUpdatedLastWins | src/contexts/ChatContext.tsx:145-162 | two content updates of a message equal the later one alone |
| ChatContext.DeleteSpec | src/contexts/ChatContext.tsx:203-220 | every session with the id goes and the rest keep their order; deleting the current chat makes the persona's first remaining chat, or a new one, current |
| ChatContext.DeleteKeepsOrder | src/contexts/ChatContext.tsx:205 | deleting distributes over concatenation: the kept sessions keep their relative order |
| ChatContext.ClearAllLeavesOne | src/contexts/ChatContext.tsx:181-186 | exactly one empty session remains, for the selected persona, and it is current |
| ChatContext.CurrentChatSpec | src/contexts/ChatContext.tsx:113-115 | `getCurrentChat` finds a session iff one has the current id, and then the first |
| ChatContext.MessageAddedCurrent | src/contexts/ChatContext.tsx:118-139 | after adding, the current chat is the one found before with the message appended |
| ChatContext.ContentUpdatedCurrent | src/contexts/ChatContext.tsx:145-162 | after updating, the current chat is the one found before with the content replaced |
| ChatContext.SwitchFindsPersonaChat | src/contexts/ChatContext.tsx:85-94 | after switching, the current chat is a session of the persona |
| RemindersContext.AddAppendsOne | src/contexts/RemindersContext.tsx:95-101 | exactly one reminder with the given fields and a decimal id is appended; the others are unchanged |
| RemindersContext.UpdateOnlyMatching | src/contexts/RemindersContext.tsx:104-110 | the length is kept, other ids are untouched, and matching reminders get the supplied fields and keep the rest |
| RemindersContext.EmptyPatchIsIdentity | src/contexts/RemindersContext.tsx:104-110 | an empty patch changes nothing |
| RemindersContext.DeleteRemovesExactly | src/contexts/RemindersContext.tsx:113-115 | every reminder with the id goes, and the rest stay in order |
| RemindersContext.DeleteAbsentIsIdentity | src/contexts/RemindersContext.tsx:113-115 | deleting an id no reminder has changes nothing |
| RemindersContext.ToggleFlipsMatching | src/contexts/RemindersContext.tsx:118-124 | each matching reminder is itself with `completed` flipped, every other reminder is unchanged, the length is kept, and toggling twice restores the list |
| PomodoroContext.Duration | src/contexts/PomodoroContext.tsx:4-8 | the modes last 25, 5 and 15 minutes |
| PomodoroContext.CompletionCountsOne | src/contexts/PomodoroContext.tsx:137-153 | one completion adds one to the total, and the last completed date becomes today |
| PomodoroContext.StreakGrowsIffNewDay | src/contexts/PomodoroContext.tsx:139-144 | the streak grows by one iff the last completion was on another day, and is otherwise unchanged |
| PomodoroContext.LongestIsMax | src/contexts/PomodoroContext.tsx:147 | the longest streak becomes the larger of the new current and the old longest, so it keeps bounding the current one |
| PomodoroContext.SameDayTwice | src/contexts/PomodoroContext.tsx:137-153 | a second completion on the same day only adds to the total |
| PomodoroContext.CompletedOnCounts | src/contexts/PomodoroContext.tsx:137-153 | over a run of completions the total counts all, the streak counts the day changes, and the longest never falls below it |
| PomodoroContext.ModeChangeResets | src/contexts/PomodoroContext.tsx:88-93 | a new mode loads its full length and stops the clock; the current mode changes nothing |
| PomodoroContext.ResetSpec | src/contexts/PomodoroContext.tsx:123-126 | reset stops the clock at the mode's full length, touches nothing else, and is idempotent |
| PomodoroContext.ToggleFlips | src/contexts/PomodoroContext.tsx:118-120 | toggling flips the running flag only; two toggles restore the state |
| PomodoroContext.TickCountsDown | src/contexts/PomodoroContext.tsx:96-115 | a running clock with time left loses one second and nothing else changes; a stopped clock does not move |
| PomodoroContext.TickAtZero | src/contexts/PomodoroContext.tsx:101-107 | a running clock at zero stops and records one completion exactly in Pomodoro mode |
| PomodoroContext.Countdown | src/contexts/PomodoroContext.tsx:96-115 | from `n` seconds the clock reaches zero after `n` steps, still running; one more step stops it |
| PomodoroContext.CompletionsMoveTogether | src/contexts/PomodoroContext.tsx:130-153 | every operation changes `completedPomodoros` and `totalCompletions` by the same amount |
| PomodoroContext.TimerValidPreserved | src/contexts/PomodoroContext.tsx:40-156 | every operation keeps the clock within its mode's length and the longest streak at or above the current one |
| PomodoroContext.PomodoroTimer.constructor | src/contexts/PomodoroContext.tsx:40-52 | Pomodoro mode, 25 minutes left, stopped, no completions |
| PomodoroContext.PomodoroTimer.SetMode | src/contexts/PomodoroContext.tsx:88-93 | the new state is the mode change followed by its effect |
| PomodoroContext.PomodoroTimer.ToggleTimer | src/contexts/PomodoroContext.tsx:118-120 | the new state is the toggled state |
| PomodoroContext.PomodoroTimer.ResetTimer | src/contexts/PomodoroContext.tsx:123-126 | the new state is the reset state |
| PomodoroContext.PomodoroTimer.HandlePomodoroComplete | src/contexts/PomodoroContext.tsx:129-156 | the new state is one recorded completion |
| PomodoroContext.PomodoroTimer.Tick | src/contexts/PomodoroContext.tsx:96-115 | the new state is one step of the timer effect |
| Favorites.ToggleFlips | src/pages/ExamPapers.tsx:168-174 | toggling flips the id's membership and no other; an absent id goes to the end (the prompt library uses the same toggle) |
| Favorites.ToggleTwice | src/pages/PromptLibrary.tsx:146-152 | toggling twice restores membership, and the very list when the id was absent |
| ExamPapers.KeptIff | src/pages/ExamPapers.tsx:123-140 | a paper is kept iff every active selection matches it and, for a non-empty search, its lower-cased title contains the lower-cased term |
| ExamPapers.UnparsableYearHidesAll | src/pages/ExamPapers.tsx:128 | a year selection that is not a number hides every paper |
| ExamPapers.FilteredSpec | src/pages/ExamPapers.tsx:123 | the filtered list is exactly the kept papers in their order |
| ExamPapers.NoFiltersShowAll | src/pages/ExamPapers.tsx:123-140 | with no selection and no search every paper is shown, in order |
| ExamPapers.ComparatorIsRankOrder | src/pages/ExamPapers.tsx:143-152 | the comparator orders two papers as their rank (favourite, then year descending) does |
| ExamPapers.SortedPapersSpec | src/pages/ExamPapers.tsx:143-152 | the sorted list is a permutation of the filtered one; favourites first, later years first within each group, equal ranks in filtered order |
| ExamPapers.ClearFiltersDeactivates | src/pages/ExamPapers.tsx:182-189 | after clearing no selection is active and only the search term still filters |
| PromptLibrary.FilteredSpec | src/pages/PromptLibrary.tsx:103-120 | a prompt is kept iff its category is selected and, for a non-empty search, the term occurs in its title, content or a tag |
| PromptLibrary.NoFiltersShowAll | src/pages/PromptLibrary.tsx:103-120 | an empty search and 'All' show the whole library in order |
| PromptLibrary.ComparatorIsRankOrder | src/pages/PromptLibrary.tsx:123-130 | the comparator orders two prompts as their favourite rank does |
| PromptLibrary.SortedIsFavoritesThenRest | src/pages/PromptLibrary.tsx:123-130 | the sorted list is the favourites in filtered order followed by the others in theirs |
| PromptLibrary.ClearFiltersDeactivates | src/pages/PromptLibrary.tsx:162-167 | after clearing the category is 'All' and no filter is active |
| Dictionary.FilteredSpec | src/pages/Dictionary.tsx:96-110 | an entry is kept iff its subject is selected and, for a non-empty search, the term occurs in its English or Khmer term; order is kept |
| Dictionary.NoFiltersShowAll | src/pages/Dictionary.tsx:96-110 | an empty search and 'All' show the whole dictionary in order |
| Dictionary.ClearFiltersDeactivates | src/pages/Dictionary.tsx:122-127 | after clearing no filter is active |
| RemindersPage.SubjectFilterSpec | src/pages/RemindersWithContext.tsx:58-65 | no subject filter keeps every reminder; a subject keeps exactly its reminders, in order: one reminder is kept iff it has the subject, and filtering distributes over concatenation |
| RemindersPage.SortedSpec | src/pages/RemindersWithContext.tsx:68-75 | the sorted list is a permutation of the filtered one, by ascending date, with same-date reminders in filtered order |
| RemindersPage.RemindersPageState.constructor | src/pages/RemindersWithContext.tsx:48-55 | the form's defaults, today's date, no filter, the form hidden |
| RemindersPage.RemindersPageState.ResetForm | src/pages/RemindersWithContext.tsx:94-101 | title '', time '12:00', the first subject, priority 'medium', form hidden, filter untouched |
| RemindersPage.RemindersPageState.AddReminder | src/pages/RemindersWithContext.tsx:78-91 | an empty title or no date changes nothing; otherwise an open reminder with the form's fields is added and the form reset |
| RemindersPage.RemindersPageState.SelectSubject | src/pages/RemindersWithContext.tsx:190 | 'All' clears the filter and any other choice sets it; the half-filled form and its visibility are unchanged |
| RemindersPage.RemindersPageState.ClearFilters | src/pages/RemindersWithContext.tsx:104-109 | the filter is cleared, so no advanced filter is active; the half-filled form and its visibility are unchanged |
| Home.PriorityColor | src/pages/Home.tsx:19-30 | 'high' is 'error', 'medium' 'warning', 'low' 'success', anything else 'gray' |
| Home.FirstNameDefault | src/pages/Home.tsx:38 | the greeting is never empty, and it is 'Student' exactly when the first name is missing, empty or itself 'Student' |
| Home.UpcomingSpec | src/pages/Home.tsx:41-48 | at most two reminders, all open, nearest first; two whenever two are open; no open reminder left out is earlier than one shown |
| Home.SortedPrefix | src/pages/Home.tsx:41-48 | the first entries of a date-sorted list are in date order, and none after them is earlier |
| ChatSidebar.GetTimestamp | src/components/chat/ChatSessionSidebar.tsx:39-49 | falsy values give 0, numbers are returned unchanged, date text is read as a date |
| ChatSidebar.ComparatorIsRankOrder | src/components/chat/ChatSessionSidebar.tsx:51-54 | the comparator orders two sessions as most-recent-first does |
| ChatSidebar.PersonaChatsSpec | src/components/chat/ChatSessionSidebar.tsx:77-79 | exactly the persona's sessions, each as often as stored, most recently updated first |
| ChatSidebar.SidebarState.constructor | src/components/chat/ChatSessionSidebar.tsx:71-73 | nothing being edited, an empty name, the section open |
| ChatSidebar.SidebarState.StartEditing | src/components/chat/ChatSessionSidebar.tsx:81-84 | editing starts on the chat with its name |
| ChatSidebar.SidebarState.SaveEdit | src/components/chat/ChatSessionSidebar.tsx:86-92 | renames to the trimmed name and leaves editing only with an editing id and a non-blank name; otherwise nothing changes |
| ChatSidebar.SidebarState.KeyDown | src/components/chat/ChatSessionSidebar.tsx:86-113 | Enter saves: with an editing id and a non-blank name it renames to the trimmed name and leaves editing, otherwise nothing changes; Escape leaves editing without renaming; other keys change nothing |
| ChatSidebar.SidebarState.ToggleSectionExpansion | src/components/chat/ChatSessionSidebar.tsx:121-123 | the section alternates between open and closed |
| PomodoroPage.PaddedRoundTrip | src/pages/Pomodoro.tsx:151-155 | a number printed and padded to two places reads back as itself, in two characters below 100 |
| PomodoroPage.FormatTimeSpec | src/pages/Pomodoro.tsx:151-155 | minutes, a colon and two digits of seconds below 60; `60 * mm + ss` is the input; five characters below 6000 seconds |
| PomodoroPage.MessagesSpec | src/pages/Pomodoro.tsx:95-124 | 'during' at the running midpoint, 'start' at the running full length, 'complete' or 'break' when stopped at zero, the streak message only on a positive multiple of five |
| PomodoroPage.CompletionStepShowsMessage | src/pages/Pomodoro.tsx:102-116 | the step that stops a Pomodoro at zero leads to the completion message, with the streak message exactly on a positive multiple of five |
| StableChat.ContainsKhmerSpec | src/components/StableChat.tsx:33-36 | true iff some character lies in U+1780..U+17FF |
| StableChat.LatexPersists | src/components/StableChat.tsx:39-42 | text that contains LaTeX still does once more text is appended |
| StableChat.ConvertSpec | src/components/StableChat.tsx:79-84 | length, order and content are kept, 'user' maps to 'user' and 'assistant' to 'model', and concatenations convert piecewise |
| StableChat.TokenTouchesOnlyPending | src/components/StableChat.tsx:202-225 | a token grows only the pending message, by the token; its LaTeX flag never goes back to false |
| StableChat.ReplayTokens | src/components/StableChat.tsx:202-225 | a run of tokens appends the chunks, in order, to the pending message and to nothing else |
| StableChat.SuccessfulStreamShowsReply | src/components/StableChat.tsx:158-258 | start, chunks and completion show the whole reply in the pending message, marked complete, flagged iff it contains LaTeX; loading stops; earlier messages are untouched |
| StableChat.ErrorStopsLoading | src/components/StableChat.tsx:259-263 | an error stops loading, shows the error, and changes no message |
| StableChat.SendSpec | src/components/StableChat.tsx:158-196 | blank input or loading changes nothing; otherwise the trimmed user message and an empty, unfinished assistant message are appended and the history with the user message is sent |
| StableChat.RetrySpec | src/components/StableChat.tsx:285-297 | at most the last message is dropped, exactly when it is an assistant's; with an empty input nothing is sent again; with a typed input the request is built from the list before the drop, failed reply included, while the drop shows |
| StableChat.StableChatView.constructor | src/components/StableChat.tsx:53-56 | the initial messages, empty input, not loading, no error |
| StableChat.StableChatView.HandleInputChange | src/components/StableChat.tsx:53-56 | only the input changes |
| StableChat.StableChatView.HandleSendMessage | src/components/StableChat.tsx:158-196 | the state and request are those of the send specification |
| StableChat.StableChatView.SendWith | src/components/StableChat.tsx:158-196 | the send handler run with the message list its closure holds gives the send specification's state and request for that list |
| StableChat.StableChatView.OnToken | src/components/StableChat.tsx:202-225 | the state is the token applied |
| StableChat.StableChatView.OnComplete | src/components/StableChat.tsx:233-258 | the state is the completion applied |
| StableChat.StableChatView.OnError | src/components/StableChat.tsx:259-263 | the state is the error applied |
| StableChat.StableChatView.OnRejected | src/components/StableChat.tsx:266-274 | the `catch` stops loading and shows "Error: " and the error's message |
| StableChat.StreamFailureStopsLoading | src/components/StableChat.tsx:259-274 | a failing stream of the simplified service, with `onError` run or skipped after an abort, ends with the arrived chunks in the pending message, loading off and "Error: " + message shown |
| StableChat.EarlyFailureStopsLoading | src/components/StableChat.tsx:259-274 | a throw before `onStart`, reported or not, ends with loading off, the error shown and no message changed |
| StableChat.StableChatView.HandleClearChat | src/components/StableChat.tsx:277-283 | no messages and no error; the input is kept |
| StableChat.StableChatView.HandleRetry | src/components/StableChat.tsx:285-297 | the state and request are those of the retry specification |
| ChatInterface.ConvertSpec | src/components/ChatInterface.tsx:70-75 | length, order and content are kept, 'user' maps to 'user' and every other role to 'model', and concatenations convert piecewise |
| ChatInterface.SendSpec | src/components/ChatInterface.tsx:78-113 | blank input or loading changes nothing; otherwise the trimmed user message and an empty assistant message are appended, loading starts, and the history ends with the trimmed input as a user message |
| ChatInterface.ReplayTokens | src/components/ChatInterface.tsx:118-128 | a run of tokens appends the chunks, in order, to the pending message only |
| ChatInterface.SettledShowsReply | src/components/ChatInterface.tsx:118-132 | a completed stream shows the whole reply in the pending message, touches no other message, and stops loading |
| ChatInterface.SettledShowsFailure | src/components/ChatInterface.tsx:118-148 | a stream failing after some chunks keeps them shown, stops loading and shows the rejection's error |
| ChatInterface.RetryAfterFailureSendsNothing | src/components/ChatInterface.tsx:164-176 | after a failed send a retry only drops the last assistant message and clears the error; nothing is sent |
| ChatInterface.ChatInterfaceView.constructor | src/components/ChatInterface.tsx:35-38 | the initial messages, empty input, not loading, no error |
| ChatInterface.ChatInterfaceView.HandleInputChange | src/components/ChatInterface.tsx:152-154 | only the input changes |
| ChatInterface.ChatInterfaceView.HandleSendMessage | src/components/ChatInterface.tsx:78-113 | the state and request are those of the send specification |
| ChatInterface.ChatInterfaceView.OnToken | src/components/ChatInterface.tsx:118-128 | the state is the token applied |
| ChatInterface.ChatInterfaceView.OnComplete | src/components/ChatInterface.tsx:129-132 | loading stops |
| ChatInterface.ChatInterfaceView.OnError | src/components/ChatInterface.tsx:133-137 | the state is the error applied |
| ChatInterface.ChatInterfaceView.OnRejected | src/components/ChatInterface.tsx:140-148 | loading stops and the rejection's error shows |
| ChatInterface.ChatInterfaceView.HandleClearChat | src/components/ChatInterface.tsx:157-161 | no messages and no error |
| ChatInterface.ChatInterfaceView.HandleRetry | src/components/ChatInterface.tsx:164-176 | the state and request are those of the retry specification |
| AIChat.ClassifyErrorSpec | src/pages/AIChat.tsx:121-140 | 'network', 'timeout', 'rate', then token or context limit are checked in order and the first match decides; otherwise "Error: " and the message, or "Unknown error" |
| AIChat.MessageHistorySpec | src/pages/AIChat.tsx:71-80 | every shown message in order with 'user' or 'model', then the raw input as a user message: one longer than the messages |
| AIChat.SendSpec | src/pages/AIChat.tsx:38-110 | blank input or a pending reply changes nothing; without a valid key the user message is added and nothing sent; otherwise user and empty assistant messages are added and the current chat id, history and persona are sent; the send's chat is remembered for its callbacks |
| AIChat.DemoExchange | src/pages/AIChat.tsx:42-60 | without a valid key, send then timeout leave the raw input and the fixed demo reply in the current chat, no longer loading |
| AIChat.DisplayedLastWins | src/pages/AIChat.tsx:113-120 | showing one text and then another shows only the second |
| AIChat.ReplayTokens | src/pages/AIChat.tsx:113-120 | the accumulated response is everything received so far and the stored reply shows exactly that |
| AIChat.SuccessShowsReply | src/pages/AIChat.tsx:113-148 | a completed reply shows the full response, loading stopped, nothing marked as streaming |
| AIChat.FailureShowsGenericMessage | src/pages/AIChat.tsx:151-156 | as written, a failure reported through `onError` and rethrown always ends with the generic failure text |
| AIChat.IntendedFailureShowsClassifiedMessage | src/pages/AIChat.tsx:121-156 | with the corrected `catch`, a reported failure shows its classified text and an unreported one the generic text |
| AIChat.AIChatView.constructor | src/pages/AIChat.tsx:26-30 | empty input, not loading, no error, nothing streaming |
| AIChat.AIChatView.SetInput | src/pages/AIChat.tsx:26 | only the input changes |
| AIChat.AIChatView.HandleSendMessage | src/pages/AIChat.tsx:38-110 | the page, store and request are those of the send specification |
| AIChat.AIChatView.SendLive | src/pages/AIChat.tsx:62-110 | with a valid key, the page, store and request are those of the send specification, the send's chat captured for its callbacks |
| AIChat.AIChatView.DemoReplyArrived | src/pages/AIChat.tsx:51-57 | the demo reply is added to the chat that was current at the send, whichever is current now, and loading stops |
| AIChat.AIChatView.OnToken | src/pages/AIChat.tsx:113-120 | the response grows by the token and the reply message of the send-time chat shows it, whichever chat is current now |
| AIChat.AIChatView.OnComplete | src/pages/AIChat.tsx:141-148 | the reply message of the send-time chat shows the full response, whichever chat is current now; loading and streaming stop |
| AIChat.AIChatView.OnError | src/pages/AIChat.tsx:121-140 | the classified error text shows, loading stops, nothing is marked as streaming |
| AIChat.AIChatView.OnRejected | src/pages/AIChat.tsx:151-156 | the generic failure text shows and loading stops |
| AIChat.AIChatView.HandlePersonaChange | src/pages/AIChat.tsx:160-165 | a known id selects the first persona with it, no earlier persona having that id (the store then switches chats); an unknown id changes nothing |

## Left out

- **Timing and I/O.**
  - Network requests, `localStorage` loading and saving, `console` logging, and the contexts' load
    and save effects are left out. Each context starts from its initial state.
  - Timers are left out: the sweep `setInterval`, the demo delays and the UI timeouts. The sweep is
    an explicit call with `now`, and a delay is the step that follows it.
  - `Date.now`, `new Date`, `toISOString`, `parseISO`, date-fns formatting and `toLocaleString` are
    left out. Time is an integer `now`, and days and dates are texts or integers given by the caller.
  - Each replayed stream uses a single clock reading.
- **The provider SDK.** `startChat`, `sendMessage`, `sendMessageStream` and `generateContent` are a
  script of chunks, errors and an abort point. The live bodies of `generateContent` and
  `chatWithHistory` are not modelled; only their demo branches are.
- **Overlapping calls** and the `finally` that can clear a newer call's controller are left out.
  Each call runs to its end before the next starts, and an abort happens at a chunk boundary.
- **Throws of values that are not `Error`s.** These, and the resulting 'Unknown error occurred'
  message, are left out; every error has a name and a message.
- **The placeholder API key.** The simplified service's default key is a placeholder constant here.
- **Floating point.** `calculateProgress` and the progress percentage are left out.
- **Text.**
  - `toLowerCase` is modelled on ASCII letters only; other characters are unchanged.
  - Strings are sequences of characters, not UTF-16 code units.
  - `parseInt` is modelled for unsigned decimals; a sign is not read.
- **The LaTeX test in `StableChat`.** Its regular expressions are a list of literal alternatives
  searched as substrings, not a regex engine.
- **Randomness.** `uuidv4`, `generateId`, `Date.now().toString()` ids and the random choice of a
  Pomodoro message are parameters of the operations that use them.
- **The Pomodoro streak reset on load.** It compares the stored date with yesterday by calendar
  arithmetic and is left out with the rest of the load effect.
- **Setters and UI flags that no operation here reads.** This covers `muted`, `showSidebar`, scroll
  state and the clear-confirmation flag.
- **A `null` session among the sidebar's chats, and an invalid date.** Neither can be expressed:
  sessions are values, so the `null` guard of `personaChats` is not modelled, and
  `getTimestamp` reads date text through a parameter.
- **The components' `cancelStream` calls.** They reach the service, whose `cancelStream` is modelled
  there.
- **In-place message mutation.** `StableChat` and `ChatInterface` mutate the last message of a copied
  array. The model writes this as an immutable update of that message. The aliasing with the
  previous state's objects is therefore not captured.
- **How `ChatInterface.tsx:109-113` calls the service.** It passes five arguments to the four-parameter
  `streamChatWithHistory`, so the callbacks object the service receives is the persona id. The
  model's handlers run as the callbacks would if they reached the service. Nothing here states what
  the mismatched call actually fires.
- ChatInterface.ChatInterfaceView.OnComplete: states only that loading stops, because the source's
  `onComplete` does nothing else.

## Findings

| source | as written | input that shows it | evidently intended | confidence | as-written member | corrected member |
|---|---|---|---|---|---|---|
| src/pages/AIChat.tsx:151-156 | after the older service reports a stream error through `onError` (whose handler sets the classified text) it rethrows, and the page's `catch` then always overwrites that text with the generic failure message | any stream error, e.g. one whose message is "network down": `onError` shows the network text, the `catch` replaces it with the generic one | keep the classified text `onError` set, using the generic text only for a failure nothing has described | medium; not executed | AIChat.FailureShowsGenericMessage | AIChat.IntendedFailureShowsClassifiedMessage |
