/** The stable chat component: its message list, the conversion to the provider's format, and the
    stream callbacks that fill the pending assistant message. Each `setMessages(prev => …)` updater
    is a function from the old list to the new one; the service's callback trace is replayed through
    them in order. */
module StableChat {

  import opened Wrappers
  import Text
  import ChatTypes
  import SimpleGeminiService

  datatype MessageRole = User | Assistant

  /** A message with its rendering flags; a flag left undefined is `false`. */
  datatype Message = Message(id: string, role: MessageRole, content: string, containsLatex: bool, renderComplete: bool)

  predicate IsKhmer(c: char) {
    0x1780 <= c as int <= 0x17FF
  }

  /** `/[ក-៿]/.test(text)`, scanning from the left. */
  function ContainsKhmerText(text: string): bool
    decreases |text|
  {
    text != [] && (IsKhmer(text[0]) || ContainsKhmerText(text[1..]))
  }

  lemma {:induction false} ContainsKhmerSpec(text: string)
    ensures ContainsKhmerText(text) <==> exists i :: 0 <= i < |text| && IsKhmer(text[i])
    decreases |text|
  {
    if text != [] {
      ContainsKhmerSpec(text[1..]);
      if ContainsKhmerText(text[1..]) {
        var i :| 0 <= i < |text[1..]| && IsKhmer(text[1..][i]);
        assert IsKhmer(text[i + 1]);
      }
      if exists i :: 0 <= i < |text| && IsKhmer(text[i]) {
        var i :| 0 <= i < |text| && IsKhmer(text[i]);
        if i > 0 {
          assert IsKhmer(text[1..][i - 1]);
        }
      }
    }
  }

  /** The alternatives of the LaTeX pattern; finding any one of them is a match. */
  const LATEX_PATTERNS: seq<string> :=
    ["$$", "$", "\\begin{", "\\frac", "\\sum", "\\int", "\\lim", "\\alpha", "\\beta", "\\gamma", "\\delta"]

  predicate ContainsLatex(text: string) {
    exists i :: 0 <= i < |LATEX_PATTERNS| && Text.Contains(text, LATEX_PATTERNS[i])
  }

  /** Text that contains LaTeX still does once more text is appended. */
  lemma {:induction false} LatexPersists(a: string, b: string)
    ensures ContainsLatex(a) ==> ContainsLatex(a + b)
  {
    if ContainsLatex(a) {
      var i :| 0 <= i < |LATEX_PATTERNS| && Text.Contains(a, LATEX_PATTERNS[i]);
      assert (a + b)[..|a|] == a;
      Text.ContainsInPrefix(a + b, |a|, LATEX_PATTERNS[i]);
    }
  }

  function ToProviderRole(role: MessageRole): ChatTypes.Role {
    if role == User then ChatTypes.User else ChatTypes.Model
  }

  /** `convertToGeminiMessages`. */
  function ConvertToGeminiMessages(msgs: seq<Message>): seq<ChatTypes.ChatMessage> {
    seq(|msgs|, i requires 0 <= i < |msgs| => ChatTypes.ChatMessage(ToProviderRole(msgs[i].role), msgs[i].content))
  }

  /** The conversion keeps length, order and content, maps 'user' to 'user' and 'assistant' to
      'model', and converts a concatenation piecewise. */
  lemma {:induction false} ConvertSpec(msgs: seq<Message>, more: seq<Message>)
    ensures var r := ConvertToGeminiMessages(msgs);
      |r| == |msgs|
      && (forall i :: 0 <= i < |msgs| ==> r[i].parts == msgs[i].content)
      && (forall i :: 0 <= i < |msgs| ==> (r[i].role == ChatTypes.User <==> msgs[i].role == User))
    ensures ConvertToGeminiMessages(msgs + more) == ConvertToGeminiMessages(msgs) + ConvertToGeminiMessages(more)
  {
    var whole := ConvertToGeminiMessages(msgs + more);
    var parts := ConvertToGeminiMessages(msgs) + ConvertToGeminiMessages(more);
    assert |whole| == |parts|;
    forall i | 0 <= i < |whole| ensures whole[i] == parts[i] {
      if i >= |msgs| {
        assert (msgs + more)[i] == more[i - |msgs|];
      }
    }
  }

  /** The last message is the pending assistant message of this request. */
  predicate Pending(msgs: seq<Message>, assistantId: string) {
    msgs != [] && msgs[|msgs| - 1].id == assistantId
  }

  /** The `onToken` updater: the token is appended to the pending message, whose LaTeX flag is set
      once its content contains LaTeX; any other list is returned as it is. */
  function TokenApplied(msgs: seq<Message>, assistantId: string, token: string): seq<Message> {
    if Pending(msgs, assistantId) then
      var last := msgs[|msgs| - 1];
      var content := last.content + token;
      msgs[..|msgs| - 1] + [last.(content := content, containsLatex := last.containsLatex || ContainsLatex(content))]
    else msgs
  }

  /** The `onComplete` updater. */
  function RenderCompleted(msgs: seq<Message>, assistantId: string): seq<Message> {
    if Pending(msgs, assistantId) then msgs[..|msgs| - 1] + [msgs[|msgs| - 1].(renderComplete := true)]
    else msgs
  }

  /** A token changes only the pending message: its content grows by the token, its LaTeX flag never
      goes back to false, and a flag that tracked the content keeps tracking it. */
  lemma {:induction false} TokenTouchesOnlyPending(msgs: seq<Message>, assistantId: string, token: string)
    ensures var r := TokenApplied(msgs, assistantId, token);
      |r| == |msgs| && (!Pending(msgs, assistantId) ==> r == msgs)
      && (Pending(msgs, assistantId) ==>
            var n := |msgs| - 1;
            r[..n] == msgs[..n] && r[n].content == msgs[n].content + token
            && r[n].id == msgs[n].id && r[n].role == msgs[n].role && r[n].renderComplete == msgs[n].renderComplete
            && (msgs[n].containsLatex ==> r[n].containsLatex)
            && (msgs[n].containsLatex == ContainsLatex(msgs[n].content) ==> r[n].containsLatex == ContainsLatex(r[n].content)))
  {
    if Pending(msgs, assistantId) {
      var n := |msgs| - 1;
      LatexPersists(msgs[n].content, token);
      assert TokenApplied(msgs, assistantId, token)[..n] == msgs[..n];
    }
  }

  /** The component's state. */
  datatype ViewState = ViewState(messages: seq<Message>, input: string, isLoading: bool, error: Option<string>)

  /** One callback of the stream, applied to the state. */
  function Applied(v: ViewState, assistantId: string, e: ChatTypes.Event): ViewState {
    match e
    case Start => v
    case Token(t) => v.(messages := TokenApplied(v.messages, assistantId, t))
    case Complete(_) => v.(isLoading := false, messages := RenderCompleted(v.messages, assistantId))
    case ErrorReported(m) => v.(isLoading := false, error := Some("Error: " + m))
  }

  /** A trace of callbacks, applied in order. */
  function Replayed(v: ViewState, assistantId: string, events: seq<ChatTypes.Event>): ViewState
    decreases |events|
  {
    if events == [] then v else Replayed(Applied(v, assistantId, events[0]), assistantId, events[1..])
  }

  lemma {:induction false} ReplayedAppend(v: ViewState, assistantId: string, a: seq<ChatTypes.Event>, b: seq<ChatTypes.Event>)
    ensures Replayed(v, assistantId, a + b) == Replayed(Replayed(v, assistantId, a), assistantId, b)
    decreases |a|
  {
    if a != [] {
      assert (a + b)[0] == a[0];
      assert (a + b)[1..] == a[1..] + b;
      var w := Applied(v, assistantId, a[0]);
      ReplayedAppend(w, assistantId, a[1..], b);
      assert Replayed(v, assistantId, a + b) == Replayed(w, assistantId, a[1..] + b);
      assert Replayed(v, assistantId, a) == Replayed(w, assistantId, a[1..]);
    } else {
      assert a + b == b;
    }
  }

  /** The pending message after a run of tokens, when its flag tracked its content. */
  function Streamed(last: Message, chunks: seq<string>): Message {
    var content := last.content + ChatTypes.Concat(chunks);
    last.(content := content, containsLatex := ContainsLatex(content))
  }

  /** A run of `onToken` callbacks appends the chunks, in order, to the pending message and to
      nothing else. */
  lemma {:induction false} ReplayTokens(v: ViewState, assistantId: string, chunks: seq<string>)
    requires Pending(v.messages, assistantId)
    requires var last := v.messages[|v.messages| - 1]; last.containsLatex == ContainsLatex(last.content)
    ensures var n := |v.messages| - 1;
      Replayed(v, assistantId, ChatTypes.Tokens(chunks))
      == v.(messages := v.messages[..n] + [Streamed(v.messages[n], chunks)])
    decreases |chunks|
  {
    var n := |v.messages| - 1;
    if chunks == [] {
      assert v.messages[n].content + "" == v.messages[n].content;
      assert v.messages[..n] + [v.messages[n]] == v.messages;
    } else {
      var init := chunks[..|chunks| - 1];
      var c := chunks[|chunks| - 1];
      assert chunks == init + [c];
      ChatTypes.TokensAppend(init, [c]);
      ReplayTokens(v, assistantId, init);
      ReplayedAppend(v, assistantId, ChatTypes.Tokens(init), ChatTypes.Tokens([c]));
      var mid := v.(messages := v.messages[..n] + [Streamed(v.messages[n], init)]);
      assert ChatTypes.Tokens([c]) == [ChatTypes.Token(c)];
      assert Replayed(mid, assistantId, [ChatTypes.Token(c)]) == Applied(mid, assistantId, ChatTypes.Token(c));
      TokenTouchesOnlyPending(mid.messages, assistantId, c);
      assert mid.messages[..n] == v.messages[..n];
      ChatTypes.ConcatSnoc(init, c);
      assert v.messages[n].content + ChatTypes.Concat(init) + c == v.messages[n].content + ChatTypes.Concat(chunks);
    }
  }

  /** A stream that starts, yields its chunks and completes leaves the earlier messages alone and
      shows the whole reply in the pending message, marked complete, with its LaTeX flag telling
      whether the reply contains LaTeX; loading stops. */
  lemma {:induction false} SuccessfulStreamShowsReply(v: ViewState, assistantId: string, chunks: seq<string>, full: string)
    requires Pending(v.messages, assistantId)
    requires var last := v.messages[|v.messages| - 1]; last.containsLatex == ContainsLatex(last.content)
    ensures var r := Replayed(v, assistantId, [ChatTypes.Start] + ChatTypes.Tokens(chunks) + [ChatTypes.Complete(full)]);
      var n := |v.messages| - 1;
      |r.messages| == |v.messages| && r.messages[..n] == v.messages[..n]
      && r.messages[n].content == v.messages[n].content + ChatTypes.Concat(chunks)
      && r.messages[n].renderComplete && (r.messages[n].containsLatex <==> ContainsLatex(r.messages[n].content))
      && !r.isLoading && r.error == v.error && r.input == v.input
  {
    var toks := ChatTypes.Tokens(chunks);
    var n := |v.messages| - 1;
    ReplayedAppend(v, assistantId, [ChatTypes.Start] + toks, [ChatTypes.Complete(full)]);
    ReplayedAppend(v, assistantId, [ChatTypes.Start], toks);
    ReplayTokens(v, assistantId, chunks);
    var mid := v.(messages := v.messages[..n] + [Streamed(v.messages[n], chunks)]);
    assert Replayed(mid, assistantId, [ChatTypes.Complete(full)]) == Applied(mid, assistantId, ChatTypes.Complete(full));
    assert mid.messages[..n] == v.messages[..n];
  }

  /** An error callback stops loading and shows the error, and changes no message. */
  lemma {:induction false} ErrorStopsLoading(v: ViewState, assistantId: string, message: string)
    ensures var r := Applied(v, assistantId, ChatTypes.ErrorReported(message));
      !r.isLoading && r.error == Some("Error: " + message) && r.messages == v.messages && r.input == v.input
  {
  }

  /** The `catch` of the send handler: a rejected call stops loading and shows "Error: " and its
      message, whether or not `onError` ran before. */
  function Caught(v: ViewState, result: ChatTypes.CallResult): ViewState {
    if result.Rejected? then v.(isLoading := false, error := Some("Error: " + result.error.message)) else v
  }

  /** A call settling: every callback of the trace runs, then a rejection is caught. */
  function Settled(v: ViewState, assistantId: string, events: seq<ChatTypes.Event>, result: ChatTypes.CallResult): ViewState {
    Caught(Replayed(v, assistantId, events), result)
  }

  /** A stream of the service that fails ends with loading stopped and the failure shown, whether
      `onError` ran or was skipped because the signal was aborted: the pending message holds the
      chunks that arrived and nothing else changes. */
  lemma {:induction false} StreamFailureStopsLoading(v: ViewState, assistantId: string,
                                                     st: SimpleGeminiService.ServiceState, text: string,
                                                     reply: ChatTypes.Reply, abortAfter: Option<nat>)
    requires Pending(v.messages, assistantId)
    requires var last := v.messages[|v.messages| - 1]; last.containsLatex == ContainsLatex(last.content)
    requires SimpleGeminiService.StreamReply(st, text, reply, abortAfter).result.Rejected?
    ensures var o := SimpleGeminiService.StreamReply(st, text, reply, abortAfter);
      var r := Settled(v, assistantId, o.events, o.result);
      var n := |v.messages| - 1;
      var d := SimpleGeminiService.Delivered(|reply.chunks|, abortAfter);
      reply.failure.Some? && o.result == ChatTypes.Rejected(reply.failure.value)
      && r == v.(messages := v.messages[..n] + [Streamed(v.messages[n], reply.chunks[..d])],
                 isLoading := false, error := Some("Error: " + reply.failure.value.message))
  {
    var o := SimpleGeminiService.StreamReply(st, text, reply, abortAfter);
    var d := SimpleGeminiService.Delivered(|reply.chunks|, abortAfter);
    var n := |v.messages| - 1;
    var toks := ChatTypes.Tokens(reply.chunks[..d]);
    var e := reply.failure.value;
    var end: seq<ChatTypes.Event> := if ChatTypes.AbortedBy(abortAfter, d) then [] else [ChatTypes.ErrorReported(e.message)];
    assert o.events == [ChatTypes.Start] + toks + end;
    ReplayedAppend(v, assistantId, [ChatTypes.Start] + toks, end);
    ReplayedAppend(v, assistantId, [ChatTypes.Start], toks);
    ReplayTokens(v, assistantId, reply.chunks[..d]);
    var mid := v.(messages := v.messages[..n] + [Streamed(v.messages[n], reply.chunks[..d])]);
    if end != [] {
      assert Replayed(mid, assistantId, end) == Applied(mid, assistantId, ChatTypes.ErrorReported(e.message));
    }
  }

  /** A call that throws before `onStart` ends the same way, with no message changed. */
  lemma {:induction false} EarlyFailureStopsLoading(v: ViewState, assistantId: string, st: SimpleGeminiService.ServiceState,
                                                    e: ChatTypes.ProviderError, abortAfter: Option<nat>)
    ensures var o := SimpleGeminiService.EarlyFailure(st, e, abortAfter);
      Settled(v, assistantId, o.events, o.result) == v.(isLoading := false, error := Some("Error: " + e.message))
  {
    var o := SimpleGeminiService.EarlyFailure(st, e, abortAfter);
    if o.events != [] {
      assert Replayed(v, assistantId, o.events) == Applied(v, assistantId, ChatTypes.ErrorReported(e.message));
    }
  }

  /** `handleSendMessage` from a state whose messages, as the handler's closure saw them, were
      `history`: nothing happens for blank input or while loading; otherwise the trimmed input and an
      empty, unfinished assistant message are appended and the provider is sent `history` with the
      user message. */
  function Sent(v: ViewState, history: seq<Message>, userId: string, assistantId: string)
    : (ViewState, Option<seq<ChatTypes.ChatMessage>>)
  {
    var text := Text.Trim(v.input);
    if text == [] || v.isLoading then (v, None)
    else
      var user := Message(userId, User, text, ContainsLatex(text), true);
      var assistant := Message(assistantId, Assistant, "", false, false);
      (ViewState(v.messages + [user, assistant], "", true, None), Some(ConvertToGeminiMessages(history + [user])))
  }

  lemma {:induction false} SendSpec(v: ViewState, history: seq<Message>, userId: string, assistantId: string)
    ensures var (r, request) := Sent(v, history, userId, assistantId);
      (Text.Trim(v.input) == [] || v.isLoading <==> request.None?)
      && (request.None? ==> r == v)
      && (request.Some? ==>
            |r.messages| == |v.messages| + 2 && r.messages[..|v.messages|] == v.messages
            && r.messages[|v.messages|].role == User && r.messages[|v.messages|].content == Text.Trim(v.input)
            && r.messages[|v.messages| + 1] == Message(assistantId, Assistant, "", false, false)
            && Pending(r.messages, assistantId) && r.isLoading && r.input == "" && r.error.None?
            && |request.value| == |history| + 1
            && request.value[|history|] == ChatTypes.ChatMessage(ChatTypes.User, Text.Trim(v.input)))
  {
    var (r, request) := Sent(v, history, userId, assistantId);
    if request.Some? {
      assert r.messages[..|v.messages|] == v.messages;
    }
  }

  /** The `handleRetry` updater: the last message is dropped only if it is an assistant message. */
  function RetryDropped(msgs: seq<Message>): seq<Message> {
    if msgs != [] && msgs[|msgs| - 1].role == Assistant then msgs[..|msgs| - 1] else msgs
  }

  /** `handleRetry` removes the last assistant reply and then runs the send handler, whose closure
      still holds the list from before the removal and whose input was cleared by the send being
      retried: with an empty input the retry only removes the reply. */
  function Retried(v: ViewState, userId: string, assistantId: string): (ViewState, Option<seq<ChatTypes.ChatMessage>>) {
    Sent(v.(messages := RetryDropped(v.messages), error := None), v.messages, userId, assistantId)
  }

  /** The drop removes at most one message, the last, and only when it is an assistant reply. With
      an empty input the retry only drops the reply and clears the error. With a typed input the
      request is built from the list before the drop, the failed reply included, while the shown
      list is the dropped one followed by the new exchange. */
  lemma {:induction false} RetrySpec(v: ViewState, userId: string, assistantId: string)
    ensures var d := RetryDropped(v.messages);
      d == v.messages[..|d|] && |v.messages| - 1 <= |d|
      && (|d| < |v.messages| <==> v.messages != [] && v.messages[|v.messages| - 1].role == Assistant)
    ensures Text.Trim(v.input) == [] ==>
      Retried(v, userId, assistantId) == (v.(messages := RetryDropped(v.messages), error := None), None)
    ensures Text.Trim(v.input) != [] && !v.isLoading ==>
      var text := Text.Trim(v.input);
      var user := Message(userId, User, text, ContainsLatex(text), true);
      var (r, request) := Retried(v, userId, assistantId);
      request == Some(ConvertToGeminiMessages(v.messages + [user]))
      && r == ViewState(RetryDropped(v.messages) + [user, Message(assistantId, Assistant, "", false, false)], "", true, None)
  {
    var d := RetryDropped(v.messages);
    assert d == v.messages[..|d|];
  }

  /** The component's fields and its handlers. */
  class StableChatView {
    var messages: seq<Message>
    var input: string
    var isLoading: bool
    var error: Option<string>

    function State(): ViewState
      reads this
    {
      ViewState(messages, input, isLoading, error)
    }

    constructor(initialMessages: seq<Message>)
      ensures State() == ViewState(initialMessages, "", false, None)
    {
      messages := initialMessages;
      input := "";
      isLoading := false;
      error := None;
    }

    method HandleInputChange(value: string)
      modifies this
      ensures State() == old(State()).(input := value)
    {
      input := value;
    }

    /** `handleSendMessage`; `userId` and `assistantId` stand for the generated ids, and the result is
        the history sent to the service, if any. */
    method HandleSendMessage(userId: string, assistantId: string) returns (request: Option<seq<ChatTypes.ChatMessage>>)
      modifies this
      ensures (State(), request) == Sent(old(State()), old(messages), userId, assistantId)
    {
      request := SendWith(messages, userId, assistantId);
    }

    /** The send handler's body, run with the message list `history` its closure holds. */
    method SendWith(history: seq<Message>, userId: string, assistantId: string)
      returns (request: Option<seq<ChatTypes.ChatMessage>>)
      modifies this
      ensures (State(), request) == Sent(old(State()), history, userId, assistantId)
    {
      var text := Text.Trim(input);
      if text == [] || isLoading {
        return None;
      }
      var user := Message(userId, User, text, ContainsLatex(text), true);
      var assistant := Message(assistantId, Assistant, "", false, false);
      request := Some(ConvertToGeminiMessages(history + [user]));
      messages := messages + [user, assistant];
      input := "";
      error := None;
      isLoading := true;
    }

    method OnToken(assistantId: string, token: string)
      modifies this
      ensures State() == Applied(old(State()), assistantId, ChatTypes.Token(token))
    {
      messages := TokenApplied(messages, assistantId, token);
    }

    method OnComplete(assistantId: string, fullResponse: string)
      modifies this
      ensures State() == Applied(old(State()), assistantId, ChatTypes.Complete(fullResponse))
    {
      isLoading := false;
      messages := RenderCompleted(messages, assistantId);
    }

    method OnError(message: string)
      modifies this
      ensures State() == Applied(old(State()), "", ChatTypes.ErrorReported(message))
    {
      isLoading := false;
      error := Some("Error: " + message);
    }

    /** The `catch` around the call. */
    method OnRejected(e: ChatTypes.ProviderError)
      modifies this
      ensures State() == Caught(old(State()), ChatTypes.Rejected(e))
    {
      isLoading := false;
      error := Some("Error: " + e.message);
    }

    /** `handleClearChat`; the stream cancellation it also requests is the service's. */
    method HandleClearChat()
      modifies this
      ensures State() == old(State()).(messages := [], error := None)
    {
      messages := [];
      error := None;
    }

    method HandleRetry(userId: string, assistantId: string) returns (request: Option<seq<ChatTypes.ChatMessage>>)
      modifies this
      ensures (State(), request) == Retried(old(State()), userId, assistantId)
    {
      var seen := messages;
      messages := RetryDropped(messages);
      error := None;
      request := SendWith(seen, userId, assistantId);
    }
  }
}
