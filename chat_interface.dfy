/** The generic chat component: its message list, the request it sends to the simplified streaming
    service, and what the component's callbacks and the settled promise do to its state. The
    callbacks are modelled as they run when they reach the service. */
module ChatInterface {

  import opened Wrappers
  import Text
  import ChatTypes

  datatype MessageRole = User | Assistant

  datatype Message = Message(id: string, role: MessageRole, content: string)

  datatype ViewState = ViewState(messages: seq<Message>, input: string, isLoading: bool, error: Option<string>)

  /** `convertToGeminiMessages`. */
  function ConvertToGeminiMessages(msgs: seq<Message>): seq<ChatTypes.ChatMessage> {
    seq(|msgs|, i requires 0 <= i < |msgs| =>
      ChatTypes.ChatMessage(if msgs[i].role == User then ChatTypes.User else ChatTypes.Model, msgs[i].content))
  }

  /** The conversion keeps length, order and content, maps 'user' to 'user' and 'assistant' to
      'model', and converts a concatenation piecewise. */
  lemma {:induction false} ConvertSpec(msgs: seq<Message>, more: seq<Message>)
    ensures var r := ConvertToGeminiMessages(msgs);
      |r| == |msgs|
      && (forall i :: 0 <= i < |msgs| ==> r[i].parts == msgs[i].content)
      && (forall i :: 0 <= i < |msgs| ==> (r[i].role == ChatTypes.User <==> msgs[i].role == User))
    ensures ConvertToGeminiMessages(msgs + more) == ConvertToGeminiMessages(msgs) + ConvertToGeminiMessages(more)
  {
    var whole := ConvertToGeminiMessages(msgs + more);
    var parts := ConvertToGeminiMessages(msgs) + ConvertToGeminiMessages(more);
    assert |whole| == |parts|;
    forall i | 0 <= i < |whole| ensures whole[i] == parts[i] {
      if i >= |msgs| {
        assert (msgs + more)[i] == more[i - |msgs|];
      }
    }
  }

  predicate Pending(msgs: seq<Message>, assistantId: string) {
    msgs != [] && msgs[|msgs| - 1].id == assistantId
  }

  /** The `onToken` updater: the token is appended to the pending message. */
  function TokenApplied(msgs: seq<Message>, assistantId: string, token: string): seq<Message> {
    if Pending(msgs, assistantId) then
      msgs[..|msgs| - 1] + [msgs[|msgs| - 1].(content := msgs[|msgs| - 1].content + token)]
    else msgs
  }

  /** One callback, applied to the state. */
  function Applied(v: ViewState, assistantId: string, e: ChatTypes.Event): ViewState {
    match e
    case Start => v
    case Token(t) => v.(messages := TokenApplied(v.messages, assistantId, t))
    case Complete(_) => v.(isLoading := false)
    case ErrorReported(m) => v.(isLoading := false, error := Some("Error: " + m))
  }

  function Replayed(v: ViewState, assistantId: string, events: seq<ChatTypes.Event>): ViewState
    decreases |events|
  {
    if events == [] then v else Replayed(Applied(v, assistantId, events[0]), assistantId, events[1..])
  }

  lemma {:induction false} ReplayedAppend(v: ViewState, assistantId: string, a: seq<ChatTypes.Event>, b: seq<ChatTypes.Event>)
    ensures Replayed(v, assistantId, a + b) == Replayed(Replayed(v, assistantId, a), assistantId, b)
    decreases |a|
  {
    if a != [] {
      var w := Applied(v, assistantId, a[0]);
      assert (a + b)[0] == a[0];
      assert (a + b)[1..] == a[1..] + b;
      ReplayedAppend(w, assistantId, a[1..], b);
      assert Replayed(v, assistantId, a + b) == Replayed(w, assistantId, a[1..] + b);
      assert Replayed(v, assistantId, a) == Replayed(w, assistantId, a[1..]);
    } else {
      assert a + b == b;
    }
  }

  /** The `catch` of the handler: a rejected call stops loading and shows the error. */
  function Caught(v: ViewState, result: ChatTypes.CallResult): ViewState {
    if result.Rejected? then v.(isLoading := false, error := Some("Error: " + result.error.message)) else v
  }

  /** A call settling: every callback of the trace runs, then a rejection is caught. */
  function Settled(v: ViewState, assistantId: string, events: seq<ChatTypes.Event>, result: ChatTypes.CallResult): ViewState {
    Caught(Replayed(v, assistantId, events), result)
  }

  /** `handleSendMessage` from a state whose messages, as the handler's closure saw them, were
      `history`. */
  function Sent(v: ViewState, history: seq<Message>, userId: string, assistantId: string)
    : (ViewState, Option<seq<ChatTypes.ChatMessage>>)
  {
    var text := Text.Trim(v.input);
    if text == [] || v.isLoading then (v, None)
    else
      var user := Message(userId, User, text);
      (ViewState(v.messages + [user, Message(assistantId, Assistant, "")], "", true, None),
       Some(ConvertToGeminiMessages(history + [user])))
  }

  /** Nothing happens for blank input or while loading; otherwise the trimmed input and an empty
      assistant message are appended, loading starts, and the provider is sent `history` with the
      trimmed input as its last, user, message. */
  lemma {:induction false} SendSpec(v: ViewState, history: seq<Message>, userId: string, assistantId: string)
    ensures var (r, request) := Sent(v, history, userId, assistantId);
      (Text.Trim(v.input) == [] || v.isLoading <==> request.None?)
      && (request.None? ==> r == v)
      && (request.Some? ==>
            |r.messages| == |v.messages| + 2 && r.messages[..|v.messages|] == v.messages
            && r.messages[|v.messages|] == Message(userId, User, Text.Trim(v.input))
            && r.messages[|v.messages| + 1] == Message(assistantId, Assistant, "")
            && Pending(r.messages, assistantId) && r.isLoading && r.input == "" && r.error.None?
            && request.value == ConvertToGeminiMessages(history) + [ChatTypes.ChatMessage(ChatTypes.User, Text.Trim(v.input))])
  {
    var (r, request) := Sent(v, history, userId, assistantId);
    if request.Some? {
      assert r.messages[..|v.messages|] == v.messages;
      var user := Message(userId, User, Text.Trim(v.input));
      ConvertSpec(history, [user]);
    }
  }

  /** A run of `onToken` callbacks appends the chunks, in order, to the pending message only. */
  lemma {:induction false} ReplayTokens(v: ViewState, assistantId: string, chunks: seq<string>)
    requires Pending(v.messages, assistantId)
    ensures var n := |v.messages| - 1;
      Replayed(v, assistantId, ChatTypes.Tokens(chunks))
      == v.(messages := v.messages[..n] + [v.messages[n].(content := v.messages[n].content + ChatTypes.Concat(chunks))])
    decreases |chunks|
  {
    var n := |v.messages| - 1;
    if chunks == [] {
      assert v.messages[n].content + "" == v.messages[n].content;
      assert v.messages[..n] + [v.messages[n]] == v.messages;
    } else {
      var init := chunks[..|chunks| - 1];
      var c := chunks[|chunks| - 1];
      assert chunks == init + [c];
      ChatTypes.TokensAppend(init, [c]);
      ReplayTokens(v, assistantId, init);
      ReplayedAppend(v, assistantId, ChatTypes.Tokens(init), ChatTypes.Tokens([c]));
      var mid := v.(messages := v.messages[..n] + [v.messages[n].(content := v.messages[n].content + ChatTypes.Concat(init))]);
      assert ChatTypes.Tokens([c]) == [ChatTypes.Token(c)];
      assert Replayed(mid, assistantId, [ChatTypes.Token(c)]) == Applied(mid, assistantId, ChatTypes.Token(c));
      assert mid.messages[..n] == v.messages[..n];
      ChatTypes.ConcatSnoc(init, c);
      assert v.messages[n].content + ChatTypes.Concat(init) + c == v.messages[n].content + ChatTypes.Concat(chunks);
    }
  }

  /** A stream that starts, yields its chunks and completes shows the whole reply in the pending
      message, touches no other message, and stops loading. */
  lemma {:induction false} SettledShowsReply(v: ViewState, assistantId: string, chunks: seq<string>, full: string)
    requires Pending(v.messages, assistantId)
    ensures var r := Settled(v, assistantId, [ChatTypes.Start] + ChatTypes.Tokens(chunks) + [ChatTypes.Complete(full)],
                             ChatTypes.Resolved(full));
      var n := |v.messages| - 1;
      |r.messages| == |v.messages| && r.messages[..n] == v.messages[..n]
      && r.messages[n].content == v.messages[n].content + ChatTypes.Concat(chunks)
      && r.messages[n].id == assistantId && r.messages[n].role == v.messages[n].role
      && !r.isLoading && r.error == v.error && r.input == v.input
  {
    var toks := ChatTypes.Tokens(chunks);
    var n := |v.messages| - 1;
    ReplayedAppend(v, assistantId, [ChatTypes.Start] + toks, [ChatTypes.Complete(full)]);
    ReplayedAppend(v, assistantId, [ChatTypes.Start], toks);
    ReplayTokens(v, assistantId, chunks);
    var mid := v.(messages := v.messages[..n] + [v.messages[n].(content := v.messages[n].content + ChatTypes.Concat(chunks))]);
    assert Replayed(mid, assistantId, [ChatTypes.Complete(full)]) == Applied(mid, assistantId, ChatTypes.Complete(full));
    assert mid.messages[..n] == v.messages[..n];
  }

  /** A stream that fails after some chunks keeps the chunks shown, stops loading and shows the
      error of the rejection. */
  lemma {:induction false} SettledShowsFailure(v: ViewState, assistantId: string, chunks: seq<string>, e: ChatTypes.ProviderError)
    requires Pending(v.messages, assistantId)
    ensures var r := Settled(v, assistantId, [ChatTypes.Start] + ChatTypes.Tokens(chunks) + [ChatTypes.ErrorReported(e.message)],
                             ChatTypes.Rejected(e));
      var n := |v.messages| - 1;
      |r.messages| == |v.messages| && r.messages[..n] == v.messages[..n]
      && r.messages[n].content == v.messages[n].content + ChatTypes.Concat(chunks)
      && !r.isLoading && r.error == Some("Error: " + e.message)
  {
    var toks := ChatTypes.Tokens(chunks);
    var n := |v.messages| - 1;
    ReplayedAppend(v, assistantId, [ChatTypes.Start] + toks, [ChatTypes.ErrorReported(e.message)]);
    ReplayedAppend(v, assistantId, [ChatTypes.Start], toks);
    ReplayTokens(v, assistantId, chunks);
    var mid := v.(messages := v.messages[..n] + [v.messages[n].(content := v.messages[n].content + ChatTypes.Concat(chunks))]);
    assert Replayed(mid, assistantId, [ChatTypes.ErrorReported(e.message)]) == Applied(mid, assistantId, ChatTypes.ErrorReported(e.message));
    assert mid.messages[..n] == v.messages[..n];
  }

  /** The `handleRetry` updater: the last message is dropped only if it is an assistant message. */
  function RetryDropped(msgs: seq<Message>): seq<Message> {
    if msgs != [] && msgs[|msgs| - 1].role == Assistant then msgs[..|msgs| - 1] else msgs
  }

  /** `handleRetry`: the reply is dropped and the error cleared, then the send handler runs with the
      list from before the drop in its closure. */
  function Retried(v: ViewState, userId: string, assistantId: string): (ViewState, Option<seq<ChatTypes.ChatMessage>>) {
    Sent(v.(messages := RetryDropped(v.messages), error := None), v.messages, userId, assistantId)
  }

  /** After a failed send the input is empty, so a retry only drops the last assistant message and
      clears the error: nothing is sent again. */
  lemma {:induction false} RetryAfterFailureSendsNothing(v: ViewState, userId: string, assistantId: string)
    requires v.input == ""
    ensures var (r, request) := Retried(v, userId, assistantId);
      request.None? && r.error.None? && r.isLoading == v.isLoading
      && (v.messages != [] && v.messages[|v.messages| - 1].role == Assistant ==> r.messages == v.messages[..|v.messages| - 1])
      && (v.messages == [] || v.messages[|v.messages| - 1].role != Assistant ==> r.messages == v.messages)
  {
    Text.TrimEmptyIffBlank("");
  }

  /** The component's fields and its handlers. */
  class ChatInterfaceView {
    var messages: seq<Message>
    var input: string
    var isLoading: bool
    var error: Option<string>

    function State(): ViewState
      reads this
    {
      ViewState(messages, input, isLoading, error)
    }

    constructor(initialMessages: seq<Message>)
      ensures State() == ViewState(initialMessages, "", false, None)
    {
      messages := initialMessages;
      input := "";
      isLoading := false;
      error := None;
    }

    method HandleInputChange(value: string)
      modifies this
      ensures State() == old(State()).(input := value)
    {
      input := value;
    }

    /** `handleSendMessage` up to the call; the result is the history sent, if any. */
    method HandleSendMessage(userId: string, assistantId: string) returns (request: Option<seq<ChatTypes.ChatMessage>>)
      modifies this
      ensures (State(), request) == Sent(old(State()), old(messages), userId, assistantId)
    {
      var text := Text.Trim(input);
      if text == [] || isLoading {
        return None;
      }
      var user := Message(userId, User, text);
      request := Some(ConvertToGeminiMessages(messages + [user]));
      messages := messages + [user, Message(assistantId, Assistant, "")];
      input := "";
      error := None;
      isLoading := true;
    }

    method OnToken(assistantId: string, token: string)
      modifies this
      ensures State() == Applied(old(State()), assistantId, ChatTypes.Token(token))
    {
      messages := TokenApplied(messages, assistantId, token);
    }

    method OnComplete(fullResponse: string)
      modifies this
      ensures State() == Applied(old(State()), "", ChatTypes.Complete(fullResponse))
    {
      isLoading := false;
    }

    method OnError(message: string)
      modifies this
      ensures State() == Applied(old(State()), "", ChatTypes.ErrorReported(message))
    {
      isLoading := false;
      error := Some("Error: " + message);
    }

    /** The `catch` around the call. */
    method OnRejected(e: ChatTypes.ProviderError)
      modifies this
      ensures State() == Caught(old(State()), ChatTypes.Rejected(e))
    {
      isLoading := false;
      error := Some("Error: " + e.message);
    }

    /** `handleClearChat`; the stream cancellation it also requests is the service's. */
    method HandleClearChat()
      modifies this
      ensures State() == old(State()).(messages := [], error := None)
    {
      messages := [];
      error := None;
    }

    method HandleRetry(userId: string, assistantId: string) returns (request: Option<seq<ChatTypes.ChatMessage>>)
      modifies this
      ensures (State(), request) == Retried(old(State()), userId, assistantId)
    {
      var seen := messages;
      messages := RetryDropped(messages);
      error := None;
      var text := Text.Trim(input);
      if text == [] || isLoading {
        return None;
      }
      var user := Message(userId, User, text);
      request := Some(ConvertToGeminiMessages(seen + [user]));
      messages := messages + [user, Message(assistantId, Assistant, "")];
      input := "";
      isLoading := true;
    }
  }
}
