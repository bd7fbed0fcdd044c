/** Values shared by both chat services: the provider's message format, the callback trace,
    and the scripted behaviour of the remote provider. */
module ChatTypes {

  import opened Wrappers
  import Text

  datatype Role = User | Model

  /** `{ role, parts }` as the provider expects it. */
  datatype ChatMessage = ChatMessage(role: Role, parts: string)

  /** One callback invocation: `onStart`, `onToken(text)`, `onComplete(full)`, `onError(err)`. */
  datatype Event = Start | Token(text: string) | Complete(full: string) | ErrorReported(message: string)

  /** An `Error` as the provider or the service throws it: its `name` and its `message`. */
  datatype ProviderError = ProviderError(name: string, message: string)

  /** What a streamed send does: it yields `chunks` in order, then either ends or throws `failure`. */
  datatype Reply = Reply(chunks: seq<string>, failure: Option<ProviderError>)

  /** How the promise returned to the caller settles. */
  datatype CallResult = Resolved(text: string) | Rejected(error: ProviderError)

  /** `new Error(message)`. */
  function PlainError(message: string): ProviderError {
    ProviderError("Error", message)
  }

  /** The `onToken` events for a run of chunks, in order. */
  function Tokens(chunks: seq<string>): (r: seq<Event>)
    ensures |r| == |chunks|
    ensures forall i :: 0 <= i < |chunks| ==> r[i] == Token(chunks[i])
  {
    seq(|chunks|, i requires 0 <= i < |chunks| => Token(chunks[i]))
  }

  /** Concatenation of chunks, as `fullResponse += chunk` builds it. */
  function Concat(chunks: seq<string>): string
    decreases |chunks|
  {
    if chunks == [] then "" else Concat(chunks[..|chunks| - 1]) + chunks[|chunks| - 1]
  }

  lemma ConcatSnoc(chunks: seq<string>, c: string)
    ensures Concat(chunks + [c]) == Concat(chunks) + c
  {
    assert (chunks + [c])[..|chunks|] == chunks;
  }

  /** The texts of the `onToken` events of a trace, in order. */
  function TokenTexts(events: seq<Event>): seq<string>
    decreases |events|
  {
    if events == [] then []
    else TokenTexts(events[..|events| - 1])
         + (if events[|events| - 1].Token? then [events[|events| - 1].text] else [])
  }

  lemma {:induction false} TokenTextsAppend(a: seq<Event>, b: seq<Event>)
    ensures TokenTexts(a + b) == TokenTexts(a) + TokenTexts(b)
    decreases |b|
  {
    if b == [] {
      assert a + b == a;
    } else {
      assert (a + b)[..|a + b| - 1] == a + b[..|b| - 1];
      TokenTextsAppend(a, b[..|b| - 1]);
    }
  }

  lemma {:induction false} TokenTextsOfTokens(chunks: seq<string>)
    ensures TokenTexts(Tokens(chunks)) == chunks
    decreases |chunks|
  {
    if chunks != [] {
      var init := chunks[..|chunks| - 1];
      assert Tokens(chunks) == Tokens(init) + [Token(chunks[|chunks| - 1])];
      TokenTextsAppend(Tokens(init), [Token(chunks[|chunks| - 1])]);
      TokenTextsOfTokens(init);
      assert TokenTexts([Token(chunks[|chunks| - 1])]) == [chunks[|chunks| - 1]];
    }
  }

  /** The number of callbacks of one kind in a trace. */
  function CountStarts(events: seq<Event>): nat
    decreases |events|
  {
    if events == [] then 0 else (if events[0] == Start then 1 else 0) + CountStarts(events[1..])
  }

  function CountCompletes(events: seq<Event>): nat
    decreases |events|
  {
    if events == [] then 0 else (if events[0].Complete? then 1 else 0) + CountCompletes(events[1..])
  }

  function CountErrors(events: seq<Event>): nat
    decreases |events|
  {
    if events == [] then 0 else (if events[0].ErrorReported? then 1 else 0) + CountErrors(events[1..])
  }

  lemma {:induction false} CountsAppend(a: seq<Event>, b: seq<Event>)
    ensures CountStarts(a + b) == CountStarts(a) + CountStarts(b)
    ensures CountCompletes(a + b) == CountCompletes(a) + CountCompletes(b)
    ensures CountErrors(a + b) == CountErrors(a) + CountErrors(b)
    decreases |a|
  {
    if a == [] {
      assert a + b == b;
    } else {
      assert (a + b)[0] == a[0];
      assert (a + b)[1..] == a[1..] + b;
      CountsAppend(a[1..], b);
    }
  }

  lemma {:induction false} CountsOfTokens(chunks: seq<string>)
    ensures CountStarts(Tokens(chunks)) == 0
    ensures CountCompletes(Tokens(chunks)) == 0
    ensures CountErrors(Tokens(chunks)) == 0
    decreases |chunks|
  {
    if chunks != [] {
      assert Tokens(chunks)[1..] == Tokens(chunks[1..]);
      CountsOfTokens(chunks[1..]);
    }
  }

  lemma {:induction false} TokensAppend(a: seq<string>, b: seq<string>)
    ensures Tokens(a) + Tokens(b) == Tokens(a + b)
  {
  }

  /** At most one closing callback: `onComplete` or `onError`. */
  predicate ClosingEnd(end: seq<Event>) {
    end == [] || (|end| == 1 && (end[0].Complete? || end[0].ErrorReported?))
  }

  lemma {:induction false} ClosingEndFacts(end: seq<Event>)
    requires ClosingEnd(end)
    ensures TokenTexts(end) == [] && CountStarts(end) == 0
    ensures CountCompletes(end) == (if end != [] && end[0].Complete? then 1 else 0)
    ensures CountErrors(end) == (if end != [] && end[0].ErrorReported? then 1 else 0)
  {
    if end != [] {
      assert end[..0] == [];
      assert end[1..] == [];
    }
  }

  /** A trace made of `onStart`, the tokens `toks` and at most one closing callback. */
  lemma {:induction false} TraceFacts(toks: seq<string>, end: seq<Event>)
    requires ClosingEnd(end)
    ensures var e := [Start] + Tokens(toks) + end;
      e[0] == Start && CountStarts(e) == 1 && TokenTexts(e) == toks
      && CountCompletes(e) == (if end != [] && end[0].Complete? then 1 else 0)
      && CountErrors(e) == (if end != [] && end[0].ErrorReported? then 1 else 0)
  {
    var head := [Start] + Tokens(toks);
    TraceHeadFacts(toks);
    ClosingEndFacts(end);
    CountsAppend(head, end);
    TokenTextsAppend(head, end);
  }

  lemma {:induction false} TraceHeadFacts(toks: seq<string>)
    ensures var head := [Start] + Tokens(toks);
      CountStarts(head) == 1 && CountCompletes(head) == 0 && CountErrors(head) == 0
      && TokenTexts(head) == toks
  {
    CountsOfTokens(toks);
    CountsAppend([Start], Tokens(toks));
    TokenTextsOfTokens(toks);
    TokenTextsAppend([Start], Tokens(toks));
    assert [Start][..0] == [];
    assert [Start][1..] == [];
    assert TokenTexts([Start]) == [];
  }

  /** The last element whose role is `user`, searching from the end (`getLastUserMessage`,
      and `[...msgs].reverse().find(m => m.role === 'user')`). */
  function LastUserMessage(msgs: seq<ChatMessage>): (r: Option<ChatMessage>)
    decreases |msgs|
  {
    if msgs == [] then None
    else if msgs[|msgs| - 1].role == User then Some(msgs[|msgs| - 1])
    else LastUserMessage(msgs[..|msgs| - 1])
  }

  /** The search finds a user message exactly when there is one, and what it finds is the
      last one: a user message with no user message after it. */
  lemma {:induction false} LastUserMessageSpec(msgs: seq<ChatMessage>)
    ensures LastUserMessage(msgs).None? <==> forall i :: 0 <= i < |msgs| ==> msgs[i].role != User
    ensures LastUserMessage(msgs).Some? ==>
      exists i :: 0 <= i < |msgs| && msgs[i] == LastUserMessage(msgs).value && msgs[i].role == User
                  && forall j :: i < j < |msgs| ==> msgs[j].role != User
    decreases |msgs|
  {
    if msgs != [] && msgs[|msgs| - 1].role != User {
      var init := msgs[..|msgs| - 1];
      LastUserMessageSpec(init);
      if LastUserMessage(init).Some? {
        var i :| 0 <= i < |init| && init[i] == LastUserMessage(init).value && init[i].role == User
                 && forall j :: i < j < |init| ==> init[j].role != User;
        assert msgs[i] == init[i];
      }
    } else if msgs != [] {
      assert msgs[|msgs| - 1].role == User;
    }
  }

  /** `messages[messages.length - 1]?.parts || ""`. */
  function LastParts(msgs: seq<ChatMessage>): string {
    if msgs == [] then "" else msgs[|msgs| - 1].parts
  }

  /** The abort point as seen by a stream that starts after `used` chunks were already handled. */
  function AbortLeft(abortAfter: Option<nat>, used: nat): Option<nat> {
    match abortAfter
    case None => None
    case Some(k) => Some(if k >= used then k - used else 0)
  }

  /** The signal is aborted once `handled` chunks have gone by. */
  predicate AbortedBy(abortAfter: Option<nat>, handled: nat) {
    abortAfter.Some? && abortAfter.value <= handled
  }

  /** How many of `n` items a loop that checks the signal before each item handles: it stops at
      the abort point when that comes before the end. */
  function Handled(n: nat, abortAfter: Option<nat>): (r: nat)
    ensures r <= n
    ensures r < n <==> abortAfter.Some? && abortAfter.value < n
    ensures r < n ==> AbortedBy(abortAfter, r)
  {
    if abortAfter.Some? && abortAfter.value < n then abortAfter.value else n
  }

  /** `message.includes("context length") || message.includes("token limit")`. */
  predicate IsContextLimit(message: string) {
    Text.Contains(message, "context length") || Text.Contains(message, "token limit")
  }
}
