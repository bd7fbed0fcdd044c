/** The demo responder: a fixed reply template, streamed one character at a time, with the abort
    signal checked before every character and once more before completion. */
module DemoMode {

  import opened Wrappers
  import opened ChatTypes
  import Text

  const REPLY_HEAD: string := "This is a demo response to: \""
  const REPLY_TAIL: string := "\". For real AI responses, please configure your Gemini API key."
  const LATEX_TAIL: string :=
    "\n\nHere's a LaTeX formula example:\n$E = mc^2$\n\nAnd a more complex one:\n"
    + "$$\\frac{d}{dx}\\left( \\int_{0}^{x} f(u)\\,du\\right)=f(x)$$"

  /** The short template: `generateDemoResponse` resolves to it, and the older service streams it. */
  function DemoReply(prompt: string): (r: string)
    ensures Text.Contains(r, prompt)
    ensures |r| == |REPLY_HEAD| + |prompt| + |REPLY_TAIL|
  {
    Text.ContainsMiddle(REPLY_HEAD, prompt, REPLY_TAIL);
    REPLY_HEAD + prompt + REPLY_TAIL
  }

  /** The template `streamDemoResponse` of the demo module streams: the short reply followed by two
      LaTeX examples. */
  function StreamTemplate(prompt: string): (r: string)
    ensures DemoReply(prompt) <= r
    ensures Text.Contains(r, prompt)
  {
    var r := DemoReply(prompt) + LATEX_TAIL;
    Text.ContainsInPrefix(r, |DemoReply(prompt)|, prompt);
    assert r[..|DemoReply(prompt)|] == DemoReply(prompt);
    r
  }

  /** `generateDemoResponse(prompt)`, without its one-second delay. */
  function GenerateDemoResponse(prompt: string): (r: string)
    ensures Text.Contains(r, prompt)
  {
    DemoReply(prompt)
  }

  /** One character as a one-character string, as `charAt` returns it. */
  function Chars(s: string): (r: seq<string>)
    ensures |r| == |s|
    ensures forall i :: 0 <= i < |s| ==> r[i] == [s[i]]
  {
    seq(|s|, i requires 0 <= i < |s| => [s[i]])
  }

  /** The callbacks and the resolved value of one character stream. */
  datatype StreamRun = StreamRun(events: seq<Event>, resolved: string)

  /** The specification of a character stream of `t`: `onStart`, one `onToken` per delivered
      character, then `onComplete(t)` unless the signal was aborted at one of the checks; the promise
      resolves to what was delivered. */
  function CharStream(t: string, abortAt: Option<nat>): StreamRun {
    var k := Handled(|t|, abortAt);
    StreamRun([Start] + Tokens(Chars(t[..k])) + (if AbortedBy(abortAt, |t|) then [] else [Complete(t)]),
              t[..k])
  }

  /** The `streamNextChar` loop. */
  method StreamChars(t: string, abortAt: Option<nat>) returns (events: seq<Event>, fullResponse: string)
    ensures StreamRun(events, fullResponse) == CharStream(t, abortAt)
  {
    events := [Start];
    fullResponse := "";
    var index := 0;
    while index < |t| && !AbortedBy(abortAt, index)
      invariant 0 <= index <= |t|
      invariant !AbortedBy(abortAt, index) || index == Handled(|t|, abortAt)
      invariant index <= Handled(|t|, abortAt)
      invariant fullResponse == t[..index]
      invariant events == [Start] + Tokens(Chars(t[..index]))
      decreases |t| - index
    {
      var chunk := [t[index]];
      fullResponse := fullResponse + chunk;
      events := events + [Token(chunk)];
      assert Chars(t[..index + 1]) == Chars(t[..index]) + [chunk];
      assert t[..index + 1] == t[..index] + chunk;
      index := index + 1;
    }
    assert index == Handled(|t|, abortAt);
    assert AbortedBy(abortAt, index) == AbortedBy(abortAt, |t|);
    if !AbortedBy(abortAt, index) {
      assert fullResponse == t;
      events := events + [Complete(fullResponse)];
    }
  }

  /** `streamDemoResponse(prompt, callbacks, abortSignal)` of the demo module. */
  method StreamDemoResponse(prompt: string, abortAt: Option<nat>) returns (events: seq<Event>, resolved: string)
    ensures StreamRun(events, resolved) == CharStream(StreamTemplate(prompt), abortAt)
  {
    events, resolved := StreamChars(StreamTemplate(prompt), abortAt);
  }

  /** `onStart` is called exactly once, first. */
  lemma {:induction false} StartOnceFirst(t: string, abortAt: Option<nat>)
    ensures var r := CharStream(t, abortAt); |r.events| >= 1 && r.events[0] == Start
    ensures CountStarts(CharStream(t, abortAt).events) == 1
    ensures CountErrors(CharStream(t, abortAt).events) == 0
  {
    var k := Handled(|t|, abortAt);
    var toks := Tokens(Chars(t[..k]));
    var tail: seq<Event> := if AbortedBy(abortAt, |t|) then [] else [Complete(t)];
    CountsOfTokens(Chars(t[..k]));
    CountsAppend([Start], toks);
    CountsAppend([Start] + toks, tail);
    assert CountStarts([Start]) == 1;
    assert CountErrors([Start]) == 0;
    assert CountStarts(tail) == 0 && CountErrors(tail) == 0;
  }

  /** Each `onToken` receives one character, at successive indices of the template, and the
      resolved string is a prefix of the template. */
  lemma {:induction false} TokensAreSuccessiveChars(t: string, abortAt: Option<nat>)
    ensures var r := CharStream(t, abortAt);
      r.resolved <= t
      && |r.events| >= |r.resolved| + 1
      && (forall i :: 0 <= i < |r.resolved| ==> r.events[i + 1] == Token([t[i]]))
  {
    var r := CharStream(t, abortAt);
    var k := Handled(|t|, abortAt);
    var toks := Tokens(Chars(t[..k]));
    var tail: seq<Event> := if AbortedBy(abortAt, |t|) then [] else [Complete(t)];
    assert r.events == [Start] + toks + tail;
    forall i | 0 <= i < k ensures r.events[i + 1] == Token([t[i]]) {
      assert r.events[i + 1] == toks[i];
    }
  }

  /** The tokens put together are the resolved string. */
  lemma {:induction false} TokensGlueToResolved(t: string, abortAt: Option<nat>)
    ensures var r := CharStream(t, abortAt); Concat(TokenTexts(r.events)) == r.resolved
  {
    var k := Handled(|t|, abortAt);
    var s := t[..k];
    var tail: seq<Event> := if AbortedBy(abortAt, |t|) then [] else [Complete(t)];
    TokenTextsAppend([Start], Tokens(Chars(s)));
    TokenTextsAppend([Start] + Tokens(Chars(s)), tail);
    TokenTextsOfTokens(Chars(s));
    assert TokenTexts([Start]) == [];
    assert TokenTexts(tail) == [];
    assert [] + Chars(s) + [] == Chars(s);
    ConcatOfChars(s);
  }

  /** Gluing the one-character strings of `s` back together gives `s`. */
  lemma {:induction false} ConcatOfChars(s: string)
    ensures Concat(Chars(s)) == s
    decreases |s|
  {
    if s != [] {
      var init := s[..|s| - 1];
      assert Chars(s)[..|s| - 1] == Chars(init);
      ConcatOfChars(init);
      assert init + [s[|s| - 1]] == s;
    }
  }

  /** Without an abort during the stream, `onComplete` is called once, last, with the whole template,
      and the promise resolves to it. */
  lemma {:induction false} NaturalCompletion(t: string, abortAt: Option<nat>)
    requires !AbortedBy(abortAt, |t|)
    ensures var r := CharStream(t, abortAt);
      r.resolved == t && r.events[|r.events| - 1] == Complete(t) && CountCompletes(r.events) == 1
  {
    var toks := Tokens(Chars(t[..|t|]));
    CountsOfTokens(Chars(t[..|t|]));
    CountsAppend([Start], toks);
    CountsAppend([Start] + toks, [Complete(t)]);
    assert CountCompletes([Start]) == 0;
    assert CountCompletes([Complete(t)]) == 1;
    assert t[..|t|] == t;
  }

  /** An abort seen at any check, including the one before the first character and the one after the
      last, suppresses `onComplete`; the promise resolves to the prefix streamed so far. */
  lemma {:induction false} AbortSuppressesCompletion(t: string, k: nat)
    ensures var r := CharStream(t, Some(k));
      k <= |t| ==> CountCompletes(r.events) == 0 && r.resolved == t[..k]
    ensures CharStream(t, Some(0)) == StreamRun([Start], "")
  {
    if k <= |t| {
      var s := t[..Handled(|t|, Some(k))];
      CountsOfTokens(Chars(s));
      CountsAppend([Start], Tokens(Chars(s)));
      assert CountCompletes([Start]) == 0;
      assert [Start] + Tokens(Chars(s)) + [] == [Start] + Tokens(Chars(s));
    }
    assert Tokens(Chars(t[..0])) == [];
  }
}
