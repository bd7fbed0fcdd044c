/** Token estimate and history pruning: the budget walk from the newest message backwards. */
module HistoryPruning {

  import opened ChatTypes

  const TOKEN_LIMIT: int := 30000
  const RESERVE_TOKENS: int := 1000

  /** The synthetic `model` turn put in front of a history that lost older turns. */
  const ELISION_MARKER: ChatMessage :=
    ChatMessage(Model, "...(Earlier parts of the conversation were summarized to save space)...")

  /** `Math.ceil(text.length / 4)`. */
  function EstimateTokenCount(text: string): (r: nat)
    ensures 4 * r >= |text| && 4 * (r - 1) < |text|
    ensures r == 0 <==> text == []
  {
    (|text| + 3) / 4
  }

  /** `TOKEN_LIMIT - estimateTokenCount(systemPrompt) - RESERVE_TOKENS`; negative for a huge prompt. */
  function Available(systemPrompt: string): int {
    TOKEN_LIMIT - EstimateTokenCount(systemPrompt) - RESERVE_TOKENS
  }

  /** Summed estimate of a run of messages. */
  function Cost(msgs: seq<ChatMessage>): nat
    decreases |msgs|
  {
    if msgs == [] then 0 else EstimateTokenCount(msgs[0].parts) + Cost(msgs[1..])
  }

  /** Summed estimate of the newest `k` messages. */
  function SuffixCost(msgs: seq<ChatMessage>, k: nat): nat
    requires k <= |msgs|
  {
    Cost(msgs[|msgs| - k..])
  }

  /** How many of the newest messages the backward walk keeps, when `k` are already kept:
      the next older message joins while the running total stays within `avail`. */
  function KeptFrom(msgs: seq<ChatMessage>, avail: int, k: nat): (r: nat)
    requires k <= |msgs|
    ensures k <= r <= |msgs|
    decreases |msgs| - k
  {
    if k < |msgs| && SuffixCost(msgs, k + 1) <= avail then KeptFrom(msgs, avail, k + 1) else k
  }

  function KeptCount(msgs: seq<ChatMessage>, avail: int): nat {
    KeptFrom(msgs, avail, 0)
  }

  /** The original messages that survive pruning. */
  function KeptOriginals(msgs: seq<ChatMessage>, systemPrompt: string): seq<ChatMessage> {
    msgs[|msgs| - KeptCount(msgs, Available(systemPrompt))..]
  }

  /** The result of `pruneMessageHistory`: the marker is added only when the walk stopped at an
      index `i > 0`, that is when at least two messages were dropped. */
  function Pruned(msgs: seq<ChatMessage>, systemPrompt: string): seq<ChatMessage> {
    var k := KeptCount(msgs, Available(systemPrompt));
    (if k + 1 < |msgs| then [ELISION_MARKER] else []) + msgs[|msgs| - k..]
  }

  /** The pruning loop: from the newest message to the oldest, prepend while within budget. */
  method PruneMessageHistory(messages: seq<ChatMessage>, systemPrompt: string)
    returns (prunedMessages: seq<ChatMessage>)
    ensures prunedMessages == Pruned(messages, systemPrompt)
  {
    var availableTokens := Available(systemPrompt);
    var totalTokens := 0;
    prunedMessages := [];
    var n := |messages|;
    var i: int := n - 1;
    while i >= 0
      invariant -1 <= i < n
      invariant totalTokens == Cost(messages[i + 1..])
      invariant prunedMessages == messages[i + 1..]
      invariant KeptFrom(messages, availableTokens, n - 1 - i) == KeptCount(messages, availableTokens)
      decreases i
    {
      var message := messages[i];
      var messageTokens := EstimateTokenCount(message.parts);
      assert messages[i..][1..] == messages[i + 1..];
      if totalTokens + messageTokens > availableTokens {
        if i > 0 {
          prunedMessages := [ELISION_MARKER] + prunedMessages;
        }
        break;
      }
      totalTokens := totalTokens + messageTokens;
      prunedMessages := [message] + prunedMessages;
      i := i - 1;
    }
  }

  /** Estimates of a suffix grow as the suffix grows. */
  lemma {:induction false} SuffixCostMonotone(msgs: seq<ChatMessage>, i: nat, j: nat)
    requires i <= j <= |msgs|
    ensures SuffixCost(msgs, i) <= SuffixCost(msgs, j)
    decreases j - i
  {
    if i < j {
      var n := |msgs|;
      assert msgs[n - (i + 1)..][1..] == msgs[n - i..];
      SuffixCostMonotone(msgs, i + 1, j);
    }
  }

  lemma {:induction false} KeptFromSpec(msgs: seq<ChatMessage>, avail: int, k: nat)
    requires k <= |msgs|
    requires k == 0 || SuffixCost(msgs, k) <= avail
    ensures var r := KeptFrom(msgs, avail, k);
      (r == 0 || SuffixCost(msgs, r) <= avail)
      && (r < |msgs| ==> SuffixCost(msgs, r + 1) > avail)
    decreases |msgs| - k
  {
    if k < |msgs| && SuffixCost(msgs, k + 1) <= avail {
      KeptFromSpec(msgs, avail, k + 1);
    }
  }

  /** The kept messages fit the budget, and no longer run of newest messages does: the walk keeps
      the longest suffix that fits. */
  lemma {:induction false} KeptCountSpec(msgs: seq<ChatMessage>, avail: int)
    ensures var k := KeptCount(msgs, avail);
      k <= |msgs|
      && (k == 0 || SuffixCost(msgs, k) <= avail)
      && (forall j :: k < j <= |msgs| ==> SuffixCost(msgs, j) > avail)
  {
    var k := KeptCount(msgs, avail);
    KeptFromSpec(msgs, avail, 0);
    forall j | k < j <= |msgs| ensures SuffixCost(msgs, j) > avail {
      SuffixCostMonotone(msgs, k + 1, j);
    }
  }

  /** A count that fits while one more would not is the count the walk stops at. */
  lemma {:induction false} KeptCountUnique(msgs: seq<ChatMessage>, avail: int, k: nat)
    requires k <= |msgs|
    requires k == 0 || SuffixCost(msgs, k) <= avail
    requires k < |msgs| ==> SuffixCost(msgs, k + 1) > avail
    ensures KeptCount(msgs, avail) == k
  {
    var r := KeptCount(msgs, avail);
    KeptFromSpec(msgs, avail, 0);
    if r < k {
      SuffixCostMonotone(msgs, r + 1, k);
    } else if r > k {
      SuffixCostMonotone(msgs, k + 1, r);
    }
  }

  /** The output is the kept originals, a contiguous run of the newest input messages in their
      original order, possibly preceded by the marker; the marker can stand only in front, so the
      output is at most one longer than the input. */
  lemma {:induction false} PrunedShape(msgs: seq<ChatMessage>, systemPrompt: string)
    ensures var kept := KeptOriginals(msgs, systemPrompt);
      var r := Pruned(msgs, systemPrompt);
      |kept| <= |msgs| && kept == msgs[|msgs| - |kept|..]
      && (r == kept || r == [ELISION_MARKER] + kept)
    ensures |Pruned(msgs, systemPrompt)| <= |msgs| + 1
  {
  }

  /** The summed estimate of the kept originals never exceeds the available budget. */
  lemma {:induction false} PrunedWithinBudget(msgs: seq<ChatMessage>, systemPrompt: string)
    ensures KeptOriginals(msgs, systemPrompt) == []
            || Cost(KeptOriginals(msgs, systemPrompt)) <= Available(systemPrompt)
  {
    KeptCountSpec(msgs, Available(systemPrompt));
  }

  /** The marker is prepended exactly when the walk stopped at an index `i > 0`, i.e. when two or
      more messages were dropped; dropping only the oldest message adds no marker. */
  lemma {:induction false} MarkerIffTwoDropped(msgs: seq<ChatMessage>, systemPrompt: string)
    ensures var kept := KeptOriginals(msgs, systemPrompt);
      Pruned(msgs, systemPrompt) == (if |kept| + 2 <= |msgs| then [ELISION_MARKER] else []) + kept
  {
  }

  /** A history that fits whole comes back unchanged, with no marker. */
  lemma {:induction false} WholeHistoryFits(msgs: seq<ChatMessage>, systemPrompt: string)
    requires Cost(msgs) <= Available(systemPrompt)
    ensures Pruned(msgs, systemPrompt) == msgs
  {
    var n := |msgs|;
    var avail := Available(systemPrompt);
    KeptCountSpec(msgs, avail);
    assert msgs[n - n..] == msgs;
    assert SuffixCost(msgs, n) <= avail;
    var k := KeptCount(msgs, avail);
    assert k == n;
    assert Pruned(msgs, systemPrompt) == [] + msgs[n - k..];
  }

  /** When the newest message alone is over budget nothing original survives: the result is the
      marker alone for two or more messages, and empty for one. */
  lemma {:induction false} NewestOverBudget(msgs: seq<ChatMessage>, systemPrompt: string)
    requires |msgs| >= 1
    requires EstimateTokenCount(msgs[|msgs| - 1].parts) > Available(systemPrompt)
    ensures Pruned(msgs, systemPrompt) == if |msgs| >= 2 then [ELISION_MARKER] else []
  {
    var n := |msgs|;
    var last := msgs[n - 1..];
    assert last == [msgs[n - 1]];
    assert last[1..] == [];
    assert Cost(last) == EstimateTokenCount(last[0].parts) + Cost(last[1..]);
    assert SuffixCost(msgs, 1) == EstimateTokenCount(msgs[n - 1].parts);
    assert KeptCount(msgs, Available(systemPrompt)) == 0;
  }

  /** When everything but the oldest message fits and the oldest does not, the oldest is dropped
      silently: no marker is added. */
  lemma {:induction false} OnlyOldestDropped(msgs: seq<ChatMessage>, systemPrompt: string)
    requires |msgs| >= 1
    requires Cost(msgs[1..]) <= Available(systemPrompt) < Cost(msgs)
    ensures Pruned(msgs, systemPrompt) == msgs[1..]
  {
    var n := |msgs|;
    assert msgs[n - n..] == msgs;
    assert msgs[n - (n - 1)..] == msgs[1..];
    KeptCountUnique(msgs, Available(systemPrompt), n - 1);
    assert Pruned(msgs, systemPrompt) == [] + msgs[1..];
  }
}
