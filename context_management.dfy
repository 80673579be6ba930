/**
 * The non-adaptive context reduction of `src/core/context_manager.py`:
 * the token estimate, the over-limit test, the three built-in strategies
 * (truncation, sliding window, summarization) and the dispatcher that
 * picks one by the configured reduction mode.
 */
module ContextManagement {
  import opened Wrappers
  import opened Messages
  import opened SessionModel
  import Slices
  import Text

  /**
   * The strategies the dispatcher can hold. A summarization strategy may or
   * may not be attached to a context manager that writes its summaries.
   */
  datatype Strategy = Truncation | SlidingWindow | Summarization(attached: bool)

  /** What every `reduce` returns: the new message list and an optional summary. */
  type Reduction = (seq<Message>, Option<string>)

  /** The token estimate, accumulated message by message. */
  method EstimateTokens(ms: seq<Message>) returns (total: nat)
    ensures total == Tokens(ms)
  {
    total := 0;
    var i := 0;
    while i < |ms|
      invariant 0 <= i <= |ms|
      invariant total == Tokens(ms[..i])
    {
      assert ms[..i + 1][..i] == ms[..i];
      total := total + |ms[i].content| / 4;
      total := total + 4;
      i := i + 1;
    }
    assert ms[..i] == ms;
  }

  /** The split every strategy starts with: preserved system messages, then the rest. */
  method Partition(ms: seq<Message>, preserveSystem: bool) returns (system: seq<Message>, others: seq<Message>)
    ensures system == SystemMessages(ms, preserveSystem)
    ensures others == OtherMessages(ms, preserveSystem)
  {
    system, others := [], [];
    var i := 0;
    while i < |ms|
      invariant 0 <= i <= |ms|
      invariant system == SystemMessages(ms[..i], preserveSystem)
      invariant others == OtherMessages(ms[..i], preserveSystem)
    {
      assert ms[..i + 1][..i] == ms[..i];
      if ms[i].role == System && preserveSystem {
        system := system + [ms[i]];
      } else {
        others := others + [ms[i]];
      }
      i := i + 1;
    }
    assert ms[..i] == ms;
  }

  /** The conversation exceeds the turn limit or the token limit. */
  predicate OverLimits(ms: seq<Message>, config: ContextConfig) {
    |ms| > config.maxTurns || Tokens(ms) > config.maxTokens
  }

  // ---------------------------------------------------------------------
  // Truncation

  /** How many non-system messages truncation keeps: the turns left after the system messages, never negative. */
  function TruncationKeep(config: ContextConfig, systemCount: nat): (k: nat)
    ensures k == Slices.Max(0, config.maxTurns - systemCount)
  {
    if config.maxTurns - systemCount < 0 then 0 else config.maxTurns - systemCount
  }

  /** What truncation returns. */
  function Truncated(ms: seq<Message>, config: ContextConfig): seq<Message> {
    if |ms| <= config.maxTurns then ms
    else
      var system := SystemMessages(ms, config.preserveSystemMessage);
      var others := OtherMessages(ms, config.preserveSystemMessage);
      var keep := TruncationKeep(config, |system|);
      system + (if keep > 0 then Slices.Drop(others, -(keep as int)) else [])
  }

  method TruncationReduce(ms: seq<Message>, config: ContextConfig) returns (out: seq<Message>, summary: Option<string>)
    ensures out == Truncated(ms, config) && summary == None
  {
    if |ms| <= config.maxTurns {
      return ms, None;
    }
    var system, others := Partition(ms, config.preserveSystemMessage);
    var maxOther := config.maxTurns - |system|;
    if maxOther < 0 {
      maxOther := 0;
    }
    var kept := if maxOther > 0 then Slices.Drop(others, -maxOther) else [];
    out := system + kept;
    summary := None;
  }

  /**
   * Truncation keeps every preserved system message in order, followed by
   * the newest `max(0, max_turns - #system)` other messages in order; it
   * returns more than `max_turns` messages only when the system messages
   * alone exceed it.
   */
  lemma {:induction false} TruncatedShape(ms: seq<Message>, config: ContextConfig)
    requires |ms| > config.maxTurns
    ensures var system := SystemMessages(ms, config.preserveSystemMessage);
      var others := OtherMessages(ms, config.preserveSystemMessage);
      var n := Slices.Min(Slices.Max(0, config.maxTurns - |system|), |others|);
      && Truncated(ms, config) == system + others[|others| - n..]
      && |Truncated(ms, config)| == Slices.Max(|system|, Slices.Min(config.maxTurns, |ms|))
  {
    PartitionPermutation(ms, config.preserveSystemMessage);
  }

  /** When the system messages fit in the turn limit, a second truncation changes nothing. */
  lemma {:induction false} TruncationIdempotent(ms: seq<Message>, config: ContextConfig)
    requires |SystemMessages(ms, config.preserveSystemMessage)| <= config.maxTurns
    ensures |Truncated(ms, config)| <= config.maxTurns
    ensures Truncated(Truncated(ms, config), config) == Truncated(ms, config)
  {
    if |ms| > config.maxTurns {
      TruncatedShape(ms, config);
    }
  }

  /** Truncation never drops a preserved system message and never reorders them. */
  lemma {:induction false} TruncationKeepsSystem(ms: seq<Message>, config: ContextConfig)
    ensures SystemMessages(Truncated(ms, config), config.preserveSystemMessage)
         == SystemMessages(ms, config.preserveSystemMessage)
  {
    var p := config.preserveSystemMessage;
    if |ms| > config.maxTurns {
      TruncatedShape(ms, config);
      var system, others := SystemMessages(ms, p), OtherMessages(ms, p);
      var n := Slices.Min(Slices.Max(0, config.maxTurns - |system|), |others|);
      assert Truncated(ms, config) == system + others[|others| - n..];
      SystemThenOtherSuffix(ms, p, |others| - n);
    }
  }

  // ---------------------------------------------------------------------
  // Sliding window

  /**
   * The newest messages of `s` taken one by one from the end while the
   * running total stays within `budget`; the walk stops at the first
   * message that does not fit.
   */
  function NewestWithin(s: seq<Message>, budget: int): seq<Message> {
    if s == [] then []
    else
      var last := s[|s| - 1];
      if MessageTokens(last) <= budget then NewestWithin(s[..|s| - 1], budget - MessageTokens(last)) + [last]
      else []
  }

  /** The window is a contiguous run at the end of `s`. */
  lemma {:induction false} NewestIsSuffix(s: seq<Message>, budget: int)
    ensures |NewestWithin(s, budget)| <= |s|
    ensures NewestWithin(s, budget) == s[|s| - |NewestWithin(s, budget)|..]
  {
    if s != [] && MessageTokens(s[|s| - 1]) <= budget {
      NewestIsSuffix(s[..|s| - 1], budget - MessageTokens(s[|s| - 1]));
    }
  }

  /** The window fits in the budget. */
  lemma {:induction false} NewestFits(s: seq<Message>, budget: int)
    ensures NewestWithin(s, budget) != [] ==> Tokens(NewestWithin(s, budget)) <= budget
  {
    if s != [] && MessageTokens(s[|s| - 1]) <= budget {
      var last := s[|s| - 1];
      var w := NewestWithin(s[..|s| - 1], budget - MessageTokens(last));
      NewestFits(s[..|s| - 1], budget - MessageTokens(last));
      assert (w + [last])[..|w|] == w;
    }
  }

  /** The window stops only where the next older message would overflow the budget. */
  lemma {:induction false} NewestMaximal(s: seq<Message>, budget: int)
    ensures var r := NewestWithin(s, budget);
      |r| < |s| ==> Tokens(r) + MessageTokens(s[|s| - |r| - 1]) > budget
  {
    if s != [] && MessageTokens(s[|s| - 1]) <= budget {
      var last, init := s[|s| - 1], s[..|s| - 1];
      var w := NewestWithin(init, budget - MessageTokens(last));
      NewestMaximal(init, budget - MessageTokens(last));
      NewestIsSuffix(init, budget - MessageTokens(last));
      var r := w + [last];
      assert r[..|w|] == w;
      if |r| < |s| {
        assert s[|s| - |r| - 1] == init[|init| - |w| - 1];
      }
    }
  }

  /** What the sliding window returns. */
  function Windowed(ms: seq<Message>, config: ContextConfig): seq<Message> {
    Window(SystemMessages(ms, config.preserveSystemMessage),
           OtherMessages(ms, config.preserveSystemMessage), config.maxTokens)
  }

  /** The sliding window over already separated system and other messages. */
  function Window(system: seq<Message>, others: seq<Message>, maxTokens: int): seq<Message> {
    var remaining := maxTokens - Tokens(system);
    if remaining <= 0 then system else system + NewestWithin(others, remaining)
  }

  /**
   * One step of the backwards walk: the next older message joins the kept
   * suffix when it fits in what is left, and otherwise the window is complete.
   */
  lemma {:induction false} KeepStep(others: seq<Message>, remaining: int, i: nat, current: int)
    requires 0 < i <= |others| && current == Tokens(others[i..])
    requires NewestWithin(others, remaining) == NewestWithin(others[..i], remaining - current) + others[i..]
    ensures others[i - 1..] == [others[i - 1]] + others[i..]
    ensures current + MessageTokens(others[i - 1]) == Tokens(others[i - 1..])
    ensures current + MessageTokens(others[i - 1]) <= remaining ==>
      NewestWithin(others, remaining)
        == NewestWithin(others[..i - 1], remaining - current - MessageTokens(others[i - 1])) + others[i - 1..]
    ensures current + MessageTokens(others[i - 1]) > remaining ==> NewestWithin(others, remaining) == others[i..]
  {
    var msg, init, rest := others[i - 1], others[..i - 1], others[i..];
    var t := current + MessageTokens(msg);
    assert others[i - 1..] == [msg] + rest;
    assert others[..i][..i - 1] == init && others[..i][i - 1] == msg;
    TokensSingle(msg);
    TokensAppend([msg], rest);
    if t <= remaining {
      var w := NewestWithin(init, remaining - t);
      assert NewestWithin(others[..i], remaining - current) == w + [msg];
      Slices.AppendAssoc(w, [msg], rest);
    }
  }

  /** The backwards walk over the non-system messages with a running token count. */
  method KeepNewest(others: seq<Message>, remaining: int) returns (kept: seq<Message>)
    ensures kept == NewestWithin(others, remaining)
  {
    kept := [];
    var current := 0;
    var i := |others|;
    assert others[..i] == others;
    while i > 0
      invariant 0 <= i <= |others|
      invariant kept == others[i..]
      invariant current == Tokens(kept)
      invariant NewestWithin(others, remaining) == NewestWithin(others[..i], remaining - current) + kept
    {
      var msg := others[i - 1];
      var msgTokens := EstimateTokens([msg]);
      TokensSingle(msg);
      KeepStep(others, remaining, i, current);
      if current + msgTokens <= remaining {
        kept := [msg] + kept;
        current := current + msgTokens;
        i := i - 1;
      } else {
        break;
      }
    }
  }

  method SlidingWindowReduce(ms: seq<Message>, config: ContextConfig) returns (out: seq<Message>, summary: Option<string>)
    ensures out == Windowed(ms, config) && summary == None
  {
    var system, others := Partition(ms, config.preserveSystemMessage);
    var systemTokens := EstimateTokens(system);
    var remaining := config.maxTokens - systemTokens;
    if remaining <= 0 {
      return system, None;
    }
    var kept := KeepNewest(others, remaining);
    out := system + kept;
    summary := None;
  }

  /** The room the system messages leave in the token budget. */
  function WindowBudget(ms: seq<Message>, config: ContextConfig): int {
    config.maxTokens - Tokens(SystemMessages(ms, config.preserveSystemMessage))
  }

  lemma {:induction false} WindowShape(system: seq<Message>, others: seq<Message>, maxTokens: int)
    ensures var out := Window(system, others, maxTokens);
      && |system| <= |out| && out[..|system|] == system
      && |out| - |system| <= |others|
      && out[|system|..] == others[|others| - (|out| - |system|)..]
      && (maxTokens - Tokens(system) <= 0 ==> out == system)
  {
    NewestIsSuffix(others, maxTokens - Tokens(system));
  }

  /**
   * The sliding window keeps the preserved system messages followed by a
   * newest contiguous run of the others, and only the system messages
   * when they leave no room.
   */
  lemma {:induction false} WindowedShape(ms: seq<Message>, config: ContextConfig)
    ensures var system := SystemMessages(ms, config.preserveSystemMessage);
      var others := OtherMessages(ms, config.preserveSystemMessage);
      var out := Windowed(ms, config);
      && |system| <= |out| && out[..|system|] == system
      && |out| - |system| <= |others|
      && out[|system|..] == others[|others| - (|out| - |system|)..]
      && (WindowBudget(ms, config) <= 0 ==> out == system)
  {
    WindowShape(SystemMessages(ms, config.preserveSystemMessage),
                OtherMessages(ms, config.preserveSystemMessage), config.maxTokens);
  }

  lemma {:induction false} WindowFits(system: seq<Message>, others: seq<Message>, maxTokens: int)
    requires maxTokens - Tokens(system) > 0
    ensures Tokens(Window(system, others, maxTokens)) <= maxTokens
  {
    var remaining := maxTokens - Tokens(system);
    var kept := NewestWithin(others, remaining);
    assert Window(system, others, maxTokens) == system + kept;
    NewestFits(others, remaining);
    TokensAppend(system, kept);
  }

  /** When the system messages leave room, the window fits in `max_tokens`. */
  lemma {:induction false} WindowedFits(ms: seq<Message>, config: ContextConfig)
    requires WindowBudget(ms, config) > 0
    ensures Tokens(Windowed(ms, config)) <= config.maxTokens
  {
    var system := SystemMessages(ms, config.preserveSystemMessage);
    var others := OtherMessages(ms, config.preserveSystemMessage);
    assert Windowed(ms, config) == Window(system, others, config.maxTokens);
    WindowFits(system, others, config.maxTokens);
  }

  lemma {:induction false} WindowMaximal(system: seq<Message>, others: seq<Message>, maxTokens: int)
    requires maxTokens - Tokens(system) > 0
    ensures var kept := NewestWithin(others, maxTokens - Tokens(system));
      |kept| < |others| ==>
        Tokens(Window(system, others, maxTokens)) + MessageTokens(others[|others| - |kept| - 1]) > maxTokens
  {
    var remaining := maxTokens - Tokens(system);
    var kept := NewestWithin(others, remaining);
    if |kept| < |others| {
      var next := MessageTokens(others[|others| - |kept| - 1]);
      assert Tokens(kept) + next > remaining by {
        NewestMaximal(others, remaining);
      }
      assert Tokens(Window(system, others, maxTokens)) == Tokens(system) + Tokens(kept) by {
        assert Window(system, others, maxTokens) == system + kept;
        TokensAppend(system, kept);
      }
    }
  }

  /** The window stops only because the next older message would overflow `max_tokens`. */
  lemma {:induction false} WindowedMaximal(ms: seq<Message>, config: ContextConfig)
    requires WindowBudget(ms, config) > 0
    ensures var others := OtherMessages(ms, config.preserveSystemMessage);
      var kept := NewestWithin(others, WindowBudget(ms, config));
      |kept| < |others| ==>
        Tokens(Windowed(ms, config)) + MessageTokens(others[|others| - |kept| - 1]) > config.maxTokens
  {
    var system := SystemMessages(ms, config.preserveSystemMessage);
    var others := OtherMessages(ms, config.preserveSystemMessage);
    var budget := config.maxTokens - Tokens(system);
    assert WindowBudget(ms, config) == budget;
    var kept := NewestWithin(others, budget);
    if |kept| < |others| {
      var next := MessageTokens(others[|others| - |kept| - 1]);
      assert Tokens(Window(system, others, config.maxTokens)) + next > config.maxTokens by {
        WindowMaximal(system, others, config.maxTokens);
      }
      assert Tokens(Windowed(ms, config)) == Tokens(Window(system, others, config.maxTokens));
    }
  }

  /** The sliding window never drops a preserved system message. */
  lemma {:induction false} WindowKeepsSystem(ms: seq<Message>, config: ContextConfig)
    ensures SystemMessages(Windowed(ms, config), config.preserveSystemMessage)
         == SystemMessages(ms, config.preserveSystemMessage)
  {
    var p := config.preserveSystemMessage;
    var system, others := SystemMessages(ms, p), OtherMessages(ms, p);
    var out := Window(system, others, config.maxTokens);
    assert Windowed(ms, config) == out;
    WindowShape(system, others, config.maxTokens);
    var n := |out| - |system|;
    assert out == system + others[|others| - n..];
    SystemThenOtherSuffix(ms, p, |others| - n);
  }

  // ---------------------------------------------------------------------
  // Summarization

  /** One line of the conversation text: `"{role}: {content}"`. */
  function ConversationLine(m: Message): string {
    RoleName(m.role) + ": " + m.content
  }

  function ConversationLines(ms: seq<Message>): (r: seq<string>)
    ensures |r| == |ms|
    ensures forall i :: 0 <= i < |ms| ==> r[i] == ConversationLine(ms[i])
  {
    if ms == [] then [] else ConversationLines(ms[..|ms| - 1]) + [ConversationLine(ms[|ms| - 1])]
  }

  const SummaryHead: string := "Summary of "
  const SummaryCount: string := " messages: "

  /**
   * The placeholder summarizer: the message count and the first 200
   * characters of the newline-joined `role: content` lines, then `...`.
   */
  function SummarizeMessages(ms: seq<Message>): (r: string)
    ensures var text := Text.Join("\n", ConversationLines(ms));
      var head := SummaryHead + Text.NatToString(|ms|) + SummaryCount;
      var n := Slices.Min(200, |text|);
      && |r| == |head| + n + 3
      && r[..|head|] == head
      && r[|head|..|head| + n] == text[..n]
      && r[|r| - 3..] == "..."
  {
    var text := Text.Join("\n", ConversationLines(ms));
    var head := SummaryHead + Text.NatToString(|ms|) + SummaryCount;
    var r := head + Slices.Take(text, 200) + "...";
    assert r[|head|..|head| + Slices.Min(200, |text|)] == Slices.Take(text, 200);
    r
  }

  const SummaryPrefix: string := "[Previous conversation summary]: "

  /** How many of the newest non-system messages summarization keeps: at least 2. */
  function SummarizationKeep(config: ContextConfig, systemCount: nat): (k: nat)
    ensures k >= 2 && k >= config.maxTurns - systemCount
    ensures k == 2 || k == config.maxTurns - systemCount
  {
    if config.maxTurns - systemCount < 2 then 2 else config.maxTurns - systemCount
  }

  /** What summarization returns. */
  function Summarized(attached: bool, ms: seq<Message>, config: ContextConfig): Reduction {
    if |ms| <= config.maxTurns then (ms, None)
    else
      var system := SystemMessages(ms, config.preserveSystemMessage);
      var others := OtherMessages(ms, config.preserveSystemMessage);
      var keep := SummarizationKeep(config, |system|);
      var older, newer := Slices.Take(others, -(keep as int)), Slices.Drop(others, -(keep as int));
      if older != [] && attached then
        var summary := SummarizeMessages(older);
        (system + [Plain(System, SummaryPrefix + summary)] + newer, Some(summary))
      else (system + newer, None)
  }

  method SummarizationReduce(attached: bool, ms: seq<Message>, config: ContextConfig) returns (out: seq<Message>, summary: Option<string>)
    ensures (out, summary) == Summarized(attached, ms, config)
  {
    if |ms| <= config.maxTurns {
      return ms, None;
    }
    var system, others := Partition(ms, config.preserveSystemMessage);
    var keepCount := config.maxTurns - |system|;
    if keepCount < 2 {
      keepCount := 2;
    }
    var older, newer;
    if keepCount > 0 {
      older, newer := Slices.Take(others, -keepCount), Slices.Drop(others, -keepCount);
    } else {
      older, newer := others, [];
    }
    summary := None;
    if older != [] && attached {
      var text := SummarizeMessages(older);
      summary := Some(text);
      out := system + [Plain(System, SummaryPrefix + text)] + newer;
    } else {
      out := system + newer;
    }
    SummarizedUnfolded(attached, ms, config);
  }

  /** `Summarized` over the limit, spelled out. */
  lemma {:induction false} SummarizedUnfolded(attached: bool, ms: seq<Message>, config: ContextConfig)
    requires |ms| > config.maxTurns
    ensures var system := SystemMessages(ms, config.preserveSystemMessage);
      var others := OtherMessages(ms, config.preserveSystemMessage);
      var keep := SummarizationKeep(config, |system|);
      var older, newer := Slices.Take(others, -(keep as int)), Slices.Drop(others, -(keep as int));
      Summarized(attached, ms, config)
        == if older != [] && attached
           then (system + [Plain(System, SummaryPrefix + SummarizeMessages(older))] + newer, Some(SummarizeMessages(older)))
           else (system + newer, None)
  {
  }

  /**
   * Summarization keeps the newest `max(2, max_turns - #system)` other
   * messages after the system messages; everything older is folded into
   * one system message carrying the returned summary, and that happens
   * exactly when older messages exist and a summarizer is attached.
   */
  lemma {:induction false} SummarizedShape(attached: bool, ms: seq<Message>, config: ContextConfig)
    requires |ms| > config.maxTurns
    ensures var system := SystemMessages(ms, config.preserveSystemMessage);
      var others := OtherMessages(ms, config.preserveSystemMessage);
      var n := Slices.Min(SummarizationKeep(config, |system|), |others|);
      var older := others[..|others| - n];
      var (out, summary) := Summarized(attached, ms, config);
      && (summary.Some? <==> attached && |others| > SummarizationKeep(config, |system|))
      && (summary.Some? ==>
            summary.value == SummarizeMessages(older)
            && out == system + [Plain(System, SummaryPrefix + summary.value)] + others[|others| - n..])
      && (summary.None? ==> out == system + others[|others| - n..])
      && older + others[|others| - n..] == others
  {
    var system := SystemMessages(ms, config.preserveSystemMessage);
    var others := OtherMessages(ms, config.preserveSystemMessage);
    var keep := SummarizationKeep(config, |system|);
    var n := Slices.Min(keep, |others|);
    var older, newer := others[..|others| - n], others[|others| - n..];
    Slices.NegativeSlices(others, keep);
    assert Slices.Take(others, -(keep as int)) == older && Slices.Drop(others, -(keep as int)) == newer;
    assert older != [] <==> |others| > keep;
    assert older + newer == others;
  }

  // ---------------------------------------------------------------------
  // Dispatcher

  /** What `strategy.reduce` returns. */
  function Reduce(strategy: Strategy, ms: seq<Message>, config: ContextConfig): Reduction {
    match strategy
    case Truncation => (Truncated(ms, config), None)
    case SlidingWindow => (Windowed(ms, config), None)
    case Summarization(attached) => Summarized(attached, ms, config)
  }

  /** The built-in strategies, by reduction-mode name. */
  const BuiltIn: map<string, Strategy> :=
    map["truncation" := Truncation, "sliding_window" := SlidingWindow, "summarization" := Summarization(true)]

  /** The registry of reduction strategies. */
  class ContextManager {
    var strategies: map<string, Strategy>

    constructor ()
      ensures strategies == BuiltIn
    {
      strategies := BuiltIn;
    }

    /** Adds `strategy` under `name`, replacing an earlier one of that name. */
    method RegisterStrategy(name: string, strategy: Strategy)
      modifies this
      ensures strategies == old(strategies)[name := strategy]
    {
      strategies := strategies[name := strategy];
    }

    /** True exactly when the conversation is over its turn limit or its token limit. */
    method ShouldReduce(ms: seq<Message>, config: ContextConfig) returns (b: bool)
      ensures b <==> |ms| > config.maxTurns || Tokens(ms) > config.maxTokens
    {
      if |ms| > config.maxTurns {
        return true;
      }
      var estimated := EstimateTokens(ms);
      return estimated > config.maxTokens;
    }

    /**
     * A conversation within its limits comes back unchanged with no
     * summary; otherwise the strategy registered under the reduction mode
     * runs, and an unregistered mode raises.
     */
    method ApplyStrategy(ms: seq<Message>, config: ContextConfig) returns (r: Result<Reduction, string>)
      ensures !OverLimits(ms, config) ==> r == Ok((ms, None))
      ensures OverLimits(ms, config) && config.reductionMode !in strategies ==> r.Err?
      ensures OverLimits(ms, config) && config.reductionMode in strategies ==>
                r == Ok(Reduce(strategies[config.reductionMode], ms, config))
    {
      var needed := ShouldReduce(ms, config);
      if !needed {
        return Ok((ms, None));
      }
      if config.reductionMode !in strategies {
        return Err("Unsupported reduction mode: " + config.reductionMode);
      }
      var out, summary;
      match strategies[config.reductionMode] {
        case Truncation =>
          out, summary := TruncationReduce(ms, config);
        case SlidingWindow =>
          out, summary := SlidingWindowReduce(ms, config);
        case Summarization(attached) =>
          out, summary := SummarizationReduce(attached, ms, config);
      }
      return Ok((out, summary));
    }
  }
}
