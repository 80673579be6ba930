/**
 * The adaptive summarization orchestrator: configuration checks, the
 * quality gate a strategy's output must pass, the deterministic fallback
 * used when it does not (or when the strategy fails or times out), the
 * preserved-content record and the statistics of one `summarize` call.
 *
 * A strategy that raises or times out is an input of the model
 * (`failed`); the wall-clock duration is an input too.
 */
module AdaptiveManager {
  import opened Wrappers
  import opened Messages
  import opened AdaptiveModels
  import ContentAnalyzers
  import HierarchicalStrategy
  import SelectiveStrategy
  import IncrementalStrategy
  import ContextManagement
  import Slices
  import Timestamps

  // ---------------------------------------------------------------------
  // Configuration checks

  /**
   * `_validate_config`: nothing is checked when the feature is disabled;
   * otherwise the chosen strategy needs its configuration, a set
   * `target_tokens` must be at least 100 and the summary length bounds
   * must be ordered.
   */
  function ValidateConfig(c: AdaptiveConfig): (r: Result<(), string>)
    ensures !c.enabled ==> r.Ok?
    ensures c.enabled ==> (r.Ok? <==>
      (c.strategy == Hierarchical ==> c.hierarchical.Some?)
      && (c.strategy == Incremental ==> c.incremental.Some?)
      && (c.strategy == Selective ==> c.selective.Some?)
      && !(c.targetTokens.Some? && c.targetTokens.value != 0 && c.targetTokens.value < 100)
      && c.minSummaryLength <= c.maxSummaryLength)
  {
    if !c.enabled then Ok(())
    else if c.strategy == Hierarchical && c.hierarchical.None? then Err("Hierarchical strategy requires hierarchical_config")
    else if c.strategy == Incremental && c.incremental.None? then Err("Incremental strategy requires incremental_config")
    else if c.strategy == Selective && c.selective.None? then Err("Selective strategy requires selective_config")
    else if c.targetTokens.Some? && c.targetTokens.value != 0 && c.targetTokens.value < 100 then Err("target_tokens must be at least 100")
    else if c.minSummaryLength > c.maxSummaryLength then Err("min_summary_length must be <= max_summary_length")
    else Ok(())
  }

  /**
   * Everything construction checks: the hierarchical and selective
   * strategies built from the configurations present must accept them
   * (`_init_strategies`), then `_validate_config` must pass.
   */
  predicate Accepted(c: AdaptiveConfig) {
    (c.hierarchical.Some? ==>
      c.hierarchical.value.layers != [] && HierarchicalStrategy.Distinct(HierarchicalStrategy.Priorities(c.hierarchical.value)))
    && (c.selective.Some? ==> OrderedThresholds(c.selective.value))
    && ValidateConfig(c).Ok?
  }

  /** The analyzers the orchestrator builds from its configuration and custom rules. */
  function AnalyzersOf(c: AdaptiveConfig, o: ContentAnalyzers.Oracles): ContentAnalyzers.Analyzers {
    ContentAnalyzers.Analyzers(c.analyzers, c.customRules, o)
  }

  // ---------------------------------------------------------------------
  // Quality gate

  /**
   * `_check_quality`, in the order of its early returns: content length
   * within `[min, max]`, the token target (when set and non-zero) met, and
   * a strictly smaller token estimate than the input's.
   */
  predicate CheckQuality(c: AdaptiveConfig, original: seq<Message>, summarized: seq<Message>) {
    var length := ContentLength(summarized);
    if length < c.minSummaryLength then false
    else if length > c.maxSummaryLength then false
    else if c.targetTokens.Some? && c.targetTokens.value != 0 && Tokens(summarized) > c.targetTokens.value then false
    else Tokens(summarized) < Tokens(original)
  }

  /** The quality gate holds exactly when all three requirements hold. */
  lemma {:induction false} CheckQualityIff(c: AdaptiveConfig, original: seq<Message>, summarized: seq<Message>)
    ensures CheckQuality(c, original, summarized) <==>
      c.minSummaryLength <= ContentLength(summarized) <= c.maxSummaryLength
      && (c.targetTokens.None? || c.targetTokens.value == 0 || Tokens(summarized) <= c.targetTokens.value)
      && Tokens(summarized) < Tokens(original)
  {
  }

  // ---------------------------------------------------------------------
  // Fallback

  /** How many non-system messages the fallback keeps. */
  const FallbackKeep: nat := 5

  /**
   * `_create_fallback_summary`: the system messages, then the last five
   * other messages (all of them when there are at most five).
   */
  function Fallback(ms: seq<Message>): (r: seq<Message>)
    ensures var others := OtherMessages(ms, true);
      r == SystemMessages(ms, true) + others[|others| - Slices.Min(FallbackKeep, |others|)..]
  {
    var others := OtherMessages(ms, true);
    var kept := if |others| > 5 then Slices.Drop(others, -5) else others;
    Slices.NegativeSlices(others, 5);
    SystemMessages(ms, true) + kept
  }

  /** The token estimate of the two parts adds up to that of the whole. */
  lemma {:induction false} TokensPartition(ms: seq<Message>)
    ensures Tokens(SystemMessages(ms, true)) + Tokens(OtherMessages(ms, true)) == Tokens(ms)
  {
    if ms != [] {
      var init, last := ms[..|ms| - 1], ms[|ms| - 1];
      TokensPartition(init);
      TokensAppend(SystemMessages(init, true), [last]);
      TokensAppend(OtherMessages(init, true), [last]);
      TokensSingle(last);
    }
  }

  /** The fallback never estimates above its input. */
  lemma {:induction false} FallbackNoLarger(ms: seq<Message>)
    ensures Tokens(Fallback(ms)) <= Tokens(ms)
    ensures |Fallback(ms)| <= |ms|
  {
    var system, others := SystemMessages(ms, true), OtherMessages(ms, true);
    var k := |others| - Slices.Min(FallbackKeep, |others|);
    TokensPartition(ms);
    PartitionPermutation(ms, true);
    assert others == others[..k] + others[k..];
    TokensAppend(others[..k], others[k..]);
    TokensAppend(system, others[k..]);
  }

  /** Falling back twice is falling back once. */
  lemma {:induction false} FallbackIdempotent(ms: seq<Message>)
    ensures Fallback(Fallback(ms)) == Fallback(ms)
  {
    var system, others := SystemMessages(ms, true), OtherMessages(ms, true);
    var k := |others| - Slices.Min(FallbackKeep, |others|);
    var kept := others[k..];
    PartsArePure(ms, true);
    OtherSuffixHasNoSystem(ms, true, k);
    SystemMessagesAppend(system, kept, true);
    assert SystemMessages(Fallback(ms), true) == system;
    assert OtherMessages(Fallback(ms), true) == kept;
  }

  // ---------------------------------------------------------------------
  // Preserved content

  /** An analysis of a message's text: the content analyzers' `analyze`. */
  type Analyze = string -> ContentAnalysis

  function EntityRecords(es: seq<Entity>, role: Role): seq<PreservedEntity> {
    seq(|es|, i requires 0 <= i < |es| => PreservedEntity(es[i].text, es[i].entityType, role))
  }

  function CodeRecords(bs: seq<CodeBlock>, role: Role): seq<PreservedCode> {
    seq(|bs|, i requires 0 <= i < |bs| => PreservedCode(bs[i].language, LineCount(bs[i]), role))
  }

  function MatchRecords(ms: seq<RuleMatch>): seq<PreservedMatch> {
    seq(|ms|, i requires 0 <= i < |ms| => PreservedMatch(ms[i].matchedText, ms[i].rule.ruleType, ms[i].rule.action))
  }

  /**
   * What one message contributes: its entities, code blocks and URLs when
   * the matching preservation flag is set, and its rule matches always.
   */
  function PreservedOf(c: AdaptiveConfig, role: Role, a: ContentAnalysis): PreservedContent {
    PreservedContent(
      if c.preserveEntities then EntityRecords(a.entities, role) else [],
      if c.preserveCode then CodeRecords(a.codeBlocks, role) else [],
      if c.preserveUrls then a.urls else [],
      MatchRecords(a.ruleMatches))
  }

  function Combine(p: PreservedContent, q: PreservedContent): PreservedContent {
    PreservedContent(p.entities + q.entities, p.codeBlocks + q.codeBlocks, p.urls + q.urls, p.customMatches + q.customMatches)
  }

  /** `_apply_content_preservation`: the contributions of all messages, in message order. */
  function Preserved(c: AdaptiveConfig, analyze: Analyze, ms: seq<Message>): PreservedContent {
    if ms == [] then NothingPreserved
    else
      var last := ms[|ms| - 1];
      Combine(Preserved(c, analyze, ms[..|ms| - 1]), PreservedOf(c, last.role, analyze(last.content)))
  }

  /** Preservation distributes over concatenation of the message list. */
  lemma {:induction false} PreservedAppend(c: AdaptiveConfig, analyze: Analyze, a: seq<Message>, b: seq<Message>)
    ensures Preserved(c, analyze, a + b) == Combine(Preserved(c, analyze, a), Preserved(c, analyze, b))
    decreases |b|
  {
    if b == [] {
      assert a + b == a;
    } else {
      var init, last := b[..|b| - 1], b[|b| - 1];
      assert (a + b)[..|a + b| - 1] == a + init;
      assert (a + b)[|a + b| - 1] == last;
      PreservedAppend(c, analyze, a, init);
      var x := PreservedOf(c, last.role, analyze(last.content));
      assert Preserved(c, analyze, a + b) == Combine(Preserved(c, analyze, a + init), x);
      assert Preserved(c, analyze, b) == Combine(Preserved(c, analyze, init), x);
      CombineAssociative(Preserved(c, analyze, a), Preserved(c, analyze, init), x);
    }
  }

  lemma {:induction false} CombineAssociative(p: PreservedContent, q: PreservedContent, r: PreservedContent)
    ensures Combine(Combine(p, q), r) == Combine(p, Combine(q, r))
  {
    assert p.entities + q.entities + r.entities == p.entities + (q.entities + r.entities);
    assert p.codeBlocks + q.codeBlocks + r.codeBlocks == p.codeBlocks + (q.codeBlocks + r.codeBlocks);
    assert p.urls + q.urls + r.urls == p.urls + (q.urls + r.urls);
    assert p.customMatches + q.customMatches + r.customMatches == p.customMatches + (q.customMatches + r.customMatches);
  }

  /** A single message contributes exactly its own record. */
  lemma {:induction false} PreservedSingle(c: AdaptiveConfig, analyze: Analyze, m: Message)
    ensures Preserved(c, analyze, [m]) == PreservedOf(c, m.role, analyze(m.content))
  {
    assert [m][..0] == [];
  }

  /** A preservation flag that is off leaves its list empty, however many messages there are. */
  lemma {:induction false} PreservedRespectsFlags(c: AdaptiveConfig, analyze: Analyze, ms: seq<Message>)
    ensures !c.preserveEntities ==> Preserved(c, analyze, ms).entities == []
    ensures !c.preserveCode ==> Preserved(c, analyze, ms).codeBlocks == []
    ensures !c.preserveUrls ==> Preserved(c, analyze, ms).urls == []
  {
    if ms != [] {
      PreservedRespectsFlags(c, analyze, ms[..|ms| - 1]);
    }
  }

  /** The preservation loop, proved against `Preserved`. */
  method ApplyContentPreservation(c: AdaptiveConfig, an: ContentAnalyzers.Analyzers, ms: seq<Message>) returns (p: PreservedContent)
    ensures p == Preserved(c, t => ContentAnalyzers.Analysis(an, t), ms)
  {
    ghost var analyze: Analyze := t => ContentAnalyzers.Analysis(an, t);
    p := NothingPreserved;
    for i := 0 to |ms|
      invariant p == Preserved(c, analyze, ms[..i])
    {
      var a := ContentAnalyzers.Analyze(an, ms[i].content);
      assert ms[..i + 1][..i] == ms[..i];
      p := Combine(p, PreservedOf(c, ms[i].role, a));
    }
    assert ms[..|ms|] == ms;
  }

  // ---------------------------------------------------------------------
  // Outcome of one call

  /** The message list a call ends with: the strategy's output if it exists and passes the gate, else the fallback. */
  function Finalize(c: AdaptiveConfig, ms: seq<Message>, attempt: Option<seq<Message>>): seq<Message> {
    if attempt.None? || !CheckQuality(c, ms, attempt.value) then Fallback(ms) else attempt.value
  }

  /** `summarized / original`, or 1.0 when there was nothing to start with. */
  function Ratio(original: nat, summarized: nat): real {
    if original > 0 then summarized as real / original as real else 1.0
  }

  /** The result of an enabled call that ran `used`. */
  function Finished(c: AdaptiveConfig, analyze: Analyze, ms: seq<Message>, attempt: Option<seq<Message>>,
                    used: SummarizationStrategy, elapsedMs: real): SummarizationResult
  {
    var out := Finalize(c, ms, attempt);
    var p := Preserved(c, analyze, ms);
    SummarizationResult(out, p,
      Statistics(Tokens(ms), Tokens(out), Ratio(Tokens(ms), Tokens(out)), |p.entities|, |p.codeBlocks|, |p.urls|, elapsedMs),
      used, true, None)
  }

  /**
   * The tail of `summarize` once the strategy has run (or failed): the
   * quality gate and fallback, content preservation and the statistics.
   */
  method Finish(c: AdaptiveConfig, an: ContentAnalyzers.Analyzers, ms: seq<Message>, attempt: Option<seq<Message>>,
                used: SummarizationStrategy, elapsedMs: real) returns (result: SummarizationResult)
    ensures result == Finished(c, t => ContentAnalyzers.Analysis(an, t), ms, attempt, used, elapsedMs)
  {
    var originalTokens := ContextManagement.EstimateTokens(ms);
    var final := if attempt.None? || !CheckQuality(c, ms, attempt.value) then Fallback(ms) else attempt.value;
    var preserved := ApplyContentPreservation(c, an, ms);
    var summarizedTokens := ContextManagement.EstimateTokens(final);
    var ratio := if originalTokens > 0 then summarizedTokens as real / originalTokens as real else 1.0;
    var stats := Statistics(originalTokens, summarizedTokens, ratio, |preserved.entities|,
                            |preserved.codeBlocks|, |preserved.urls|, elapsedMs);
    result := SummarizationResult(final, preserved, stats, used, true, None);
  }

  /** The result of a call while the feature is disabled. */
  function Disabled(c: AdaptiveConfig, ms: seq<Message>): SummarizationResult {
    SummarizationResult(ms, NothingPreserved, Statistics(Tokens(ms), Tokens(ms), 1.0, 0, 0, 0, 0.0), c.strategy, true, None)
  }

  /** Disabled: the input comes back unchanged, with equal token counts and ratio 1. */
  lemma {:induction false} DisabledIsIdentity(c: AdaptiveConfig, ms: seq<Message>)
    ensures Disabled(c, ms).messages == ms
    ensures Disabled(c, ms).statistics.originalTokens == Disabled(c, ms).statistics.summarizedTokens
    ensures Disabled(c, ms).statistics.compressionRatio == 1.0
  {
  }

  /**
   * A failed or timed-out strategy, or an output that misses the quality
   * gate, leaves exactly the fallback of the original input; an output
   * that passes is returned as it is.
   */
  lemma {:induction false} FinishedFallsBack(c: AdaptiveConfig, analyze: Analyze, ms: seq<Message>, attempt: Option<seq<Message>>,
                          used: SummarizationStrategy, elapsedMs: real)
    ensures attempt.None? ==> Finished(c, analyze, ms, attempt, used, elapsedMs).messages == Fallback(ms)
    ensures attempt.Some? && !CheckQuality(c, ms, attempt.value) ==> Finished(c, analyze, ms, attempt, used, elapsedMs).messages == Fallback(ms)
    ensures attempt.Some? && CheckQuality(c, ms, attempt.value) ==> Finished(c, analyze, ms, attempt, used, elapsedMs).messages == attempt.value
  {
  }

  /** Whatever happens, an enabled call never ends larger than its input. */
  lemma {:induction false} FinishedNoLarger(c: AdaptiveConfig, analyze: Analyze, ms: seq<Message>, attempt: Option<seq<Message>>,
                         used: SummarizationStrategy, elapsedMs: real)
    ensures Tokens(Finished(c, analyze, ms, attempt, used, elapsedMs).messages) <= Tokens(ms)
  {
    FallbackNoLarger(ms);
  }

  /**
   * The reported ratio lies in `[0, 1]`, and it is below 1 whenever the
   * strategy's own output was kept.
   */
  lemma {:induction false} FinishedRatio(c: AdaptiveConfig, analyze: Analyze, ms: seq<Message>, attempt: Option<seq<Message>>,
                      used: SummarizationStrategy, elapsedMs: real)
    ensures 0.0 <= Finished(c, analyze, ms, attempt, used, elapsedMs).statistics.compressionRatio <= 1.0
    ensures attempt.Some? && CheckQuality(c, ms, attempt.value) ==>
      Finished(c, analyze, ms, attempt, used, elapsedMs).statistics.compressionRatio < 1.0
  {
    var out := Finalize(c, ms, attempt);
    assert Finished(c, analyze, ms, attempt, used, elapsedMs).statistics.compressionRatio == Ratio(Tokens(ms), Tokens(out));
    assert Tokens(out) <= Tokens(ms) by {
      FallbackNoLarger(ms);
    }
    if ms != [] {
      assert Tokens(ms) > 0 by {
        TokensLowerBound(ms);
      }
      RatioBounds(Tokens(ms), Tokens(out));
    }
  }

  /** For `0 < original` and `summarized <= original` the ratio recovers `summarized` and lies in `[0, 1]`. */
  lemma {:induction false} RatioBounds(original: nat, summarized: nat)
    requires 0 < original && summarized <= original
    ensures Ratio(original, summarized) * original as real == summarized as real
    ensures 0.0 <= Ratio(original, summarized) <= 1.0
    ensures summarized < original ==> Ratio(original, summarized) < 1.0
  {
    var o, s := original as real, summarized as real;
    assert (s / o) * o == s;
    assert s / o <= 1.0 by {
      assert s <= o;
    }
    if summarized < original {
      assert s / o < 1.0 by {
        assert s < o;
      }
    }
  }

  /**
   * The orchestrator's ratio and `SummarizationStatistics.calculate`'s
   * disagree: for a non-empty input they add up to 1 (one reports the
   * fraction kept, the other the fraction saved), and for an empty one
   * they are 1 and 0.
   */
  lemma {:induction false} RatiosDisagree(o: nat, s: nat, p: PreservedContent, t: real)
    ensures o > 0 ==> Ratio(o, s) + CalculateStatistics(o, s, p, t).compressionRatio == 1.0
    ensures o == 0 ==> Ratio(o, s) == 1.0 && CalculateStatistics(o, s, p, t).compressionRatio == 0.0
  {
  }

  // ---------------------------------------------------------------------
  // Strategy selection

  /** `strategy_override or config.strategy`, converted to a strategy; `None` for an unknown name. */
  function Chosen(c: AdaptiveConfig, override: Option<string>): (r: Option<SummarizationStrategy>)
    ensures (override.None? || override.value == "") ==> r == Some(c.strategy)
    ensures override.Some? && override.value != "" ==> (r.Some? <==> ParseStrategy(override.value).Some?)
    ensures override.Some? && r.Some? && override.value != "" ==> StrategyName(r.value) == override.value
  {
    if override.Some? && override.value != "" then ParseStrategy(override.value) else Some(c.strategy)
  }

  /** Whether the orchestrator built a strategy of this kind (its configuration was present). */
  predicate Initialized(c: AdaptiveConfig, s: SummarizationStrategy) {
    match s
    case Hierarchical => c.hierarchical.Some?
    case Incremental => c.incremental.Some?
    case Selective => c.selective.Some?
  }

  // ---------------------------------------------------------------------
  // The orchestrator object

  class Manager {
    const config: AdaptiveConfig
    const analyzers: ContentAnalyzers.Analyzers
    const hierarchical: Option<HierarchicalStrategy.Strategy>
    const selective: Option<SelectiveStrategy.Strategy>
    const incremental: Option<IncrementalStrategy.Incremental>

    /** The strategies built match the configurations present, and each keeps its own invariant. */
    ghost predicate Valid()
      reads this, if incremental.Some? then {incremental.value} else {}
    {
      (hierarchical.Some? <==> config.hierarchical.Some?)
      && (selective.Some? <==> config.selective.Some?)
      && (incremental.Some? <==> config.incremental.Some?)
      && (hierarchical.Some? ==> HierarchicalStrategy.Valid(hierarchical.value) && hierarchical.value.analyzers == analyzers)
      && (selective.Some? ==> (OrderedThresholds(selective.value.config) && selective.value.analyzers == analyzers
          && selective.value.config == config.selective.value && selective.value.scoring == config.scoring))
      && (incremental.Some? ==> incremental.value.Valid() && incremental.value.config == config.incremental.value)
    }

    ghost function Analysis(): Analyze {
      t => ContentAnalyzers.Analysis(analyzers, t)
    }

    constructor (c: AdaptiveConfig, o: ContentAnalyzers.Oracles, formatScore: real -> string)
      requires c.hierarchical.Some? ==> HierarchicalStrategy.NamesDistinct(c.hierarchical.value)
      requires Accepted(c)
      ensures config == c && analyzers == AnalyzersOf(c, o)
      ensures Valid()
      ensures hierarchical.Some? ==> hierarchical.value.config == c.hierarchical.value
      ensures incremental.Some? ==> fresh(incremental.value) && incremental.value.states == map[]
    {
      config := c;
      var an := AnalyzersOf(c, o);
      analyzers := an;
      if c.hierarchical.Some? {
        var h := HierarchicalStrategy.NewStrategy(c.hierarchical.value, an);
        hierarchical := Some(h.value);
      } else {
        hierarchical := None;
      }
      if c.incremental.Some? {
        var inc := new IncrementalStrategy.Incremental(c.incremental.value);
        incremental := Some(inc);
      } else {
        incremental := None;
      }
      if c.selective.Some? {
        var s := SelectiveStrategy.NewStrategy(c.selective.value, c.scoring, an, formatScore);
        selective := Some(s.value);
      } else {
        selective := None;
      }
    }

    /**
     * `summarize`. Disabled: the input unchanged. An unknown or unbuilt
     * strategy: an error. Otherwise the strategy runs (unless `failed`
     * says it raised or timed out), its output is gated and replaced by
     * the fallback when needed, and the statistics are computed on the
     * final list.
     */
    method Summarize(ms: seq<Message>, id: string, override: Option<string>, failed: bool,
                     now: Timestamps.DateTime, elapsedMs: real) returns (r: Result<SummarizationResult, string>)
      requires Valid() && Timestamps.Valid(now)
      modifies if incremental.Some? then {incremental.value} else {}
      ensures Valid()
      ensures !config.enabled ==> r == Ok(Disabled(config, ms))
      ensures config.enabled ==>
        (r.Ok? <==> Chosen(config, override).Some? && Initialized(config, Chosen(config, override).value))
      ensures r.Ok? && config.enabled ==> r.value == Finished(config, Analysis(), ms,
        Attempt(Chosen(config, override).value, ms, id, failed, now,
          if incremental.Some? then old(incremental.value.states) else map[]),
        Chosen(config, override).value, elapsedMs)
      ensures incremental.Some? ==> (incremental.value.states ==
        if config.enabled && !failed && Chosen(config, override) == Some(Incremental)
        then IncrementalStrategy.Step(incremental.value.config, old(incremental.value.states), ms, id, now).states
        else old(incremental.value.states))
    {
      if !config.enabled {
        return Ok(Disabled(config, ms));
      }
      var chosen := Chosen(config, override);
      if chosen.None? || !Initialized(config, chosen.value) {
        return Err("Strategy not initialized");
      }
      var attempt: Option<seq<Message>> := None;
      if !failed {
        match chosen.value
        case Hierarchical =>
          var out := HierarchicalStrategy.Apply(hierarchical.value, ms);
          attempt := Some(out);
        case Selective =>
          var out := SelectiveStrategy.Apply(selective.value, ms);
          attempt := Some(out);
        case Incremental =>
          var out := incremental.value.Apply(ms, id, now);
          attempt := Some(out);
      }
      var result := Finish(config, analyzers, ms, attempt, chosen.value, elapsedMs);
      r := Ok(result);
    }

    /** The output the chosen strategy would produce, or `None` when it failed. */
    ghost function Attempt(s: SummarizationStrategy, ms: seq<Message>, id: string, failed: bool,
                           now: Timestamps.DateTime, states: map<string, IncrementalStrategy.SummaryState>): Option<seq<Message>>
      requires Valid() && Initialized(config, s)
      reads this, if incremental.Some? then {incremental.value} else {}
    {
      if failed then None
      else match s
        case Hierarchical => Some(HierarchicalStrategy.Applied(hierarchical.value, ms))
        case Selective => Some(SelectiveStrategy.Applied(selective.value, ms))
        case Incremental => Some(IncrementalStrategy.Step(config.incremental.value, states, ms, id, now).output)
    }

    /** `clear_session`: forgets the incremental state of this session only. */
    method ClearSession(id: string)
      requires Valid()
      modifies if incremental.Some? then {incremental.value} else {}
      ensures Valid()
      ensures incremental.Some? ==> incremental.value.states == old(incremental.value.states) - {id}
    {
      if incremental.Some? {
        incremental.value.ClearSession(id);
      }
    }
  }

  /** Construction: rejected exactly when the configuration is not accepted. */
  method NewManager(c: AdaptiveConfig, o: ContentAnalyzers.Oracles, formatScore: real -> string) returns (r: Result<Manager, string>)
    requires c.hierarchical.Some? ==> HierarchicalStrategy.NamesDistinct(c.hierarchical.value)
    ensures r.Ok? <==> Accepted(c)
    ensures r.Ok? ==> fresh(r.value) && r.value.Valid() && r.value.config == c
  {
    if !Accepted(c) {
      return Err("invalid adaptive summarization configuration");
    }
    var m := new Manager(c, o, formatScore);
    return Ok(m);
  }
}
