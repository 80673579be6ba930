/**
 * The records of `src/models/adaptive_summarization.py`: strategy and
 * rule enumerations, the configuration records with the checks their
 * constructors perform, the analysis records, the statistics and the
 * helpers that format preserved content.
 */
module AdaptiveModels {
  import opened Wrappers
  import opened Text
  import opened Messages
  import Slices

  // ---------------------------------------------------------------------
  // Enumerations

  datatype SummarizationStrategy = Hierarchical | Incremental | Selective

  function StrategyName(s: SummarizationStrategy): (n: string)
    ensures n != []
  {
    match s
    case Hierarchical => "hierarchical"
    case Incremental => "incremental"
    case Selective => "selective"
  }

  /** `SummarizationStrategy(value)`: `None` where the enum constructor raises. */
  function ParseStrategy(n: string): (r: Option<SummarizationStrategy>)
    ensures r.Some? ==> StrategyName(r.value) == n
  {
    if n == "hierarchical" then Some(Hierarchical)
    else if n == "incremental" then Some(Incremental)
    else if n == "selective" then Some(Selective)
    else None
  }

  lemma {:induction false} ParseStrategyName(s: SummarizationStrategy)
    ensures ParseStrategy(StrategyName(s)) == Some(s)
  {
  }

  datatype LayerAction = PreserveLayer | DetailedSummary | BriefSummary | Discard

  datatype RuleType = Regex | Keyword | Structure

  datatype RuleAction = PreserveMatch | Highlight | Redact

  function RuleTypeName(t: RuleType): string {
    match t
    case Regex => "regex"
    case Keyword => "keyword"
    case Structure => "structure"
  }

  function RuleActionName(a: RuleAction): string {
    match a
    case PreserveMatch => "preserve"
    case Highlight => "highlight"
    case Redact => "redact"
  }

  datatype EntityType = Person | Org | Gpe | Product | Tech | Version | ConfigInfo

  function EntityTypeName(t: EntityType): string {
    match t
    case Person => "PERSON"
    case Org => "ORG"
    case Gpe => "GPE"
    case Product => "PRODUCT"
    case Tech => "TECH"
    case Version => "VERSION"
    case ConfigInfo => "CONFIG"
  }

  // ---------------------------------------------------------------------
  // Configuration records

  /** One layer of the hierarchical strategy. */
  datatype LayerConfig = LayerConfig(
    name: string,
    priority: int,
    contentTypes: seq<string>,
    action: LayerAction,
    maxTokensPerMessage: Option<int>)

  /** The layer dictionary, in insertion order, keyed by layer name. */
  datatype HierarchicalConfig = HierarchicalConfig(layers: seq<(string, LayerConfig)>)

  /** The three default layers: critical (preserve), important (detailed, 200), normal (brief, 50). */
  const DefaultHierarchicalConfig: HierarchicalConfig := HierarchicalConfig([
    ("critical", LayerConfig("critical", 1,
      ["system_messages", "entities", "code_blocks", "urls", "marked_important"], PreserveLayer, None)),
    ("important", LayerConfig("important", 2,
      ["user_questions", "assistant_answers"], DetailedSummary, Some(200))),
    ("normal", LayerConfig("normal", 3,
      ["confirmations", "chitchat"], BriefSummary, Some(50)))])

  datatype IncrementalConfig = IncrementalConfig(
    summaryWindow: int,
    keepRecent: int,
    maxSummaryDepth: int,
    summaryPrefix: string)

  const DefaultIncrementalConfig: IncrementalConfig := IncrementalConfig(10, 5, 3, "[摘要]")

  datatype SelectiveConfig = SelectiveConfig(preserveThreshold: real, summarizeThreshold: real, discardThreshold: real)

  /** The threshold order every selective configuration keeps. */
  predicate OrderedThresholds(c: SelectiveConfig) {
    c.discardThreshold <= c.summarizeThreshold <= c.preserveThreshold
  }

  /** Building a `SelectiveConfig`: rejected unless discard <= summarize <= preserve. */
  function NewSelectiveConfig(preserve: real, summarize: real, discard: real): (r: Result<SelectiveConfig, string>)
    ensures r.Ok? <==> discard <= summarize <= preserve
    ensures r.Ok? ==> OrderedThresholds(r.value) && r.value == SelectiveConfig(preserve, summarize, discard)
  {
    if !(discard <= summarize && summarize <= preserve) then Err("Invalid threshold configuration")
    else Ok(SelectiveConfig(preserve, summarize, discard))
  }

  const DefaultSelectiveConfig: SelectiveConfig := SelectiveConfig(10.0, 5.0, 2.0)

  datatype ScoringConfig = ScoringConfig(
    hasEntities: real,
    hasCode: real,
    hasUrls: real,
    markedImportant: real,
    isQuestion: real,
    isAnswer: real,
    lengthBonus: real,
    minScore: real,
    maxScore: real)

  const DefaultScoringConfig: ScoringConfig := ScoringConfig(10.0, 15.0, 8.0, 20.0, 5.0, 5.0, 0.01, 0.0, 100.0)

  datatype AnalyzersConfig = AnalyzersConfig(
    entityExtractionEnabled: bool,
    entityTypes: seq<EntityType>,
    codeDetectionEnabled: bool,
    codeMinLines: int,
    codeMaxLines: int,
    preserveInlineCode: bool,
    urlExtractionEnabled: bool,
    urlShorten: bool,
    urlVerifyAlive: bool)

  const DefaultAnalyzersConfig: AnalyzersConfig :=
    AnalyzersConfig(true, [Person, Org, Tech, Version, ConfigInfo], true, 2, 50, true, true, false, false)

  datatype CustomRule = CustomRule(
    ruleType: RuleType,
    action: RuleAction,
    description: string,
    pattern: Option<string>,
    keywords: Option<seq<string>>,
    format: Option<string>)

  /** Python truthiness of an optional string or list: present and non-empty. */
  predicate Given<T>(o: Option<seq<T>>) {
    o.Some? && o.value != []
  }

  /** The configuration a rule of its type needs is present. */
  predicate WellFormedRule(r: CustomRule) {
    (r.ruleType == Regex ==> Given(r.pattern))
    && (r.ruleType == Keyword ==> Given(r.keywords))
    && (r.ruleType == Structure ==> Given(r.format))
  }

  /**
   * Building a `CustomRule`: a regex rule without a pattern, a keyword
   * rule without keywords or a structure rule without a format is
   * rejected; anything else is kept as given.
   */
  function NewCustomRule(
    ruleType: RuleType, action: RuleAction, description: string,
    pattern: Option<string>, keywords: Option<seq<string>>, format: Option<string>): (r: Result<CustomRule, string>)
    ensures r.Ok? <==> WellFormedRule(CustomRule(ruleType, action, description, pattern, keywords, format))
    ensures r.Ok? ==> r.value == CustomRule(ruleType, action, description, pattern, keywords, format)
  {
    if ruleType == Regex && !Given(pattern) then Err("Regex rule must have a pattern")
    else if ruleType == Keyword && !Given(keywords) then Err("Keyword rule must have keywords")
    else if ruleType == Structure && !Given(format) then Err("Structure rule must have a format")
    else Ok(CustomRule(ruleType, action, description, pattern, keywords, format))
  }

  /**
   * The main configuration. The strategy-specific records are optional:
   * a missing one is Python's `None`.
   */
  datatype AdaptiveConfig = AdaptiveConfig(
    enabled: bool,
    strategy: SummarizationStrategy,
    preserveEntities: bool,
    preserveCode: bool,
    preserveUrls: bool,
    hierarchical: Option<HierarchicalConfig>,
    incremental: Option<IncrementalConfig>,
    selective: Option<SelectiveConfig>,
    analyzers: AnalyzersConfig,
    scoring: ScoringConfig,
    customRules: seq<CustomRule>,
    timeoutSeconds: int,
    targetTokens: Option<int>,
    minSummaryLength: int,
    maxSummaryLength: int)

  /**
   * Building an `AdaptiveSummarizationConfig` from its strategy name: an
   * unknown name (the enum conversion) or `min > max` summary length is
   * rejected.
   */
  function NewAdaptiveConfig(
    enabled: bool, strategy: string, preserveEntities: bool, preserveCode: bool, preserveUrls: bool,
    hierarchical: Option<HierarchicalConfig>, incremental: Option<IncrementalConfig>,
    selective: Option<SelectiveConfig>, analyzers: AnalyzersConfig, scoring: ScoringConfig,
    customRules: seq<CustomRule>, timeoutSeconds: int, targetTokens: Option<int>,
    minSummaryLength: int, maxSummaryLength: int): (r: Result<AdaptiveConfig, string>)
    ensures r.Ok? <==> ParseStrategy(strategy).Some? && minSummaryLength <= maxSummaryLength
    ensures r.Ok? ==> StrategyName(r.value.strategy) == strategy
    ensures r.Ok? ==> r.value.minSummaryLength <= r.value.maxSummaryLength
    ensures r.Ok? ==> r.value == AdaptiveConfig(enabled, r.value.strategy, preserveEntities, preserveCode,
                                                preserveUrls, hierarchical, incremental, selective, analyzers,
                                                scoring, customRules, timeoutSeconds, targetTokens,
                                                minSummaryLength, maxSummaryLength)
  {
    match ParseStrategy(strategy)
    case None => Err("unknown summarization strategy")
    case Some(s) =>
      if minSummaryLength > maxSummaryLength then Err("min_summary_length must be <= max_summary_length")
      else Ok(AdaptiveConfig(enabled, s, preserveEntities, preserveCode, preserveUrls, hierarchical,
                             incremental, selective, analyzers, scoring, customRules, timeoutSeconds,
                             targetTokens, minSummaryLength, maxSummaryLength))
  }

  // ---------------------------------------------------------------------
  // Analysis records

  datatype Entity = Entity(text: string, entityType: EntityType, start: int, end: int, confidence: real)

  datatype CodeBlock = CodeBlock(content: string, language: Option<string>, start: int, end: int, isInline: bool)

  /** `CodeBlock.line_count`: the number of parts `content.split('\n')` yields. */
  function LineCount(b: CodeBlock): nat {
    |Split(b.content, '\n')|
  }

  /** A block has one line more than it has newline characters. */
  lemma {:induction false} LineCountIsNewlines(b: CodeBlock)
    ensures LineCount(b) == Count(b.content, '\n') + 1
  {
    SplitLength(b.content, '\n');
  }

  datatype RuleMatch = RuleMatch(rule: CustomRule, matchedText: string, start: int, end: int)

  const HighlightPrefix: string := "[IMPORTANT] "
  const Redacted: string := "[REDACTED]"

  /**
   * `RuleMatch.apply_action`: preserving keeps the matched text,
   * highlighting keeps it behind a marker, redaction hides it entirely.
   */
  function ApplyAction(m: RuleMatch): (r: string)
    ensures m.rule.action != Redact ==> |r| >= |m.matchedText| && r[|r| - |m.matchedText|..] == m.matchedText
    ensures m.rule.action == PreserveMatch ==> r == m.matchedText
    ensures m.rule.action == Highlight ==> r == HighlightPrefix + m.matchedText
    ensures m.rule.action == Redact ==> r == Redacted
  {
    match m.rule.action
    case PreserveMatch => m.matchedText
    case Highlight => HighlightPrefix + m.matchedText
    case Redact => Redacted
  }

  /** Redacted output does not depend on the matched text. */
  lemma {:induction false} RedactionHidesText(m: RuleMatch, text: string)
    requires m.rule.action == Redact
    ensures ApplyAction(m.(matchedText := text)) == ApplyAction(m)
  {
  }

  /** The result of analysing one piece of text. */
  datatype ContentAnalysis = ContentAnalysis(
    entities: seq<Entity>,
    codeBlocks: seq<CodeBlock>,
    urls: seq<string>,
    ruleMatches: seq<RuleMatch>,
    hasEntities: bool,
    hasCode: bool,
    hasUrls: bool,
    hasImportantMarker: bool,
    isQuestion: bool,
    isAnswer: bool)

  /** The flags `__post_init__` recomputes agree with the lists. */
  predicate FlagsAgree(a: ContentAnalysis) {
    (a.hasEntities <==> a.entities != [])
    && (a.hasCode <==> a.codeBlocks != [])
    && (a.hasUrls <==> a.urls != [])
  }

  /** Building a `ContentAnalysis`: the three derived flags always follow the lists. */
  function MakeAnalysis(
    entities: seq<Entity>, codeBlocks: seq<CodeBlock>, urls: seq<string>, ruleMatches: seq<RuleMatch>,
    hasImportantMarker: bool, isQuestion: bool, isAnswer: bool): (a: ContentAnalysis)
    ensures FlagsAgree(a)
    ensures a.entities == entities && a.codeBlocks == codeBlocks && a.urls == urls && a.ruleMatches == ruleMatches
    ensures a.hasImportantMarker == hasImportantMarker && a.isQuestion == isQuestion && a.isAnswer == isAnswer
  {
    ContentAnalysis(entities, codeBlocks, urls, ruleMatches, |entities| > 0, |codeBlocks| > 0, |urls| > 0,
                    hasImportantMarker, isQuestion, isAnswer)
  }

  // ---------------------------------------------------------------------
  // Preserved content, statistics and results

  datatype PreservedEntity = PreservedEntity(text: string, entityType: EntityType, role: Role)
  datatype PreservedCode = PreservedCode(language: Option<string>, lines: nat, role: Role)
  datatype PreservedMatch = PreservedMatch(text: string, ruleType: RuleType, action: RuleAction)

  /** The dictionary of preserved lists the orchestrator assembles. */
  datatype PreservedContent = PreservedContent(
    entities: seq<PreservedEntity>,
    codeBlocks: seq<PreservedCode>,
    urls: seq<string>,
    customMatches: seq<PreservedMatch>)

  const NothingPreserved: PreservedContent := PreservedContent([], [], [], [])

  datatype Statistics = Statistics(
    originalTokens: int,
    summarizedTokens: int,
    compressionRatio: real,
    entitiesPreserved: nat,
    codeBlocksPreserved: nat,
    urlsPreserved: nat,
    executionTimeMs: real)

  /**
   * `SummarizationStatistics.calculate`: the ratio is the fraction of
   * tokens saved, `1 - s/o`, or 0 when there was nothing to start with.
   */
  function CalculateStatistics(originalTokens: int, summarizedTokens: int, preserved: PreservedContent, executionTimeMs: real): (st: Statistics)
    ensures originalTokens > 0 ==> st.compressionRatio + summarizedTokens as real / originalTokens as real == 1.0
    ensures originalTokens <= 0 ==> st.compressionRatio == 0.0
    ensures st.entitiesPreserved == |preserved.entities| && st.codeBlocksPreserved == |preserved.codeBlocks|
    ensures st.urlsPreserved == |preserved.urls|
    ensures st.originalTokens == originalTokens && st.summarizedTokens == summarizedTokens
    ensures st.executionTimeMs == executionTimeMs
  {
    var ratio := if originalTokens > 0 then 1.0 - summarizedTokens as real / originalTokens as real else 0.0;
    Statistics(originalTokens, summarizedTokens, ratio, |preserved.entities|, |preserved.codeBlocks|,
               |preserved.urls|, executionTimeMs)
  }

  /** When the output is no larger than the input, the saved fraction lies in [0, 1]. */
  lemma {:induction false} SavedFractionBounds(o: int, s: int, preserved: PreservedContent, t: real)
    requires 0 <= s <= o
    ensures 0.0 <= CalculateStatistics(o, s, preserved, t).compressionRatio <= 1.0
    ensures s == o ==> CalculateStatistics(o, s, preserved, t).compressionRatio == 0.0
  {
    if o > 0 {
      assert s as real / o as real <= 1.0 by {
        assert s as real <= o as real;
      }
    }
  }

  datatype SummarizationResult = SummarizationResult(
    messages: seq<Message>,
    preserved: PreservedContent,
    statistics: Statistics,
    strategyUsed: SummarizationStrategy,
    success: bool,
    errorMessage: Option<string>)

  /** `estimate_tokens(text)`: one token per four characters, rounded down. */
  function EstimateTextTokens(text: string): (t: nat)
    ensures 4 * t <= |text| < 4 * t + 4
  {
    |text| / 4
  }

  // ---------------------------------------------------------------------
  // format_preserved_content

  function EntityTexts(es: seq<Entity>): (r: seq<string>)
    ensures |r| == |es|
    ensures forall i :: 0 <= i < |es| ==> r[i] == es[i].text
  {
    if es == [] then [] else EntityTexts(es[..|es| - 1]) + [es[|es| - 1].text]
  }

  const EntitiesHead: string := "关键信息："
  const CodeHead: string := "代码块 "
  const UrlsHead: string := "链接："

  /** The section for the `i`-th code block (numbered from 1). */
  function CodeSection(i: nat, b: CodeBlock): (r: string)
    ensures r != []
  {
    CodeHead + NatToString(i) + "：\n```" + b.language.GetOr("") + "\n" + b.content + "\n```"
  }

  /** The code sections for `blocks`, numbered from `first`. */
  function CodeSections(first: nat, blocks: seq<CodeBlock>): (r: seq<string>)
    ensures |r| == |blocks|
    ensures forall i :: 0 <= i < |blocks| ==> r[i] == CodeSection(first + i, blocks[i])
    decreases |blocks|
  {
    if blocks == [] then [] else [CodeSection(first, blocks[0])] + CodeSections(first + 1, blocks[1..])
  }

  /** The non-empty sections in output order: entities, code blocks, URLs. */
  function PreservedSections(entities: seq<Entity>, blocks: seq<CodeBlock>, urls: seq<string>): (parts: seq<string>)
    ensures |parts| == (if entities != [] then 1 else 0) + |blocks| + (if urls != [] then 1 else 0)
    ensures forall i :: 0 <= i < |parts| ==> parts[i] != []
  {
    (if entities != [] then [EntitiesHead + Join(", ", EntityTexts(entities))] else [])
    + CodeSections(1, blocks)
    + (if urls != [] then [UrlsHead + Join(", ", urls)] else [])
  }

  function FormatPreservedContent(entities: seq<Entity>, blocks: seq<CodeBlock>, urls: seq<string>): string {
    Join("\n\n", PreservedSections(entities, blocks, urls))
  }

  /** A join of non-empty parts is empty exactly when there are no parts. */
  lemma {:induction false} JoinEmptyIff(sep: string, parts: seq<string>)
    requires forall i :: 0 <= i < |parts| ==> parts[i] != []
    ensures Join(sep, parts) == [] <==> parts == []
  {
    if |parts| > 1 {
      assert Join(sep, parts) == parts[0] + sep + Join(sep, parts[1..]);
      assert |Join(sep, parts)| >= |parts[0]|;
    }
  }

  /** The formatted block is empty iff nothing at all was preserved. */
  lemma {:induction false} FormatPreservedEmpty(entities: seq<Entity>, blocks: seq<CodeBlock>, urls: seq<string>)
    ensures FormatPreservedContent(entities, blocks, urls) == [] <==> entities == [] && blocks == [] && urls == []
  {
    JoinEmptyIff("\n\n", PreservedSections(entities, blocks, urls));
  }

  /** With only URLs preserved, the block is the URL heading and the comma-joined URLs. */
  lemma {:induction false} FormatOnlyUrls(urls: seq<string>)
    requires urls != []
    ensures FormatPreservedContent([], [], urls) == UrlsHead + Join(", ", urls)
  {
    assert PreservedSections([], [], urls) == [UrlsHead + Join(", ", urls)];
  }
}
