# Context control for an OpenAI-compatible API middleware, in Dafny

This project models the core of an API middleware that sits in front of several
OpenAI-compatible providers and keeps each user's conversation within bounds.
The model covers the following parts:

- **Sessions**: the session record and its dictionary form; the in-memory store,
  keyed by session and user; its TTL sweep; and the session manager built on it
  (get-or-create, update, reset, append, delete).
- **Context bounding**: the three built-in reduction strategies (truncation,
  sliding window, placeholder summarization) and the registry that dispatches to
  them when a conversation exceeds its turn or token limit.
- **Adaptive summarization**: the content analyzers (entities, code blocks, URLs,
  user rules, question and answer markers), the importance scorer, and the three
  strategies.
  - Hierarchical: layers chosen by content triggers.
  - Incremental: a running summary per session with a depth cycle.
  - Selective: a score band decides preserve, summarize or discard.
  - The orchestrator that picks a strategy, checks quality, falls back, and
    reports statistics.
- **Configuration**: the provider and model-mapping records with their field
  validators; the cross-reference validator; the provider manager's lookups and
  model-name resolution; and `${VAR}` environment substitution in the loaded tree.
- **Response diagnostics**: classification, structure validation, content
  extraction and log truncation of upstream responses.

The form of each part follows the code:

- Pure logic is written as datatypes and functions.
- Objects whose fields change are classes. The incremental strategy's state map,
  the in-memory store, the context-manager registry, the conversation history and
  the config validator's error list are each a field that the methods reassign.
- Most loops in the source are methods with invariants, each proved equal to a
  specification function. Four loops that only fold a list into a value are
  recursive functions instead, with no method beside them: the providers loop
  (config_loader.py:129-132, `ConfigLoader.SubstituteItems`), the code-section
  loop (adaptive_summarization.py:415-417, `AdaptiveModels.CodeSections`), the
  token accumulation (adaptive_summarization_manager.py:120-124,
  `Messages.Tokens`) and the parts loop (hierarchical_strategy.py:208,
  `HierarchicalStrategy.DetailedParts`).
- Lemmas about those functions state what the code promises: bounds, shape,
  idempotence, round trips, if-and-only-if conditions, and isolation between
  sessions.

Helper modules:

- `Wrappers`: `Option` and `Result`.
- `Slices`: Python slicing with negative and clamped bounds.
- `Text`: Python string helpers, such as `split`, `join`, `rstrip` and `find`.
- `Json`: the dictionaries and lists the code passes around.
- `Messages`: the chat message and its token estimate.
- `Timestamps`: ISO-8601 timestamps and their parser.

## Model

| member | source | states |
|---|---|---|
| Messages.ParseRoleName | src/models/openai.py:7-13 | each of the four role literals parses back to its role |
| Messages.TokensAppend | src/core/context_manager.py:76-84 | the token estimate of a concatenation is the sum of the estimates |
| Messages.TokensLowerBound | src/core/context_manager.py:76-84 | every message costs at least the 4-token overhead, so a list costs at least 4 per message |
| Messages.PartitionPermutation | src/core/context_manager.py:49-57 | splitting into preserved system messages and the rest is a permutation of the input, with the lengths adding up |
| Messages.SystemMessagesAppend | src/core/context_manager.py:49-57 | the split distributes over concatenation |
| Messages.PartsArePure | src/core/context_manager.py:49-57 | splitting either part again changes nothing |
| Messages.ContentTokensOverhead | src/core/context_manager.py:141-146 | the content-only estimate plus 4 per message is the full estimate |
| SessionModel.NewContextConfig | src/models/session.py:9-19 | a context config is accepted iff max_turns >= 1 and max_tokens >= 100, and then holds the given fields |
| SessionModel.MessageRoundTrip | src/models/session.py:57-83 | reading a message back from its dumped dictionary gives the same message |
| SessionModel.MessagesRoundTrip | src/models/session.py:57-83 | the same for a list of messages |
| SessionModel.StringsRoundTrip | src/models/session.py:57-83 | the memory zone list reads back unchanged |
| SessionModel.StateRoundTrip | src/models/session.py:28-43 | SessionState.from_dict(to_dict(s)) == s, and an empty dictionary gives the empty state |
| SessionModel.SessionFromJsonKeys | src/models/session.py:70-82 | from_dict fails without session_id or user_id, reads both verbatim, and defaults total_tokens_used to 0 |
| SessionModel.SessionRoundTrip | src/models/session.py:57-82 | Session.from_dict(to_dict(s)) == s for a session with valid timestamps |
| SessionModel.ConversationHistory.AddMessage | src/models/session.py:93-97 | appends the message, adds len(content) // 4 to the running total, and keeps the total equal to the estimate |
| SessionModel.ConversationHistory.GetRecent | src/models/session.py:99-101 | the last min(n, len) messages for n > 0, nothing otherwise |
| SessionModel.ConversationHistory.EstimateTokens | src/models/session.py:103-109 | the loop computes the sum of len(content) // 4 |
| Timestamps.DigitsPad | src/models/session.py:64-65 | zero-padded digits read back as the same number |
| Timestamps.IsoLayout | src/models/session.py:64-65 | isoformat: 19 characters, or 26 with a six-digit fraction when microseconds are non-zero |
| Timestamps.IsoRoundTrip | src/models/session.py:77-78 | fromisoformat(isoformat(t)) == t for every valid timestamp |
| ContextManagement.EstimateTokens | src/core/context_manager.py:212-228 | the loop computes the sum of len(content) // 4 + 4 over the messages |
| ContextManagement.Partition | src/core/context_manager.py:49-57 | the loop yields exactly the system part and the other part |
| ContextManagement.TruncationReduce | src/core/context_manager.py:35-70 | the truncation strategy returns the truncated list and no summary |
| ContextManagement.TruncatedShape | src/core/context_manager.py:35-70 | over the turn limit, the result is the system messages followed by the newest max(0, max_turns - system) others |
| ContextManagement.TruncationIdempotent | src/core/context_manager.py:35-70 | when the system messages fit, the result fits the turn limit and truncating again changes nothing |
| ContextManagement.TruncationKeepsSystem | src/core/context_manager.py:35-70 | truncation never drops a preserved system message |
| ContextManagement.NewestIsSuffix | src/core/context_manager.py:113-124 | the sliding window keeps a suffix of the non-system messages |
| ContextManagement.NewestFits | src/core/context_manager.py:113-124 | the kept suffix fits the remaining budget |
| ContextManagement.NewestMaximal | src/core/context_manager.py:113-124 | the next older message would not have fitted |
| ContextManagement.KeepNewest | src/core/context_manager.py:113-124 | the backwards loop with `insert(0, …)` computes the newest messages that fit |
| ContextManagement.SlidingWindowReduce | src/core/context_manager.py:86-126 | the sliding window returns the windowed list and no summary |
| ContextManagement.WindowedShape | src/core/context_manager.py:86-126 | system messages first, then a suffix of the others; only the system messages when they exhaust the budget |
| ContextManagement.WindowedFits | src/core/context_manager.py:86-126 | with a positive budget the result fits max_tokens |
| ContextManagement.WindowedMaximal | src/core/context_manager.py:86-126 | with a positive budget, one more message would exceed max_tokens |
| ContextManagement.WindowKeepsSystem | src/core/context_manager.py:86-126 | the sliding window never drops a preserved system message |
| ContextManagement.SummarizationKeep | src/core/context_manager.py:171-173 | summarization keeps at least two recent messages |
| ContextManagement.SummarizationReduce | src/core/context_manager.py:148-198 | the method computes the summarized reduction |
| ContextManagement.SummarizedShape | src/core/context_manager.py:148-198 | a summary is produced iff there are older messages, it summarizes exactly those, and the output is system + summary + recent |
| ContextManagement.ContextManager.constructor | src/core/context_manager.py:204-210 | the registry starts with the three built-in strategies |
| ContextManagement.ContextManager.RegisterStrategy | src/core/context_manager.py:319-327 | registering binds the name to the strategy and changes nothing else |
| ContextManagement.ContextManager.ShouldReduce | src/core/context_manager.py:230-254 | reduce iff over the turn limit or over the token limit |
| ContextManagement.ContextManager.ApplyStrategy | src/core/context_manager.py:256-284 | within limits the input is returned unchanged; an unknown mode is an error; otherwise the registered strategy's reduction |
| AdaptiveModels.ParseStrategyName | src/models/adaptive_summarization.py:17-22 | every strategy name parses back to its strategy |
| AdaptiveModels.NewSelectiveConfig | src/models/adaptive_summarization.py:117-133 | accepted iff discard <= summarize <= preserve |
| AdaptiveModels.NewCustomRule | src/models/adaptive_summarization.py:196-210 | accepted iff the rule carries the field its type needs |
| AdaptiveModels.NewAdaptiveConfig | src/models/adaptive_summarization.py:247-263 | accepted iff the strategy name is known and min_summary_length <= max_summary_length; the accepted record holds that strategy and every other given field |
| AdaptiveModels.LineCountIsNewlines | src/models/adaptive_summarization.py:288-292 | a code block's line count is its number of newlines plus one |
| AdaptiveModels.ApplyAction | src/models/adaptive_summarization.py:301-311 | preserve returns exactly the matched text, highlight prefixes the marker, redact replaces it |
| AdaptiveModels.RedactionHidesText | src/models/adaptive_summarization.py:301-311 | a redacted match's output does not depend on the matched text |
| AdaptiveModels.MakeAnalysis | src/models/adaptive_summarization.py:328-338 | the has_* flags agree with the lists they summarize |
| AdaptiveModels.CalculateStatistics | src/models/adaptive_summarization.py:351-374 | ratio = 1 - summarized/original (0 when original is 0); counts are the preserved list lengths; token counts and execution time are carried through |
| AdaptiveModels.SavedFractionBounds | src/models/adaptive_summarization.py:351-374 | for 0 <= summarized <= original the ratio lies in [0, 1], and it is 0 when nothing was saved |
| AdaptiveModels.EstimateTextTokens | src/models/adaptive_summarization.py:394-400 | the estimate is len(text) // 4 |
| AdaptiveModels.FormatPreservedEmpty | src/models/adaptive_summarization.py:402-422 | the formatted block is empty iff there are no entities, code blocks or URLs |
| AdaptiveModels.FormatOnlyUrls | src/models/adaptive_summarization.py:402-422 | with only URLs the block is the URL header and the comma-joined list |
| ContentAnalyzers.FirstOccurrencesSound | src/core/content_analyzers.py:157-173 | deduplication keeps one element per key, and every key that occurred |
| ContentAnalyzers.DeduplicateEntities | src/core/content_analyzers.py:157-173 | the loop with the `seen` set keeps the first entity of each (lower-cased text, start, end); the entity type is not part of the key |
| ContentAnalyzers.ExtractEntities | src/core/content_analyzers.py:63-86 | the method computes the filtered, deduplicated entities |
| ContentAnalyzers.ExtractedEntitiesSound | src/core/content_analyzers.py:63-86 | nothing when disabled; otherwise distinct, of the configured types, and drawn from the recognizer's output |
| ContentAnalyzers.FencedBlockKept | src/core/content_analyzers.py:203-229 | a fenced block is dropped iff it has fewer than code_min_lines lines; kept blocks keep span, language and, within the cap, content |
| ContentAnalyzers.FencedBlockTruncated | src/core/content_analyzers.py:215-219 | a block over code_max_lines keeps its first max lines plus the truncation marker |
| ContentAnalyzers.DetectMarkdownBlocks | src/core/content_analyzers.py:203-229 | the loop computes the kept fenced blocks |
| ContentAnalyzers.DetectInlineCode | src/core/content_analyzers.py:231-251 | one inline block per inline match, with its span |
| ContentAnalyzers.DetectCode | src/core/content_analyzers.py:187-201 | the method computes fenced blocks, then inline ones when enabled |
| ContentAnalyzers.DetectedCodeSound | src/core/content_analyzers.py:187-201 | nothing when disabled; inline blocks only when inline code is preserved |
| ContentAnalyzers.ShortenUrlShape | src/core/content_analyzers.py:288-302 | a long URL becomes `scheme//host/.../` plus its last 20 characters, or its first 50 plus `...` when it has fewer than three slashes |
| ContentAnalyzers.ExtractedUrlsSound | src/core/content_analyzers.py:262-286 | nothing when disabled; otherwise one entry per distinct URL found |
| ContentAnalyzers.ScanPlaced | src/core/content_analyzers.py:351-375 | every keyword match is a case-insensitive occurrence, reported with the original text |
| ContentAnalyzers.ScanOrdered | src/core/content_analyzers.py:351-375 | keyword matches come in order and do not overlap |
| ContentAnalyzers.ScanComplete | src/core/content_analyzers.py:351-375 | every occurrence is covered by some reported match |
| ContentAnalyzers.ScanKeyword | src/core/content_analyzers.py:360-373 | the `find` loop computes the scan |
| ContentAnalyzers.MatchKeywords | src/core/content_analyzers.py:351-375 | the method computes the matches of all of a rule's keywords |
| ContentAnalyzers.NonEmptyKeywordAdvances | src/core/content_analyzers.py:365-373 | with a non-empty keyword each step moves the cursor forward |
| ContentAnalyzers.EmptyKeywordNeverAdvances | src/core/content_analyzers.py:365-373 | with an empty keyword the cursor stays where it is |
| ContentAnalyzers.EmptyKeywordRuleAccepted | src/models/adaptive_summarization.py:196-210 | a keyword rule whose only keyword is empty passes rule validation |
| ContentAnalyzers.EmptyKeywordSkipped | src/core/content_analyzers.py:351-375 | the corrected matcher reports nothing for an empty keyword and terminates |
| ContentAnalyzers.RuleMatchesFor | src/core/content_analyzers.py:320-349 | structure rules and patterns that fail to compile match nothing; a compiled regex rule yields one match per regex hit, a keyword rule its keyword scan |
| ContentAnalyzers.RuleMatchesAppend | src/core/content_analyzers.py:320-332 | rule matches over a concatenation of rules are the concatenated matches |
| ContentAnalyzers.MatchRules | src/core/content_analyzers.py:320-332 | the loop computes the matches of every rule in order |
| ContentAnalyzers.Analysis | src/core/content_analyzers.py:398-462 | each list is its extractor's output (entities, code, URLs, rule matches) and the marker flag is the marker check; the flags agree with the lists; is_answer iff the text is longer than 50; is_question iff a question mark or a question word |
| ContentAnalyzers.Analyze | src/core/content_analyzers.py:398-422 | the method computes the analysis |
| ImportanceScorer.ScoreInRange | src/core/importance_scorer.py:20-71 | the score lies in [min_score, max_score] and equals the raw sum when that already does |
| ImportanceScorer.ScoreMessage | src/core/importance_scorer.py:20-71 | the method computes the clamped weighted sum |
| ImportanceScorer.ScoreBreakdown | src/core/importance_scorer.py:99-160 | each component is the scorer's own part and the total is the score |
| ImportanceScorer.ScoreMessages | src/core/importance_scorer.py:73-97 | an error iff the lists differ in length, else one score per message |
| ImportanceScorer.ClassifyBands | src/core/importance_scorer.py:162-188 | preserve iff score >= preserve, discard iff score < discard, summarize in between |
| ImportanceScorer.InsertOrdered | src/core/importance_scorer.py:190-220 | the stable insertion keeps the ranking ordered |
| ImportanceScorer.RankedOrdered | src/core/importance_scorer.py:190-220 | the ranking is a permutation of the indices, ordered by descending score with ties by position |
| ImportanceScorer.TopKSound | src/core/importance_scorer.py:190-220 | top-k returns min(k, n) pairs taken from the ranking, in non-increasing score order |
| ImportanceScorer.SumBounds | src/core/importance_scorer.py:222-226 | a sum of values in [lo, hi] lies between n*lo and n*hi |
| ImportanceScorer.AverageBounds | src/core/importance_scorer.py:222-226 | the average of scores in [lo, hi] lies in [lo, hi] |
| ImportanceScorer.CountAtMostMonotone | src/core/importance_scorer.py:228-249 | the count of scores at or below x grows with x |
| ImportanceScorer.PercentileSound | src/core/importance_scorer.py:228-249 | the percentile lies in [0, 1] and is monotone in the score |
| HierarchicalStrategy.SetSizeDistinct | src/core/strategies/hierarchical_strategy.py:48-56 | the priority set is as large as the list iff the priorities are distinct |
| HierarchicalStrategy.ValidateLayersSound | src/core/strategies/hierarchical_strategy.py:48-56 | validation passes iff there is a layer and the priorities are distinct |
| HierarchicalStrategy.NewStrategy | src/core/strategies/hierarchical_strategy.py:34-56 | the constructor succeeds under the same condition and keeps the config |
| HierarchicalStrategy.LayerScoreAppend | src/core/strategies/hierarchical_strategy.py:58-119 | a layer's score is the sum of its content types' trigger scores |
| HierarchicalStrategy.SystemTriggerCounts | src/core/strategies/hierarchical_strategy.py:84-85 | a system message scores at least 100 in a layer that lists system_messages |
| HierarchicalStrategy.ScoreLayer | src/core/strategies/hierarchical_strategy.py:80-104 | the loop computes the layer score |
| HierarchicalStrategy.BestIndex | src/core/strategies/hierarchical_strategy.py:106-114 | no layer beats the chosen one, and every earlier layer is strictly worse |
| HierarchicalStrategy.ClassifyIsBest | src/core/strategies/hierarchical_strategy.py:58-119 | the chosen layer has the highest score; ties go to the larger priority value |
| HierarchicalStrategy.ClassifyMessage | src/core/strategies/hierarchical_strategy.py:58-119 | the loop over layers computes the classification |
| HierarchicalStrategy.LayerNamedFinds | src/core/strategies/hierarchical_strategy.py:157-176 | with distinct names, looking a layer up by its name finds it |
| HierarchicalStrategy.TruncateMessageShape | src/core/strategies/hierarchical_strategy.py:126-155 | unchanged within the cap; otherwise the first cap*4 characters plus the marker, with the role kept |
| HierarchicalStrategy.TruncateIdempotent | src/core/strategies/hierarchical_strategy.py:126-155 | truncating twice is truncating once |
| HierarchicalStrategy.DetailedParts | src/core/strategies/hierarchical_strategy.py:178-237 | the detailed summary has the role tag, then the first 5 entity texts, the first 3 code descriptors and the URL count (each only when present), and the 200-character content preview |
| HierarchicalStrategy.BriefParts | src/core/strategies/hierarchical_strategy.py:239-288 | the brief summary has the role tag, the comma-joined entity, code and URL counts when any is present, and the 50-character preview |
| HierarchicalStrategy.DigestShape | src/core/strategies/hierarchical_strategy.py:178-288 | both summaries are system messages with their prefix, and short content appears whole |
| HierarchicalStrategy.Rewrite | src/core/strategies/hierarchical_strategy.py:319-341 | a message is dropped iff its layer discards; otherwise preserve truncates it, and the two summary actions give the detailed or brief digest, under its layer's cap |
| HierarchicalStrategy.RewriteUsesLayerCap | src/core/strategies/hierarchical_strategy.py:319-341 | a preserving layer keeps the message truncated to its own cap |
| HierarchicalStrategy.AppliedAppend | src/core/strategies/hierarchical_strategy.py:290-343 | the strategy works message by message: it distributes over concatenation |
| HierarchicalStrategy.AppliedLength | src/core/strategies/hierarchical_strategy.py:290-343 | the output length is the number of messages not discarded |
| HierarchicalStrategy.ClassifyAll | src/core/strategies/hierarchical_strategy.py:308-315 | the first loop classifies each message |
| HierarchicalStrategy.RewriteAll | src/core/strategies/hierarchical_strategy.py:317-341 | the second loop builds the output |
| HierarchicalStrategy.Apply | src/core/strategies/hierarchical_strategy.py:290-343 | apply computes the layered rewrite of the list |
| HierarchicalStrategy.TallyTotal | src/core/strategies/hierarchical_strategy.py:345-368 | the per-layer counts add up to the number of messages |
| HierarchicalStrategy.LayerCountsTotal | src/core/strategies/hierarchical_strategy.py:345-368 | the layer statistics account for every message |
| HierarchicalStrategy.LayerStatistics | src/core/strategies/hierarchical_strategy.py:345-368 | the loop reports each layer's name with its count |
| HierarchicalStrategy.AssignedLayers | src/core/strategies/hierarchical_strategy.py:363-365 | the loop assigns each message, in order, the layer its classification selects |
| HierarchicalStrategy.CountLayers | src/core/strategies/hierarchical_strategy.py:358-366 | starting from zero for every layer, each assigned message adds one to its own layer's count and to no other |
| SelectiveStrategy.DetermineActionBands | src/core/strategies/selective_strategy.py:69-86 | preserve iff score >= preserve, discard iff score < discard, summarize otherwise; agrees with the scorer's classification |
| SelectiveStrategy.ScoreMessages | src/core/strategies/selective_strategy.py:88-120 | one scored message per input, in order |
| SelectiveStrategy.SummaryMessageShape | src/core/strategies/selective_strategy.py:122-181 | a summary starts with its prefix and ends with the content preview, whose length depends on the score |
| SelectiveStrategy.AppliedAppend | src/core/strategies/selective_strategy.py:183-219 | the strategy distributes over concatenation |
| SelectiveStrategy.AppliedSingle | src/core/strategies/selective_strategy.py:183-219 | a high-scoring message is kept, a low one dropped, a middle one replaced by a system summary |
| SelectiveStrategy.Apply | src/core/strategies/selective_strategy.py:183-219 | the loop computes the selective rewrite |
| SelectiveStrategy.AppliedCount | src/core/strategies/selective_strategy.py:183-245 | the output length is the number preserved plus the number summarized |
| SelectiveStrategy.ScoreDistribution | src/core/strategies/selective_strategy.py:221-245 | the loop counts the three bands, which add up to the input length |
| SelectiveStrategy.CountBands | src/core/strategies/selective_strategy.py:236-243 | starting from zero in all three bands, each action adds one to its own band |
| SelectiveStrategy.TopMessagesSound | src/core/strategies/selective_strategy.py:247-275 | min(k, n) messages in ranking order, each with its own score |
| SelectiveStrategy.InsertAscSorted | src/core/strategies/selective_strategy.py:277-310 | the sort used for the median keeps the list sorted |
| SelectiveStrategy.SortAsc | src/core/strategies/selective_strategy.py:277-310 | the sorted scores are sorted and a permutation of the scores |
| SelectiveStrategy.StatisticsSound | src/core/strategies/selective_strategy.py:277-310 | zeros for no messages; otherwise min <= median <= max, min <= mean <= max, and the mean is the average |
| IncrementalStrategy.Info | src/core/strategies/incremental_strategy.py:292-311 | information exists iff the session has a state, and it reports that state |
| IncrementalStrategy.ClearForgetsOnlyThatSession | src/core/strategies/incremental_strategy.py:313-320 | clearing forgets that session and no other |
| IncrementalStrategy.GenerateSummary | src/core/strategies/incremental_strategy.py:186-217 | the summary is non-empty and extends the previous summary |
| IncrementalStrategy.KeepZeroFoldsNothing | src/core/strategies/incremental_strategy.py:253-258 | as written, keep_recent = 0 folds nothing and keeps every message |
| IncrementalStrategy.Older | src/core/strategies/incremental_strategy.py:253-258 | the older part followed by the recent part is the whole list |
| IncrementalStrategy.SplitAgreesWhenPositive | src/core/strategies/incremental_strategy.py:253-258 | for keep_recent > 0 the corrected split is the written one |
| IncrementalStrategy.KeepZeroFoldsAll | src/core/strategies/incremental_strategy.py:253-258 | with the corrected split, keep_recent = 0 folds every message |
| IncrementalStrategy.StepIsolated | src/core/strategies/incremental_strategy.py:219-290 | a call for one session never touches another session's state |
| IncrementalStrategy.StepWithoutFold | src/core/strategies/incremental_strategy.py:90-130 | when not triggered the messages pass unchanged; an exhausted depth resets the state |
| IncrementalStrategy.StepFoldShape | src/core/strategies/incremental_strategy.py:219-290 | a fold outputs system messages, the summary message and the recent messages, and records the count and time |
| IncrementalStrategy.StepFoldDepth | src/core/strategies/incremental_strategy.py:90-130 | the depth starts at 1 and advances; a fold needs the window of new messages, or enough messages for the first one |
| IncrementalStrategy.StepSummaryAccumulates | src/core/strategies/incremental_strategy.py:186-217 | a further fold extends the previous summary |
| IncrementalStrategy.StepBounded | src/core/strategies/incremental_strategy.py:219-290 | every stored depth stays within 1..max_summary_depth |
| IncrementalStrategy.DepthAfterFirstCycle | src/core/strategies/incremental_strategy.py:116-130 | the n-th fold has depth n until the maximum |
| IncrementalStrategy.DepthAfterCycles | src/core/strategies/incremental_strategy.py:116-130 | depths repeat with period max_summary_depth |
| IncrementalStrategy.DepthAfterBounded | src/core/strategies/incremental_strategy.py:116-130 | every depth lies in 1..max_summary_depth |
| IncrementalStrategy.DepthResetsAfterMax | src/core/strategies/incremental_strategy.py:116-130 | after the maximum depth the next fold restarts at 1 |
| IncrementalStrategy.Incremental.constructor | src/core/strategies/incremental_strategy.py:29-39 | starts with no session states |
| IncrementalStrategy.Incremental.GetSummaryState | src/core/strategies/incremental_strategy.py:45-55 | a session's state, if it has one |
| IncrementalStrategy.Incremental.SaveSummaryState | src/core/strategies/incremental_strategy.py:57-78 | stores the new state for that session only |
| IncrementalStrategy.Incremental.ResetSummaryState | src/core/strategies/incremental_strategy.py:80-88 | removes that session's state only |
| IncrementalStrategy.Incremental.Apply | src/core/strategies/incremental_strategy.py:219-290 | output and new states are those of one step, and the depth bound is kept |
| IncrementalStrategy.Incremental.GetSummaryInfo | src/core/strategies/incremental_strategy.py:292-311 | information exists iff the session has a state, and reports its depth, message count, ISO created_at and summary length |
| IncrementalStrategy.Incremental.ClearSession | src/core/strategies/incremental_strategy.py:313-320 | removes that session's state only |
| AdaptiveManager.ValidateConfig | src/core/adaptive_summarization_manager.py:61-92 | a disabled config passes; an enabled one passes iff the chosen strategy's config exists, any non-zero target is >= 100, and min <= max |
| AdaptiveManager.CheckQualityIff | src/core/adaptive_summarization_manager.py:188-224 | quality holds iff the length is within bounds, any target is met, and the token count drops |
| AdaptiveManager.FallbackNoLarger | src/core/adaptive_summarization_manager.py:226-246 | the fallback is never larger than the input |
| AdaptiveManager.FallbackIdempotent | src/core/adaptive_summarization_manager.py:226-246 | falling back twice is falling back once |
| AdaptiveManager.PreservedAppend | src/core/adaptive_summarization_manager.py:126-186 | preservation distributes over concatenation |
| AdaptiveManager.PreservedRespectsFlags | src/core/adaptive_summarization_manager.py:126-186 | a disabled kind is never preserved |
| AdaptiveManager.ApplyContentPreservation | src/core/adaptive_summarization_manager.py:126-186 | the loop computes the preserved content |
| AdaptiveManager.Finish | src/core/adaptive_summarization_manager.py:334-376 | after the strategy ran or failed, the messages are its output when that passes the quality gate and the fallback otherwise; preservation runs on the input and the statistics on the final list |
| AdaptiveManager.DisabledIsIdentity | src/core/adaptive_summarization_manager.py:311-323 | when disabled, the messages pass unchanged with ratio 1.0 |
| AdaptiveManager.FinishedFallsBack | src/core/adaptive_summarization_manager.py:335-350 | a failed or low-quality attempt is replaced by the fallback; a good one is kept |
| AdaptiveManager.FinishedNoLarger | src/core/adaptive_summarization_manager.py:291-376 | the result is never larger than the input |
| AdaptiveManager.FinishedRatio | src/core/adaptive_summarization_manager.py:358-359 | the reported ratio lies in [0, 1] and is below 1 for a kept attempt |
| AdaptiveManager.RatioBounds | src/core/adaptive_summarization_manager.py:358-359 | ratio * original == summarized, within [0, 1] |
| AdaptiveManager.RatiosDisagree | src/core/adaptive_summarization_manager.py:358-359 | the manager's ratio (kept fraction) and the statistics ratio (saved fraction) add up to 1 |
| AdaptiveManager.Chosen | src/core/adaptive_summarization_manager.py:326-331 | no override picks the configured strategy; an override must name a known strategy |
| AdaptiveManager.Manager.constructor | src/core/adaptive_summarization_manager.py:34-117 | builds exactly the strategies whose configs are present, with an empty incremental state |
| AdaptiveManager.Manager.Summarize | src/core/adaptive_summarization_manager.py:291-376 | disabled is identity; otherwise Ok iff the strategy is known and built; the result is the finished attempt, and only incremental state changes |
| AdaptiveManager.Manager.ClearSession | src/core/adaptive_summarization_manager.py:416-426 | clears that session in the incremental strategy only |
| AdaptiveManager.NewManager | src/core/adaptive_summarization_manager.py:34-59 | construction succeeds iff the config is accepted |
| SessionStore.MakeKey | src/core/session_manager.py:44-46 | the storage key is user_id, a colon, then session_id |
| SessionStore.MakeKeyCollides | src/core/session_manager.py:44-46 | two different pairs share one key when an id contains a colon |
| SessionStore.MakeKeyInjectiveWithoutColon | src/core/session_manager.py:44-46 | without a colon in user ids the written key is injective |
| SessionStore.KeyOfInjective | src/core/session_manager.py:44-46 | the corrected pair key identifies the pair |
| SessionStore.Swept | src/core/session_manager.py:68-82 | the sweep keeps exactly the unexpired sessions, unchanged |
| SessionStore.SweptCount | src/core/session_manager.py:68-82 | the kept and removed sessions partition the store |
| SessionStore.SweptIdempotent | src/core/session_manager.py:68-82 | sweeping twice is sweeping once |
| SessionStore.SweptMonotone | src/core/session_manager.py:68-82 | a longer TTL keeps at least as many sessions |
| SessionStore.InMemoryStorage.constructor | src/core/session_manager.py:40-42 | the store starts empty |
| SessionStore.InMemoryStorage.Get | src/core/session_manager.py:48-52 | the stored session for the pair, if any |
| SessionStore.InMemoryStorage.Set | src/core/session_manager.py:54-59 | stamps updated_at and stores under the pair, nothing else changes |
| SessionStore.InMemoryStorage.Delete | src/core/session_manager.py:61-66 | removes the pair only |
| SessionStore.InMemoryStorage.CleanupExpired | src/core/session_manager.py:68-82 | the store becomes the sweep and the count is the number removed |
| SessionStore.InMemoryStorage.CollectExpired | src/core/session_manager.py:72-78 | the loop collects exactly the expired keys |
| SessionStore.InMemoryStorage.DeleteKeys | src/core/session_manager.py:79-81 | the loop removes exactly the doomed keys |
| SessionStore.ResetOf | src/core/session_manager.py:237-248 | reset clears the history and keeps the memory zone, metadata and identity |
| SessionStore.AppendOf | src/core/session_manager.py:250-262 | appending adds the message at the end and keeps everything else |
| SessionStore.AfterGetFrames | src/core/session_manager.py:199-226 | get-or-create stores the pair's session and leaves other pairs alone |
| SessionStore.CurrentBelongsToPair | src/core/session_manager.py:199-226 | the session returned belongs to the requested pair |
| SessionStore.SessionManager.constructor | src/core/session_manager.py:159-169 | keeps the storage and TTL |
| SessionStore.SessionManager.GetSession | src/core/session_manager.py:199-226 | returns the current session or a fresh one, and stores it |
| SessionStore.SessionManager.UpdateSession | src/core/session_manager.py:228-235 | stores the session stamped with now |
| SessionStore.SessionManager.ResetSession | src/core/session_manager.py:237-248 | stores the reset session |
| SessionStore.SessionManager.AddMessage | src/core/session_manager.py:250-262 | stores the session with the message appended |
| SessionStore.SessionManager.GetContext | src/core/session_manager.py:264-276 | returns the current conversation history |
| SessionStore.SessionManager.DeleteSession | src/core/session_manager.py:278-287 | removes the pair only |
| SessionStore.ChooseBackend | src/core/session_manager.py:289-315 | memory, or redis with a non-empty URL; anything else is an error |
| SessionStore.CreateMemoryManager | src/core/session_manager.py:289-315 | a memory-backed manager starts with an empty store |
| ResponseDiagnostics.ClassifyResponse | src/utils/response_diagnostics.py:19-68 | mixed, text-only or tool-calls-only exactly by whether the first message has non-blank text and a non-empty tool-call list; empty otherwise |
| ResponseDiagnostics.AbsentEmpty | src/utils/response_diagnostics.py:71-135 | no name is reported missing iff all are present |
| ResponseDiagnostics.MissingFieldsEmptyIffComplete | src/utils/response_diagnostics.py:71-135 | nothing is missing iff the response has every required field at every level |
| ResponseDiagnostics.ValidateResponseStructure | src/utils/response_diagnostics.py:71-135 | the loop reports the missing fields, and valid iff there are none |
| ResponseDiagnostics.MissingChoicesReportedTwice | src/utils/response_diagnostics.py:89-98 | a response without choices lists "choices" twice |
| ResponseDiagnostics.MissingUsageInvalid | src/utils/response_diagnostics.py:130-132 | a response without usage is invalid |
| ResponseDiagnostics.ClassifiedHasBody | src/utils/response_diagnostics.py:19-135 | a non-empty classification implies a message body |
| ResponseDiagnostics.BlankContentValidButEmpty | src/utils/response_diagnostics.py:19-135 | a complete response whose content is a single space passes validation but is classified empty |
| ResponseDiagnostics.ExtractResponseContent | src/utils/response_diagnostics.py:138-189 | nothing without choices; otherwise the count, the first choice's finish_reason when it is a dict, and the message fields exactly when there is a first message |
| ResponseDiagnostics.ClassifiedIsExtracted | src/utils/response_diagnostics.py:138-189 | a classified response has its content or tool calls extracted |
| ResponseDiagnostics.TruncateForLogging | src/utils/response_diagnostics.py:192-212 | short content is unchanged; long content is its prefix plus the marker, never longer than the bound plus the marker |
| Config.ValidateBaseUrl | src/models/config.py:18-24 | accepted iff it starts with http:// or https://; the result is the input without trailing slashes |
| Config.BaseUrlKeepsScheme | src/models/config.py:18-24 | a URL with something after the scheme still has its scheme after stripping |
| Config.BaseUrlStable | src/models/config.py:18-24 | validating a validated URL changes nothing |
| Config.BareSchemeLosesSlashes | src/models/config.py:18-24 | "https://" validates to "https:", which itself would be rejected |
| Config.ValidateStorageType | src/models/config.py:47-53 | accepted iff memory or redis |
| Config.ValidateLogLevel | src/models/config.py:71-77 | accepted iff the upper-cased level is known; the result is upper-cased |
| Config.LogLevelStable | src/models/config.py:71-77 | validating a validated level changes nothing |
| Config.ValidateReductionMode | src/models/config.py:91-98 | accepted iff one of the three modes |
| Config.NewProvider | src/models/config.py:8-24 | accepted iff the URL has a scheme, timeout >= 1 and retries >= 0 |
| Config.NewProviderValid | src/models/config.py:8-24 | an accepted provider satisfies the provider invariant |
| Config.NewStorageConfig | src/models/config.py:41-53 | accepted iff the storage type is known |
| Config.NewSystemConfig | src/models/config.py:59-77 | accepted iff the port is in 1..65535, the level is known and the TTL >= 60 |
| Config.DefaultSystemConfigValid | src/models/config.py:59-77 | the defaults are accepted |
| Config.NewContextDefaultConfig | src/models/config.py:83-98 | accepted iff max_turns >= 1, max_tokens >= 100 and the mode is known |
| Config.NewAppConfig | src/models/config.py:112-126 | accepted iff the providers and mappings are non-empty |
| Config.GetProvider | src/models/config.py:128-133 | none iff no provider has that name; otherwise a provider with that name |
| Config.GetModelMapping | src/models/config.py:135-140 | none iff no mapping has that display name |
| ConfigValidator.Duplicates | src/core/config_validator.py:49-69 | exactly the names that occur more than once |
| ConfigValidator.DuplicatesEmptyIffDistinct | src/core/config_validator.py:49-69 | no duplicates iff the names are distinct |
| ConfigValidator.ReferenceErrorsSpec | src/core/config_validator.py:20-29 | no error iff every mapping names a known provider; one error per unknown reference |
| ConfigValidator.ModelsByProviderDistinct | src/core/config_validator.py:31-47 | with distinct names, a provider's entry is its model set |
| ConfigValidator.ModelErrorsSpec | src/core/config_validator.py:31-47 | no error iff every mapping whose provider is known names one of that provider's models; a mapping with an unknown provider is left to the reference check |
| ConfigValidator.ReferencesIffServed | src/core/config_validator.py:20-47 | with distinct provider names, both reference checks pass iff every mapping is served by a provider that lists its model |
| ConfigValidator.RedisErrors | src/core/config_validator.py:71-77 | an error iff redis is chosen without a URL |
| ConfigValidator.MappingSummarizationErrorsSpec | src/core/config_validator.py:79-95 | an error for exactly each mapping that summarizes without a model |
| ConfigValidator.GlobalSummarizationErrors | src/core/config_validator.py:79-95 | an error iff summarization is the default mode without a model |
| ConfigValidator.AllErrorsEmptyIffConsistent | src/core/config_validator.py:97-113 | no error at all iff the configuration is consistent |
| ConfigValidator.Validator.constructor | src/core/config_validator.py:10-18 | starts with no errors |
| ConfigValidator.Validator.ValidateProviderReferences | src/core/config_validator.py:20-29 | appends the reference errors |
| ConfigValidator.Validator.ValidateModelReferences | src/core/config_validator.py:31-47 | appends the model errors |
| ConfigValidator.Validator.CollectModels | src/core/config_validator.py:34-36 | the loop builds the provider-to-models map |
| ConfigValidator.Validator.ValidateUniqueDisplayNames | src/core/config_validator.py:49-58 | appends the display-name duplicate error |
| ConfigValidator.Validator.ValidateUniqueProviderNames | src/core/config_validator.py:60-69 | appends the provider-name duplicate error |
| ConfigValidator.Validator.ValidateRedisConfig | src/core/config_validator.py:71-77 | appends the redis error |
| ConfigValidator.Validator.ValidateSummarizationConfig | src/core/config_validator.py:79-95 | appends the summarization errors |
| ConfigValidator.Validator.ValidateAll | src/core/config_validator.py:97-113 | resets the list and collects every error in order |
| ConfigValidator.Validator.IsValid | src/core/config_validator.py:115-123 | valid iff the configuration is consistent |
| ConfigValidator.ValidateConfig | src/core/config_validator.py:126-141 | raises iff inconsistent, carrying every error |
| ProviderManager.IndexKeepsLast | src/core/provider_manager.py:24-37 | a dictionary built from a list keeps the last element with each key |
| ProviderManager.IndexDistinct | src/core/provider_manager.py:24-37 | with distinct keys each element is found under its own key |
| ProviderManager.NewManager | src/core/provider_manager.py:24-37 | the dictionaries hold exactly the configured names, each bound to a configured record with that name |
| ProviderManager.GetProvider | src/core/provider_manager.py:205-215 | the provider under that name, if any |
| ProviderManager.GetModelMapping | src/core/provider_manager.py:193-203 | the mapping under that display name, if any |
| ProviderManager.ProviderLookupsAgree | src/core/provider_manager.py:205-215 | with distinct names the manager and the config find the same provider |
| ProviderManager.DuplicateProviderLookupsDisagree | src/core/provider_manager.py:24-37 | with a repeated name the config finds the first provider and the manager the last |
| ProviderManager.ResolveModel | src/core/provider_manager.py:55-91 | mapped names go through their mapping; `provider/model` goes to that provider; anything else is not found |
| ProviderManager.Namespace | src/core/provider_manager.py:55-91 | the provider part is everything before the first slash |
| ProviderManager.NamespacedRoundTrip | src/core/provider_manager.py:55-91 | provider name, slash and model give back the requested name |
| ProviderManager.MappedResolvesToItsProvider | src/core/provider_manager.py:55-91 | a mapped name resolves to the mapping's provider and actual model |
| ConfigLoader.Substitute | src/core/config_loader.py:35-67 | substitution fails only on a variable missing from the environment |
| ConfigLoader.NoReferenceUnchanged | src/core/config_loader.py:35-67 | a string without `${` is unchanged |
| ConfigLoader.SubstituteReference | src/core/config_loader.py:35-67 | a set variable is replaced by its value |
| ConfigLoader.UnsetReferenceRaises | src/core/config_loader.py:35-67 | an unset variable raises, naming the variable |
| ConfigLoader.SinglePass | src/core/config_loader.py:35-67 | a value that itself contains `${…}` is not expanded again |
| ConfigLoader.SubstituteEnvVars | src/core/config_loader.py:35-67 | the tree keeps its shape with every string leaf replaced by its substitution, and errors only name unset variables |
| ConfigLoader.NoReferencesUnchanged | src/core/config_loader.py:35-67 | a tree without references is unchanged |
| ConfigLoader.ParseProviders | src/core/config_loader.py:121-134 | a missing or empty section is an error; otherwise each entry is substituted, leaf by leaf |
| ConfigLoader.ParseModelMappings | src/core/config_loader.py:136-151 | a missing or empty section is an error; otherwise the entries as given |

## Left out

- The HTTP layer is not modelled: request routing, streaming, and the `route_request` / provider calls of the provider manager. Neither are the API endpoints.
- Redis storage is not modelled, because it is network I/O. Only the backend choice (`SessionStore.ChooseBackend`) is modelled.
- The asyncio lock, the background cleanup loop and `async_execution` are not modelled. A strategy timeout or exception enters `AdaptiveManager.Manager.Summarize` as its `failed` input.
- The clock (`utcnow`) is a `now` parameter, and elapsed time is an `elapsedMs` parameter.
- Scores, weights and ratios are `real` rather than floating point. Score formatting (`{score:.1f}`) is an opaque function parameter of the selective strategy.
- Case folding (`lower` / `upper`) is ASCII only.
- The regular expressions and spaCy are opaque oracles: entity patterns, fenced and inline code, the URL pattern, important markers, question words and user regex rules. Their outputs are parameters, and the model proves what the code does with them.
- The prompts built for an external summarization model, and `get_strategy_info`, are not modelled. They are text for an LLM that the code never reads back.
- YAML parsing, `.env` loading and `os.getenv` overrides are not modelled. The environment is a map.
- Turning the substituted dictionaries into Provider records is not modelled. The parsing of a mapping's `context_config` in `_parse_model_mappings` is not modelled either.
- Dictionaries with string keys are association lists, `seq<(string, Json)>`, where the first occurrence of a key wins on lookup.
- ConfigValidator.Validator.ValidateUniqueDisplayNames: the error carries the set of duplicate names rather than its Python rendering. Set order in the message text is not modelled.
- ConfigValidator.Validator.ValidateUniqueProviderNames: the same, for provider names.
- ResponseDiagnostics.TruncateForLogging: only takes string content. The `str(content)` branch for non-string content is not modelled.
- HierarchicalStrategy.NewStrategy: requires distinct layer names. Layers live in a dictionary keyed by name in the source, so names cannot repeat there.
- SessionStore.SessionManager.GetSession: requires valid stored timestamps. The source stores only `datetime` values.
- Four pieces of glue in the orchestrator and the hierarchical strategy do not match the classes they call. Each is modelled as evidently intended:
  - the analyzers are built with one argument (adaptive_summarization_manager.py:50), but the constructor takes two (content_analyzers.py:391);
  - results are built without `strategy_used` (adaptive_summarization_manager.py:312 and 372), which adaptive_summarization.py:381 requires;
  - `RuleMatch.rule_type` and `.action` are read (adaptive_summarization_manager.py:180-181, and `m.action` at hierarchical_strategy.py:95) where the record holds the rule;
  - `has_question` and `has_answer` are read (hierarchical_strategy.py:87-89) where the analysis holds `is_question` and `is_answer`.
- AdaptiveManager.DisabledIsIdentity: the disabled path's `preserved_content={}` (adaptive_summarization_manager.py:314) is modelled as the preserved-content record with three empty lists.
- IncrementalStrategy.Older: a negative keep_recent is clamped to zero, where a Python slice would count from the front.
- The code has no "adaptive" reduction mode: the dispatcher treats any unregistered mode as an error.
- ContentAnalyzers.RawEntities: the NLP branch models `entity_cache_enabled = False`. With the default `True` and a loaded NLP model, `_extract_with_spacy` (content_analyzers.py:94-95) calls `_extract_with_spacy_cached` (114-117), which calls `_extract_with_spacy` again under the same flag, so that path recurses until Python's recursion limit and never returns. The cache and the flag are not modelled.
- SessionStore.InMemoryStorage: the store's map is keyed by the (user, session) pair, where session_manager.py:44-66 keys `_sessions` by the string `user_id + ":" + session_id`. The two agree whenever user ids contain no ':' (SessionStore.MakeKeyInjectiveWithoutColon); when they do, the source can make two pairs share one entry (SessionStore.MakeKeyCollides), which this store does not capture.
- Timestamps.ParseIso: reads only the two shapes `isoformat()` writes (19 characters, and 26 with microseconds). Strings that `datetime.fromisoformat` also accepts, such as "2024-01-01 10:00:00", "2024-01-01T10:00" or a "+00:00" offset, are rejected, so `SessionModel` fails to read a session stored with them.
- ContextManagement.ContextManager.RegisterStrategy: the strategy type is closed over the three built-in reductions, so a name can only be bound to one of them. `register_strategy` (context_manager.py:319-327) accepts any strategy object.

## Findings

| source | as written | input that shows it | evidently intended | confidence | as-written member | corrected member |
|---|---|---|---|---|---|---|
| src/core/content_analyzers.py:365-373 | the keyword loop continues from `pos + len(keyword)` | a keyword rule whose keyword is "" (rule validation accepts it): `find` keeps returning the same position, so the loop never ends | skip empty keywords | not executed | ContentAnalyzers.EmptyKeywordNeverAdvances | ContentAnalyzers.EmptyKeywordSkipped |
| src/core/strategies/incremental_strategy.py:253-258 | the older messages are `others[:-keep_recent]` | keep_recent = 0: `others[:-0]` is empty, so nothing is ever folded and every message is kept | with keep_recent = 0, fold every message | not executed | IncrementalStrategy.KeepZeroFoldsNothing | IncrementalStrategy.KeepZeroFoldsAll |
| src/core/session_manager.py:44-46 | the storage key is `f"{user_id}:{session_id}"` | user "a:b" with session "c", and user "a" with session "b:c", share the key "a:b:c" | one key per (user, session) pair | not executed | SessionStore.MakeKeyCollides | SessionStore.KeyOfInjective |
