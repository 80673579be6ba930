/**
 * The selective summarization strategy: every message gets an importance
 * score; high scores keep the message, middling ones replace it with a
 * one-line summary, low ones drop it.
 */
module SelectiveStrategy {
  import opened Wrappers
  import opened Text
  import opened Messages
  import opened AdaptiveModels
  import opened ContentAnalyzers
  import ImportanceScorer
  import Slices

  datatype SelectionAction = Preserve | Summarize | Discard

  function ActionName(a: SelectionAction): string {
    match a
    case Preserve => "preserve"
    case Summarize => "summarize"
    case Discard => "discard"
  }

  /**
   * A constructed strategy. `formatScore` stands for Python's `{score:.1f}`
   * formatting, which the model treats as opaque.
   */
  datatype Strategy = Strategy(
    config: SelectiveConfig,
    scoring: ScoringConfig,
    analyzers: Analyzers,
    formatScore: real -> string)

  /** `_validate_config`: the constructor fails unless the thresholds are ordered. */
  function NewStrategy(config: SelectiveConfig, scoring: ScoringConfig, an: Analyzers, fmt: real -> string): (r: Result<Strategy, string>)
    ensures r.Ok? <==> config.discardThreshold <= config.summarizeThreshold <= config.preserveThreshold
    ensures r.Ok? ==> r.value.config == config && OrderedThresholds(r.value.config)
  {
    if !(config.discardThreshold <= config.summarizeThreshold <= config.preserveThreshold) then
      Err("Thresholds must be ordered: discard <= summarize <= preserve")
    else Ok(Strategy(config, scoring, an, fmt))
  }

  /** `_determine_action`. */
  function DetermineAction(c: SelectiveConfig, score: real): SelectionAction {
    if score >= c.preserveThreshold then Preserve
    else if score >= c.summarizeThreshold then Summarize
    else if score >= c.discardThreshold then Summarize
    else SelectionAction.Discard
  }

  /**
   * PRESERVE exactly from the preserve threshold up, DISCARD exactly below
   * the discard threshold, SUMMARIZE otherwise; this is the same band rule
   * as the scorer's `classify_by_score`.
   */
  lemma {:induction false} DetermineActionBands(c: SelectiveConfig, score: real)
    requires OrderedThresholds(c)
    ensures DetermineAction(c, score) == Preserve <==> score >= c.preserveThreshold
    ensures DetermineAction(c, score) == SelectionAction.Discard <==> score < c.discardThreshold
    ensures DetermineAction(c, score) == Summarize <==> c.discardThreshold <= score < c.preserveThreshold
    ensures ActionName(DetermineAction(c, score))
            == ImportanceScorer.ClassifyByScore(score, c.preserveThreshold, c.summarizeThreshold, c.discardThreshold)
  {
  }

  /** `ScoredMessage`. */
  datatype ScoredMessage = ScoredMessage(message: Message, score: real, action: SelectionAction, analysis: ContentAnalysis)

  /** Analysing, scoring and classifying one message. */
  function Scored(s: Strategy, m: Message): (sm: ScoredMessage)
    ensures sm.message == m && sm.action == DetermineAction(s.config, sm.score)
  {
    var a := Analysis(s.analyzers, m.content);
    var score := ImportanceScorer.Score(s.scoring, m, a);
    ScoredMessage(m, score, DetermineAction(s.config, score), a)
  }

  method ScoreOne(s: Strategy, m: Message) returns (sm: ScoredMessage)
    ensures sm == Scored(s, m)
  {
    var a := Analyze(s.analyzers, m.content);
    var score := ImportanceScorer.ScoreMessage(s.scoring, m, a);
    sm := ScoredMessage(m, score, DetermineAction(s.config, score), a);
  }

  /** `_score_messages`. */
  method ScoreMessages(s: Strategy, ms: seq<Message>) returns (scored: seq<ScoredMessage>)
    ensures |scored| == |ms|
    ensures forall j :: 0 <= j < |ms| ==> scored[j] == Scored(s, ms[j])
  {
    scored := [];
    for i := 0 to |ms|
      invariant |scored| == i
      invariant forall j :: 0 <= j < i ==> scored[j] == Scored(s, ms[j])
    {
      var sm := ScoreOne(s, ms[i]);
      scored := scored + [sm];
    }
  }

  // ---------------------------------------------------------------------
  // Summary message

  const SummaryPrefix: string := "[Selective Summary] "

  function Indicators(a: ContentAnalysis): (r: seq<string>)
    ensures |r| == (if a.entities != [] then 1 else 0) + (if a.codeBlocks != [] then 1 else 0)
                   + (if a.urls != [] then 1 else 0)
  {
    (if a.entities != [] then ["Entities: " + Join(", ", EntityTexts(Slices.Take(a.entities, 3)))] else [])
    + (if a.codeBlocks != [] then ["Code: " + NatToString(|a.codeBlocks|) + " block(s)"] else [])
    + (if a.urls != [] then ["URLs: " + NatToString(|a.urls|) + " link(s)"] else [])
  }

  /** 150 characters of preview from the summarize threshold up, 50 below it. */
  function PreviewLength(c: SelectiveConfig, score: real): nat {
    if score >= c.summarizeThreshold then 150 else 50
  }

  function SummaryParts(s: Strategy, sm: ScoredMessage): (parts: seq<string>)
    ensures |parts| == (if Indicators(sm.analysis) == [] then 2 else 3)
    ensures parts[|parts| - 1] == "Content: " + Preview(sm.message.content, PreviewLength(s.config, sm.score))
  {
    ["[" + RoleName(sm.message.role) + ", score=" + s.formatScore(sm.score) + "]"]
    + (if Indicators(sm.analysis) != [] then [Join(" | ", Indicators(sm.analysis))] else [])
    + ["Content: " + Preview(sm.message.content, PreviewLength(s.config, sm.score))]
  }

  /** `_create_summary_message`. */
  function SummaryMessage(s: Strategy, sm: ScoredMessage): (r: Message)
    ensures r.role == System
  {
    Plain(System, SummaryPrefix + Join(" | ", SummaryParts(s, sm)))
  }

  /**
   * The summary is a system message opening with the marker and ending
   * with the preview; a message that fits the preview appears in full, a
   * longer one is cut to the preview length and marked with `...`.
   */
  lemma {:induction false} SummaryMessageShape(s: Strategy, sm: ScoredMessage)
    ensures var r := SummaryMessage(s, sm);
            var n := PreviewLength(s.config, sm.score);
            var c := sm.message.content;
            && r.content[..|SummaryPrefix|] == SummaryPrefix
            && (|c| <= n ==> SummaryParts(s, sm)[|SummaryParts(s, sm)| - 1] == "Content: " + c)
            && (|c| > n ==> SummaryParts(s, sm)[|SummaryParts(s, sm)| - 1] == "Content: " + c[..n] + "...")
  {
  }

  // ---------------------------------------------------------------------
  // apply

  /** What a scored message becomes: itself, its summary, or nothing. */
  function Outcome(s: Strategy, sm: ScoredMessage): (out: seq<Message>)
    ensures |out| == (if sm.action == SelectionAction.Discard then 0 else 1)
  {
    match sm.action
    case Preserve => [sm.message]
    case Summarize => [SummaryMessage(s, sm)]
    case Discard => []
  }

  /** `apply`: preserved messages unchanged, summarized ones replaced, discarded ones dropped, in order. */
  function Applied(s: Strategy, ms: seq<Message>): (out: seq<Message>)
    ensures |out| <= |ms|
  {
    if ms == [] then []
    else Applied(s, ms[..|ms| - 1]) + Outcome(s, Scored(s, ms[|ms| - 1]))
  }

  lemma {:induction false} AppliedPrefix(s: Strategy, ms: seq<Message>, i: nat)
    requires i < |ms|
    ensures Applied(s, ms[..i + 1]) == Applied(s, ms[..i]) + Outcome(s, Scored(s, ms[i]))
  {
    assert ms[..i + 1][..i] == ms[..i];
  }

  /** Messages are handled independently of each other, in input order. */
  lemma {:induction false} AppliedAppend(s: Strategy, a: seq<Message>, b: seq<Message>)
    ensures Applied(s, a + b) == Applied(s, a) + Applied(s, b)
    decreases |b|
  {
    if b == [] {
      assert a + b == a;
    } else {
      var init, last := b[..|b| - 1], b[|b| - 1];
      assert b == init + [last];
      assert a + b == (a + init) + [last];
      AppliedAppend(s, a, init);
      AppliedSnoc(s, a + init, last);
      AppliedSnoc(s, init, last);
      Slices.AppendAssoc(Applied(s, a), Applied(s, init), Outcome(s, Scored(s, last)));
    }
  }

  /** One more message appends its outcome. */
  lemma {:induction false} AppliedSnoc(s: Strategy, ms: seq<Message>, m: Message)
    ensures Applied(s, ms + [m]) == Applied(s, ms) + Outcome(s, Scored(s, m))
  {
    assert (ms + [m])[..|ms|] == ms;
  }

  /**
   * One message: kept as is when its score reaches the preserve threshold,
   * dropped below the discard threshold, otherwise one system summary.
   */
  lemma {:induction false} AppliedSingle(s: Strategy, m: Message)
    requires OrderedThresholds(s.config)
    ensures var score := Scored(s, m).score;
            && (score >= s.config.preserveThreshold ==> Applied(s, [m]) == [m])
            && (score < s.config.discardThreshold ==> Applied(s, [m]) == [])
            && (s.config.discardThreshold <= score < s.config.preserveThreshold ==>
                  |Applied(s, [m])| == 1 && Applied(s, [m])[0].role == System)
  {
    assert [m][..0] == [];
    assert Applied(s, [m]) == Outcome(s, Scored(s, m));
  }

  /** `apply`. */
  method Apply(s: Strategy, ms: seq<Message>) returns (out: seq<Message>)
    ensures out == Applied(s, ms)
  {
    if ms == [] {
      return [];
    }
    var scored := ScoreMessages(s, ms);
    out := [];
    for i := 0 to |ms|
      invariant out == Applied(s, ms[..i])
    {
      AppliedPrefix(s, ms, i);
      var sm := scored[i];
      match sm.action {
        case Preserve => out := out + [sm.message];
        case Summarize => out := out + [SummaryMessage(s, sm)];
        case Discard =>
      }
    }
    assert ms[..|ms|] == ms;
  }

  // ---------------------------------------------------------------------
  // Distribution

  /** One more message counted in the band of `act`. */
  function Bump(d: (nat, nat, nat), act: SelectionAction): (e: (nat, nat, nat))
    ensures e.0 + e.1 + e.2 == d.0 + d.1 + d.2 + 1
  {
    match act
    case Preserve => (d.0 + 1, d.1, d.2)
    case Summarize => (d.0, d.1 + 1, d.2)
    case Discard => (d.0, d.1, d.2 + 1)
  }

  /** Tally of actions: (preserve, summarize, discard). */
  function Bands(acts: seq<SelectionAction>): (d: (nat, nat, nat))
    ensures d.0 + d.1 + d.2 == |acts|
  {
    if acts == [] then (0, 0, 0)
    else Bump(Bands(acts[..|acts| - 1]), acts[|acts| - 1])
  }

  /** One more action bumps its band. */
  lemma {:induction false} BandsSnoc(acts: seq<SelectionAction>, act: SelectionAction)
    ensures Bands(acts + [act]) == Bump(Bands(acts), act)
  {
    assert (acts + [act])[..|acts|] == acts;
  }

  function Actions(s: Strategy, ms: seq<Message>): (acts: seq<SelectionAction>)
    ensures |acts| == |ms|
  {
    seq(|ms|, j requires 0 <= j < |ms| => Scored(s, ms[j]).action)
  }

  /** One more message appends its action. */
  lemma {:induction false} ActionsSnoc(s: Strategy, ms: seq<Message>, m: Message)
    ensures Actions(s, ms + [m]) == Actions(s, ms) + [Scored(s, m).action]
  {
    var l, r := Actions(s, ms + [m]), Actions(s, ms) + [Scored(s, m).action];
    forall j | 0 <= j < |l|
      ensures l[j] == r[j]
    {
      if j < |ms| {
        assert (ms + [m])[j] == ms[j];
      }
    }
  }

  /** How many messages fall in each band: (preserve, summarize, discard); together, all of them. */
  function Distribution(s: Strategy, ms: seq<Message>): (d: (nat, nat, nat))
    ensures d.0 + d.1 + d.2 == |ms|
  {
    Bands(Actions(s, ms))
  }

  /** One more message bumps the band of its action. */
  lemma {:induction false} DistributionSnoc(s: Strategy, ms: seq<Message>, m: Message)
    ensures Distribution(s, ms + [m]) == Bump(Distribution(s, ms), Scored(s, m).action)
  {
    ActionsSnoc(s, ms, m);
    BandsSnoc(Actions(s, ms), Scored(s, m).action);
  }

  /** The kept messages are exactly the preserve and summarize bands. */
  lemma {:induction false} AppliedCount(s: Strategy, ms: seq<Message>)
    ensures |Applied(s, ms)| == Distribution(s, ms).0 + Distribution(s, ms).1
  {
    if ms != [] {
      var init, last := ms[..|ms| - 1], ms[|ms| - 1];
      assert ms == init + [last];
      AppliedCount(s, init);
      AppliedSnoc(s, init, last);
      DistributionSnoc(s, init, last);
    }
  }

  /** The counting loop of `get_score_distribution`, over the actions in order. */
  method CountBands(acts: seq<SelectionAction>) returns (preserve: nat, summarize: nat, discard: nat)
    ensures (preserve, summarize, discard) == Bands(acts)
  {
    preserve, summarize, discard := 0, 0, 0;
    for i := 0 to |acts|
      invariant (preserve, summarize, discard) == Bands(acts[..i])
    {
      assert acts[..i + 1] == acts[..i] + [acts[i]];
      BandsSnoc(acts[..i], acts[i]);
      match acts[i] {
        case Preserve => preserve := preserve + 1;
        case Summarize => summarize := summarize + 1;
        case Discard => discard := discard + 1;
      }
    }
    assert acts[..|acts|] == acts;
  }

  /** `get_score_distribution`. */
  method ScoreDistribution(s: Strategy, ms: seq<Message>) returns (preserve: nat, summarize: nat, discard: nat)
    ensures (preserve, summarize, discard) == Distribution(s, ms)
  {
    var scored := ScoreMessages(s, ms);
    var acts := seq(|scored|, i requires 0 <= i < |scored| => scored[i].action);
    assert acts == Actions(s, ms);
    preserve, summarize, discard := CountBands(acts);
  }

  // ---------------------------------------------------------------------
  // Top messages and score statistics

  function Scores(s: Strategy, ms: seq<Message>): (r: seq<real>)
    ensures |r| == |ms| && forall j :: 0 <= j < |ms| ==> r[j] == Scored(s, ms[j]).score
  {
    seq(|ms|, j requires 0 <= j < |ms| => Scored(s, ms[j]).score)
  }

  /** `get_top_messages`: the first `k` messages (a Python slice bound) of a stable sort by descending score. */
  function TopMessages(s: Strategy, ms: seq<Message>, k: int): (r: seq<(Message, real)>)
  {
    ImportanceScorer.TopK(ms, Scores(s, ms), k).value
  }

  /**
   * For `k >= 0`: `min(k, n)` pairs, each a message with its score, in
   * non-increasing score order, with equal scores in input order.
   */
  lemma {:induction false} TopMessagesSound(s: Strategy, ms: seq<Message>, k: int)
    ensures var r := TopMessages(s, ms, k);
            var top := Slices.Take(ImportanceScorer.Ranked(Scores(s, ms), |ms|), k);
            && (k >= 0 ==> |r| == Slices.Min(k, |ms|))
            && |r| == |top|
            && (forall j :: 0 <= j < |r| ==> top[j] < |ms| && r[j] == (ms[top[j]], Scored(s, ms[top[j]]).score))
            && (forall a, b :: 0 <= a < b < |r| ==> ImportanceScorer.Before(Scores(s, ms), top[a], top[b]))
  {
    ImportanceScorer.TopKSound(ms, Scores(s, ms), k);
  }

  predicate SortedAsc(s: seq<real>) {
    forall i, j :: 0 <= i < j < |s| ==> s[i] <= s[j]
  }

  function InsertAsc(s: seq<real>, x: real): (r: seq<real>)
    ensures multiset(r) == multiset(s) + multiset{x}
  {
    if s == [] then [x]
    else if x <= s[0] then [x] + s
    else
      assert s == [s[0]] + s[1..];
      [s[0]] + InsertAsc(s[1..], x)
  }

  /** Inserting a value no smaller than a bound of `s` keeps every element above that bound. */
  lemma {:induction false} InsertAscAbove(s: seq<real>, x: real, lo: real)
    requires forall i :: 0 <= i < |s| ==> lo <= s[i]
    requires lo <= x
    ensures forall i :: 0 <= i < |InsertAsc(s, x)| ==> lo <= InsertAsc(s, x)[i]
  {
    if s != [] && x > s[0] {
      InsertAscAbove(s[1..], x, lo);
      assert InsertAsc(s, x) == [s[0]] + InsertAsc(s[1..], x);
    }
  }

  lemma {:induction false} InsertAscSorted(s: seq<real>, x: real)
    requires SortedAsc(s)
    ensures SortedAsc(InsertAsc(s, x))
  {
    if s != [] && x > s[0] {
      var rest := InsertAsc(s[1..], x);
      InsertAscSorted(s[1..], x);
      InsertAscAbove(s[1..], x, s[0]);
      var r := InsertAsc(s, x);
      assert r == [s[0]] + rest;
      forall i, j | 0 <= i < j < |r|
        ensures r[i] <= r[j]
      {
        if i == 0 {
          assert r[j] == rest[j - 1];
        } else {
          assert r[i] == rest[i - 1] && r[j] == rest[j - 1];
        }
      }
    }
  }

  /** Python's `sorted` on scores. */
  function SortAsc(s: seq<real>): (r: seq<real>)
    ensures SortedAsc(r)
    ensures multiset(r) == multiset(s)
  {
    if s == [] then []
    else
      var init := SortAsc(s[..|s| - 1]);
      assert s == s[..|s| - 1] + [s[|s| - 1]];
      InsertAscSorted(init, s[|s| - 1]);
      InsertAsc(init, s[|s| - 1])
  }

  function MinOf(s: seq<real>): (m: real)
    requires s != []
    ensures m in s && forall i :: 0 <= i < |s| ==> m <= s[i]
  {
    if |s| == 1 then s[0]
    else
      var m := MinOf(s[..|s| - 1]);
      assert forall i :: 0 <= i < |s| - 1 ==> s[i] == s[..|s| - 1][i];
      if s[|s| - 1] < m then s[|s| - 1] else m
  }

  function MaxOf(s: seq<real>): (m: real)
    requires s != []
    ensures m in s && forall i :: 0 <= i < |s| ==> s[i] <= m
  {
    if |s| == 1 then s[0]
    else
      var m := MaxOf(s[..|s| - 1]);
      assert forall i :: 0 <= i < |s| - 1 ==> s[i] == s[..|s| - 1][i];
      if s[|s| - 1] > m then s[|s| - 1] else m
  }

  datatype ScoreStats = ScoreStats(min: real, max: real, mean: real, median: real)

  /** The middle element of a sorted list, or the mean of the two middle ones. */
  function Median(sorted: seq<real>): real
    requires sorted != []
  {
    var n := |sorted|;
    if n % 2 == 1 then sorted[n / 2] else (sorted[n / 2 - 1] + sorted[n / 2]) / 2.0
  }

  /** `get_score_statistics` over a list of scores. */
  function Statistics(scores: seq<real>): ScoreStats {
    if scores == [] then ScoreStats(0.0, 0.0, 0.0, 0.0)
    else ScoreStats(MinOf(scores), MaxOf(scores), ImportanceScorer.Sum(scores) / |scores| as real,
                    Median(SortAsc(scores)))
  }

  function ScoreStatistics(s: Strategy, ms: seq<Message>): ScoreStats {
    Statistics(Scores(s, ms))
  }

  /** An empty list has all-zero statistics; otherwise min <= median <= max and min <= mean <= max. */
  lemma {:induction false} StatisticsSound(scores: seq<real>)
    ensures scores == [] ==> Statistics(scores) == ScoreStats(0.0, 0.0, 0.0, 0.0)
    ensures scores != [] ==>
              var st := Statistics(scores);
              && st.min <= st.median <= st.max
              && st.min <= st.mean <= st.max
              && st.mean == ImportanceScorer.Average(scores)
  {
    if scores != [] {
      var lo, hi := MinOf(scores), MaxOf(scores);
      var sorted := SortAsc(scores);
      var n := |sorted|;
      assert forall i :: 0 <= i < n ==> lo <= sorted[i] <= hi by {
        forall i | 0 <= i < n
          ensures lo <= sorted[i] <= hi
        {
          assert sorted[i] in multiset(scores);
          var j :| 0 <= j < |scores| && scores[j] == sorted[i];
        }
      }
      ImportanceScorer.AverageBounds(scores, lo, hi);
    }
  }
}
