/**
 * Importance scoring of messages: a weighted sum of what the content
 * analysis found, a length bonus and a role bonus, clamped to the
 * configured range; plus the helpers built on scores (banding, top-K,
 * average, percentile).
 *
 * Scores are exact reals; the source computes them in binary floating point.
 */
module ImportanceScorer {
  import opened Wrappers
  import opened Messages
  import opened AdaptiveModels
  import Slices

  // ---------------------------------------------------------------------
  // One message

  /** System messages get 50, user messages 2, every other role nothing. */
  function RoleBonus(r: Role): (b: real)
    ensures b >= 0.0
  {
    match r
    case System => 50.0
    case User => 2.0
    case _ => 0.0
  }

  /** A weight times a count. */
  function Weighted(w: real, n: nat): real {
    w * n as real
  }

  function EntityPart(c: ScoringConfig, a: ContentAnalysis): real {
    if a.hasEntities then Weighted(c.hasEntities, |a.entities|) else 0.0
  }

  function CodePart(c: ScoringConfig, a: ContentAnalysis): real {
    if a.hasCode then Weighted(c.hasCode, |a.codeBlocks|) else 0.0
  }

  function UrlPart(c: ScoringConfig, a: ContentAnalysis): real {
    if a.hasUrls then Weighted(c.hasUrls, |a.urls|) else 0.0
  }

  function MarkerPart(c: ScoringConfig, a: ContentAnalysis): real {
    if a.hasImportantMarker then c.markedImportant else 0.0
  }

  function QuestionPart(c: ScoringConfig, a: ContentAnalysis): real {
    if a.isQuestion then c.isQuestion else 0.0
  }

  function AnswerPart(c: ScoringConfig, a: ContentAnalysis): real {
    if a.isAnswer then c.isAnswer else 0.0
  }

  function LengthPart(c: ScoringConfig, m: Message): real {
    Weighted(c.lengthBonus, |m.content|)
  }

  /** The unclamped score: every component, added up. */
  function RawScore(c: ScoringConfig, m: Message, a: ContentAnalysis): real {
    EntityPart(c, a) + CodePart(c, a) + UrlPart(c, a) + MarkerPart(c, a) + QuestionPart(c, a)
    + AnswerPart(c, a) + LengthPart(c, m) + RoleBonus(m.role)
  }

  /** `max(lo, min(x, hi))`. */
  function Clamp(lo: real, hi: real, x: real): (r: real)
    ensures r >= lo
    ensures lo <= hi ==> r <= hi
    ensures lo <= x <= hi ==> r == x
  {
    if x < hi then (if x < lo then lo else x) else (if hi < lo then lo else hi)
  }

  /** `score_message`. */
  function Score(c: ScoringConfig, m: Message, a: ContentAnalysis): real {
    Clamp(c.minScore, c.maxScore, RawScore(c, m, a))
  }

  /** With a sensible range, every score lies in it, and a score inside it is the raw sum. */
  lemma {:induction false} ScoreInRange(c: ScoringConfig, m: Message, a: ContentAnalysis)
    requires c.minScore <= c.maxScore
    ensures c.minScore <= Score(c, m, a) <= c.maxScore
    ensures c.minScore <= RawScore(c, m, a) <= c.maxScore ==> Score(c, m, a) == RawScore(c, m, a)
  {
  }

  /** `score_message`, accumulating component by component as the source does. */
  method ScoreMessage(c: ScoringConfig, m: Message, a: ContentAnalysis) returns (score: real)
    ensures score == Score(c, m, a)
    ensures c.minScore <= c.maxScore ==> c.minScore <= score <= c.maxScore
  {
    score := 0.0;
    if a.hasEntities {
      score := score + Weighted(c.hasEntities, |a.entities|);
    }
    assert score == EntityPart(c, a);
    if a.hasCode {
      score := score + Weighted(c.hasCode, |a.codeBlocks|);
    }
    assert score == EntityPart(c, a) + CodePart(c, a);
    if a.hasUrls {
      score := score + Weighted(c.hasUrls, |a.urls|);
    }
    assert score == EntityPart(c, a) + CodePart(c, a) + UrlPart(c, a);
    if a.hasImportantMarker {
      score := score + c.markedImportant;
    }
    if a.isQuestion {
      score := score + c.isQuestion;
    }
    if a.isAnswer {
      score := score + c.isAnswer;
    }
    assert score == EntityPart(c, a) + CodePart(c, a) + UrlPart(c, a) + MarkerPart(c, a) + QuestionPart(c, a)
                    + AnswerPart(c, a);
    score := score + Weighted(c.lengthBonus, |m.content|);
    if m.role == System {
      score := score + 50.0;
    } else if m.role == User {
      score := score + 2.0;
    }
    assert score == RawScore(c, m, a);
    score := Clamp(c.minScore, c.maxScore, score);
  }

  /** The component dictionary of `get_score_breakdown`. */
  datatype Breakdown = Breakdown(
    entities: real,
    codeBlocks: real,
    urls: real,
    importantMarker: real,
    isQuestion: real,
    isAnswer: real,
    lengthBonus: real,
    roleBonus: real,
    total: real)

  /** `get_score_breakdown`: each component separately, and a total equal to the score. */
  method ScoreBreakdown(c: ScoringConfig, m: Message, a: ContentAnalysis) returns (b: Breakdown)
    ensures b.total == Score(c, m, a)
    ensures b.entities == EntityPart(c, a) && b.codeBlocks == CodePart(c, a) && b.urls == UrlPart(c, a)
    ensures b.importantMarker == MarkerPart(c, a) && b.isQuestion == QuestionPart(c, a) && b.isAnswer == AnswerPart(c, a)
    ensures b.lengthBonus == LengthPart(c, m) && b.roleBonus == RoleBonus(m.role)
  {
    b := Breakdown(0.0, 0.0, 0.0, 0.0, 0.0, 0.0, 0.0, 0.0, 0.0);
    if a.hasEntities {
      b := b.(entities := Weighted(c.hasEntities, |a.entities|));
    }
    if a.hasCode {
      b := b.(codeBlocks := Weighted(c.hasCode, |a.codeBlocks|));
    }
    if a.hasUrls {
      b := b.(urls := Weighted(c.hasUrls, |a.urls|));
    }
    if a.hasImportantMarker {
      b := b.(importantMarker := c.markedImportant);
    }
    if a.isQuestion {
      b := b.(isQuestion := c.isQuestion);
    }
    if a.isAnswer {
      b := b.(isAnswer := c.isAnswer);
    }
    b := b.(lengthBonus := Weighted(c.lengthBonus, |m.content|));
    if m.role == System {
      b := b.(roleBonus := 50.0);
    } else if m.role == User {
      b := b.(roleBonus := 2.0);
    }
    var total := b.entities + b.codeBlocks + b.urls + b.importantMarker + b.isQuestion + b.isAnswer
                 + b.lengthBonus + b.roleBonus + b.total;
    b := b.(total := Clamp(c.minScore, c.maxScore, total));
  }

  /** `score_messages`: a pointwise map, or an error when the lists differ in length. */
  function ScoreMessages(c: ScoringConfig, ms: seq<Message>, analyses: seq<ContentAnalysis>): (r: Result<seq<real>, string>)
    ensures r.Err? <==> |ms| != |analyses|
    ensures r.Ok? ==> |r.value| == |ms| && forall i :: 0 <= i < |ms| ==> r.value[i] == Score(c, ms[i], analyses[i])
  {
    if |ms| != |analyses| then Err("Messages and analyses length mismatch")
    else Ok(seq(|ms|, i requires 0 <= i < |ms| => Score(c, ms[i], analyses[i])))
  }

  // ---------------------------------------------------------------------
  // Bands

  /** `classify_by_score`. */
  function ClassifyByScore(score: real, preserve: real, summarize: real, discard: real): string {
    if score >= preserve then "preserve"
    else if score >= summarize then "summarize"
    else if score >= discard then "summarize"
    else "discard"
  }

  /**
   * The three bands: preserve from the preserve threshold up, discard below
   * the discard threshold, summarize in between (for ordered thresholds).
   */
  lemma {:induction false} ClassifyBands(score: real, preserve: real, summarize: real, discard: real)
    requires discard <= summarize <= preserve
    ensures ClassifyByScore(score, preserve, summarize, discard) == "preserve" <==> score >= preserve
    ensures ClassifyByScore(score, preserve, summarize, discard) == "discard" <==> score < discard
    ensures ClassifyByScore(score, preserve, summarize, discard) == "summarize" <==> discard <= score < preserve
  {
  }

  // ---------------------------------------------------------------------
  // Ranking: a stable sort by descending score

  /** Index `x` ranks before index `y`: a higher score, or an equal score and an earlier position. */
  predicate Before(scores: seq<real>, x: nat, y: nat)
    requires x < |scores| && y < |scores|
  {
    scores[x] > scores[y] || (scores[x] == scores[y] && x < y)
  }

  predicate Below(r: seq<nat>, n: nat) {
    forall i :: 0 <= i < |r| ==> r[i] < n
  }

  predicate RankOrdered(scores: seq<real>, r: seq<nat>)
    requires Below(r, |scores|)
  {
    forall a, b :: 0 <= a < b < |r| ==> Before(scores, r[a], r[b])
  }

  /** Put index `x` after every leading index whose score is at least its own. */
  function Insert(scores: seq<real>, r: seq<nat>, x: nat): (q: seq<nat>)
    requires Below(r, |scores|) && x < |scores|
    ensures |q| == |r| + 1
    ensures multiset(q) == multiset(r) + multiset{x}
    ensures Below(q, |scores|)
  {
    if r == [] then [x]
    else if scores[r[0]] >= scores[x] then
      var rest := Insert(scores, r[1..], x);
      assert r == [r[0]] + r[1..];
      [r[0]] + rest
    else [x] + r
  }

  lemma {:induction false} InsertOrdered(scores: seq<real>, r: seq<nat>, x: nat)
    requires Below(r, x) && x < |scores| && Below(r, |scores|)
    requires RankOrdered(scores, r)
    ensures RankOrdered(scores, Insert(scores, r, x))
  {
    if r != [] {
      var q := Insert(scores, r, x);
      if scores[r[0]] >= scores[x] {
        var rest := Insert(scores, r[1..], x);
        assert RankOrdered(scores, r[1..]) by {
          forall a, b | 0 <= a < b < |r[1..]|
            ensures Before(scores, r[1..][a], r[1..][b])
          {
            assert r[1..][a] == r[a + 1] && r[1..][b] == r[b + 1];
          }
        }
        InsertOrdered(scores, r[1..], x);
        forall a, b | 0 <= a < b < |q|
          ensures Before(scores, q[a], q[b])
        {
          if a == 0 {
            assert q[b] == rest[b - 1];
            assert q[b] in multiset(rest);
            if q[b] == x {
            } else {
              assert q[b] in multiset(r[1..]);
              var j :| 0 <= j < |r[1..]| && r[1..][j] == q[b];
              assert Before(scores, r[0], r[j + 1]);
            }
          } else {
            assert q[a] == rest[a - 1] && q[b] == rest[b - 1];
          }
        }
      } else {
        forall a, b | 0 <= a < b < |q|
          ensures Before(scores, q[a], q[b])
        {
          if a == 0 {
            assert q[b] == r[b - 1];
            if b > 1 {
              assert Before(scores, r[0], r[b - 1]);
            }
          } else {
            assert q[a] == r[a - 1] && q[b] == r[b - 1];
          }
        }
      }
    }
  }

  /** The indices `0 .. n-1` in ascending order. */
  function Indices(n: nat): (r: seq<nat>)
    ensures |r| == n && forall i :: 0 <= i < n ==> r[i] == i
  {
    seq(n, i requires 0 <= i < n => i)
  }

  /** The indices of the first `n` scores, stably sorted by descending score. */
  function Ranked(scores: seq<real>, n: nat): (r: seq<nat>)
    requires n <= |scores|
    ensures |r| == n
    ensures Below(r, n)
    ensures multiset(r) == multiset(Indices(n))
  {
    if n == 0 then []
    else
      var init := Ranked(scores, n - 1);
      assert Indices(n) == Indices(n - 1) + [n - 1];
      assert Below(init, |scores|) by {
        assert forall i :: 0 <= i < |init| ==> init[i] < n - 1;
      }
      var r := Insert(scores, init, n - 1);
      assert Below(r, n) by {
        forall i | 0 <= i < |r|
          ensures r[i] < n
        {
          assert r[i] in multiset(r);
          if r[i] != n - 1 {
            assert r[i] in multiset(init);
          }
        }
      }
      r
  }

  /**
   * The ranking is sorted by descending score, and equal scores keep their
   * input order: the order a stable descending sort produces.
   */
  lemma {:induction false} RankedOrdered(scores: seq<real>, n: nat)
    requires n <= |scores|
    ensures Below(Ranked(scores, n), |scores|)
    ensures RankOrdered(scores, Ranked(scores, n))
  {
    if n > 0 {
      var init := Ranked(scores, n - 1);
      RankedOrdered(scores, n - 1);
      assert Below(init, n - 1);
      InsertOrdered(scores, init, n - 1);
      assert Ranked(scores, n) == Insert(scores, init, n - 1);
    }
  }

  /** `get_top_k_messages`: the first `k` (a Python slice bound) of the stably sorted pairs. */
  function TopK(ms: seq<Message>, scores: seq<real>, k: int): (r: Result<seq<(Message, real)>, string>)
    ensures r.Err? <==> |ms| != |scores|
  {
    if |ms| != |scores| then Err("Messages and scores length mismatch")
    else
      var top := Slices.Take(Ranked(scores, |scores|), k);
      Ok(seq(|top|, j requires 0 <= j < |top| => (ms[top[j]], scores[top[j]])))
  }

  /**
   * For `k >= 0` the result holds `min(k, n)` pairs, each an input message
   * with its own score, in non-increasing score order, stable on ties;
   * no input position appears twice.
   */
  lemma {:induction false} TopKSound(ms: seq<Message>, scores: seq<real>, k: int)
    requires |ms| == |scores|
    ensures var r := TopK(ms, scores, k).value;
            var top := Slices.Take(Ranked(scores, |scores|), k);
            && (k >= 0 ==> |r| == Slices.Min(k, |ms|))
            && |r| == |top|
            && (forall j :: 0 <= j < |r| ==> top[j] < |ms| && r[j] == (ms[top[j]], scores[top[j]]))
            && (forall a, b :: 0 <= a < b < |r| ==> Before(scores, top[a], top[b]))
            && (forall a, b :: 0 <= a < b < |r| ==> r[a].1 >= r[b].1)
  {
    RankedOrdered(scores, |scores|);
    var full := Ranked(scores, |scores|);
    var top := Slices.Take(full, k);
    assert forall j :: 0 <= j < |top| ==> top[j] == full[j];
  }

  // ---------------------------------------------------------------------
  // Aggregates

  function Sum(s: seq<real>): real {
    if s == [] then 0.0 else Sum(s[..|s| - 1]) + s[|s| - 1]
  }

  /** Bounds on every element bound the sum. */
  lemma {:induction false} SumBounds(s: seq<real>, lo: real, hi: real)
    requires forall i :: 0 <= i < |s| ==> lo <= s[i] <= hi
    ensures lo * |s| as real <= Sum(s) <= hi * |s| as real
  {
    if s != [] {
      SumBounds(s[..|s| - 1], lo, hi);
    }
  }

  /** `calculate_average_score`. */
  function Average(s: seq<real>): real {
    if s == [] then 0.0 else Sum(s) / |s| as real
  }

  lemma {:induction false} DivideBounds(x: real, n: real, lo: real, hi: real)
    requires n > 0.0 && lo * n <= x <= hi * n
    ensures lo <= x / n <= hi
  {
    var q := x / n;
    assert x == q * n;
  }

  lemma {:induction false} DivideMonotone(p: real, q: real, n: real)
    requires n > 0.0 && p <= q
    ensures p / n <= q / n
  {
    assert (p / n) * n == p;
    assert (q / n) * n == q;
    DivideBounds(p, n, p / n, q / n);
  }

  /** The average of a non-empty list lies between any lower and upper bound of its elements. */
  lemma {:induction false} AverageBounds(s: seq<real>, lo: real, hi: real)
    requires s != []
    requires forall i :: 0 <= i < |s| ==> lo <= s[i] <= hi
    ensures lo <= Average(s) <= hi
  {
    SumBounds(s, lo, hi);
    DivideBounds(Sum(s), |s| as real, lo, hi);
  }

  /** How many of `s` are at most `x`. */
  function CountAtMost(s: seq<real>, x: real): (c: nat)
    ensures c <= |s|
  {
    if s == [] then 0 else CountAtMost(s[..|s| - 1], x) + (if s[|s| - 1] <= x then 1 else 0)
  }

  lemma {:induction false} CountAtMostMonotone(s: seq<real>, x: real, y: real)
    requires x <= y
    ensures CountAtMost(s, x) <= CountAtMost(s, y)
  {
    if s != [] {
      CountAtMostMonotone(s[..|s| - 1], x, y);
    }
  }

  /** `calculate_score_percentile`: the fraction of scores at most `x`. */
  function Percentile(x: real, s: seq<real>): real {
    if s == [] then 0.0 else CountAtMost(s, x) as real / |s| as real
  }

  /** A percentile is a fraction, and a higher score never has a lower percentile. */
  lemma {:induction false} PercentileSound(x: real, y: real, s: seq<real>)
    ensures 0.0 <= Percentile(x, s) <= 1.0
    ensures x <= y ==> Percentile(x, s) <= Percentile(y, s)
  {
    if s != [] {
      var n := |s| as real;
      DivideBounds(CountAtMost(s, x) as real, n, 0.0, 1.0);
      if x <= y {
        CountAtMostMonotone(s, x, y);
        DivideMonotone(CountAtMost(s, x) as real, CountAtMost(s, y) as real, n);
      }
    }
  }
}
