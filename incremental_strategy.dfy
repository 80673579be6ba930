/**
 * The incremental adaptive strategy: one rolling summary per session,
 * folded forward each time enough new messages have arrived, with the
 * most recent non-system messages kept verbatim and the summary state
 * dropped once its depth reaches the configured maximum.
 *
 * The strategy object owns a mutable map from session id to
 * `SummaryState`; `Step` is the pure specification of one `apply` call
 * on that map, and the class's methods are proved against it.
 */
module IncrementalStrategy {
  import opened Wrappers
  import opened Messages
  import opened AdaptiveModels
  import Text
  import Slices
  import Timestamps

  datatype SummaryState = SummaryState(
    summaryText: string,
    depth: int,
    createdAt: Timestamps.DateTime,
    messageCount: int)

  /** What `get_summary_info` reports about a session's state. */
  datatype SummaryInfo = SummaryInfo(
    depth: int,
    messageCount: int,
    createdAt: string,
    summaryLength: nat)

  // ---------------------------------------------------------------------
  // Stored states

  function Lookup(states: map<string, SummaryState>, id: string): (r: Option<SummaryState>)
    ensures r.Some? <==> id in states
    ensures r.Some? ==> r.value == states[id]
  {
    if id in states then Some(states[id]) else None
  }

  /**
   * The invariant every reachable state map keeps: each stored depth lies
   * in `[1, max(1, maxSummaryDepth)]`, each stored summary is non-empty and
   * each stamp is a valid timestamp.
   */
  ghost predicate Bounded(c: IncrementalConfig, states: map<string, SummaryState>) {
    forall id :: id in states ==>
      1 <= states[id].depth <= Slices.Max(1, c.maxSummaryDepth)
      && states[id].summaryText != []
      && Timestamps.Valid(states[id].createdAt)
  }

  /** `get_summary_info` on a state map: nothing for an unknown session. */
  function Info(states: map<string, SummaryState>, id: string): (r: Option<SummaryInfo>)
    requires id in states ==> Timestamps.Valid(states[id].createdAt)
    ensures r.Some? <==> id in states
    ensures r.Some? ==> (r.value.depth == states[id].depth
      && r.value.messageCount == states[id].messageCount
      && r.value.summaryLength == |states[id].summaryText|
      && r.value.createdAt == Timestamps.Iso(states[id].createdAt))
  {
    if id in states then
      var st := states[id];
      Some(SummaryInfo(st.depth, st.messageCount, Timestamps.Iso(st.createdAt), |st.summaryText|))
    else None
  }

  /** Clearing a session forgets its state and leaves every other session's report as it was. */
  lemma {:induction false} ClearForgetsOnlyThatSession(states: map<string, SummaryState>, id: string, other: string)
    requires forall k :: k in states ==> Timestamps.Valid(states[k].createdAt)
    requires other != id
    ensures Info(states - {id}, id) == None
    ensures Info(states - {id}, other) == Info(states, other)
  {
  }

  // ---------------------------------------------------------------------
  // Trigger and depth reset

  /**
   * `_should_trigger_summarization`: on the first pass, more messages than
   * window plus kept ones; afterwards, at least a window's worth of new
   * messages since the last pass.
   */
  predicate TriggerDue(c: IncrementalConfig, prev: Option<SummaryState>, n: int) {
    match prev
    case None => n > c.summaryWindow + c.keepRecent
    case Some(st) => n - st.messageCount >= c.summaryWindow
  }

  /** `_should_reset_depth`: a stored state whose depth has reached the maximum. */
  predicate DepthExhausted(c: IncrementalConfig, prev: Option<SummaryState>) {
    prev.Some? && prev.value.depth >= c.maxSummaryDepth
  }

  /** The state map once an exhausted state for `id` has been dropped. */
  function AfterReset(c: IncrementalConfig, states: map<string, SummaryState>, id: string): map<string, SummaryState> {
    if DepthExhausted(c, Lookup(states, id)) then states - {id} else states
  }

  /** The depth the next pass stores after a state of depth `d`: one more, or 1 once the maximum is reached. */
  function NextDepth(c: IncrementalConfig, d: int): int {
    if d >= c.maxSummaryDepth then 1 else d + 1
  }

  // ---------------------------------------------------------------------
  // Placeholder summary and summary message

  /**
   * `_generate_summary` (its placeholder text): the previous summary, when
   * non-empty, is extended by a note of how many messages were added;
   * otherwise a fresh note is written.
   */
  function GenerateSummary(count: nat, previous: Option<string>): (r: string)
    ensures r != []
    ensures previous.Some? && previous.value != [] ==>
      |r| > |previous.value| && r[..|previous.value|] == previous.value
  {
    if previous.Some? && previous.value != [] then
      previous.value + "\n\n[New: " + Text.NatToString(count) + " messages added]"
    else "[Summary of " + Text.NatToString(count) + " messages]"
  }

  /** The content of the summary message a pass inserts. */
  function SummaryContent(prefix: string, depth: int, summary: string): string {
    prefix + " (Depth " + Text.IntToString(depth) + "): " + summary
  }

  // ---------------------------------------------------------------------
  // Recent and older messages

  /** As written: Python `others[-k:]`, the messages kept verbatim. */
  function RecentAsWritten(others: seq<Message>, k: int): seq<Message> {
    Slices.Drop(others, -k)
  }

  /** As written: Python `others[:-k]`, the messages folded into the summary. */
  function OlderAsWritten(others: seq<Message>, k: int): seq<Message> {
    Slices.Take(others, -k)
  }

  /**
   * With `keep_recent = 0` the slices as written keep every message and
   * fold none (`others[:-0]` is empty), so no pass ever happens.
   */
  lemma {:induction false} KeepZeroFoldsNothing(others: seq<Message>)
    ensures OlderAsWritten(others, 0) == []
    ensures RecentAsWritten(others, 0) == others
  {
    Slices.NegativeZeroSlices(others);
  }

  /** How many of the newest non-system messages are kept: `keep_recent`, clamped to `[0, |others|]`. */
  function KeepCount(others: seq<Message>, k: int): nat {
    Slices.Min(Slices.Max(k, 0), |others|)
  }

  /** The newest `KeepCount` non-system messages, kept verbatim. */
  function Recent(others: seq<Message>, k: int): (r: seq<Message>)
    ensures |r| == KeepCount(others, k)
    ensures r == others[|others| - KeepCount(others, k)..]
  {
    others[|others| - KeepCount(others, k)..]
  }

  /** Everything before the kept messages: what a pass folds into the summary. */
  function Older(others: seq<Message>, k: int): (r: seq<Message>)
    ensures r + Recent(others, k) == others
    ensures |r| == |others| - KeepCount(others, k)
  {
    others[..|others| - KeepCount(others, k)]
  }

  /** For a positive `keep_recent` the corrected split is exactly the slices as written. */
  lemma {:induction false} SplitAgreesWhenPositive(others: seq<Message>, k: int)
    requires k > 0
    ensures Recent(others, k) == RecentAsWritten(others, k)
    ensures Older(others, k) == OlderAsWritten(others, k)
  {
    Slices.NegativeSlices(others, k);
  }

  /** With `keep_recent = 0` the corrected split folds every non-system message. */
  lemma {:induction false} KeepZeroFoldsAll(others: seq<Message>)
    ensures Older(others, 0) == others
    ensures Recent(others, 0) == []
  {
  }

  // ---------------------------------------------------------------------
  // One apply call, as a function of the state map

  datatype Outcome = Outcome(output: seq<Message>, states: map<string, SummaryState>)

  /** The condition under which a call folds older messages into a new summary. */
  predicate Folds(c: IncrementalConfig, states: map<string, SummaryState>, ms: seq<Message>, id: string) {
    ms != []
    && TriggerDue(c, Lookup(AfterReset(c, states, id), id), |ms|)
    && Older(OtherMessages(ms, true), c.keepRecent) != []
  }

  /** `apply` on session `id` at time `now`: the messages returned and the state map afterwards. */
  function Step(c: IncrementalConfig, states: map<string, SummaryState>, ms: seq<Message>, id: string, now: Timestamps.DateTime): Outcome {
    if ms == [] then Outcome([], states)
    else
      var st := AfterReset(c, states, id);
      var prev := Lookup(st, id);
      var others := OtherMessages(ms, true);
      var older := Older(others, c.keepRecent);
      if !TriggerDue(c, prev, |ms|) || older == [] then Outcome(ms, st)
      else
        var depth := (if prev.Some? then prev.value.depth else 0) + 1;
        var text := GenerateSummary(|older|, if prev.Some? then Some(prev.value.summaryText) else None);
        var summary := Plain(System, SummaryContent(c.summaryPrefix, depth, text));
        Outcome(SystemMessages(ms, true) + [summary] + Recent(others, c.keepRecent),
          st[id := SummaryState(text, depth, now, |ms|)])
  }

  /** A call touches no other session's state. */
  lemma {:induction false} StepIsolated(c: IncrementalConfig, states: map<string, SummaryState>, ms: seq<Message>, id: string, now: Timestamps.DateTime, other: string)
    requires other != id
    ensures other in Step(c, states, ms, id, now).states <==> other in states
    ensures other in states ==> Step(c, states, ms, id, now).states[other] == states[other]
  {
  }

  /**
   * A call that does not fold returns its input unchanged; the session's
   * state is then either kept as it was or, on a non-empty input, dropped
   * when its depth was exhausted.
   */
  lemma {:induction false} StepWithoutFold(c: IncrementalConfig, states: map<string, SummaryState>, ms: seq<Message>, id: string, now: Timestamps.DateTime)
    requires !Folds(c, states, ms, id)
    ensures Step(c, states, ms, id, now).output == ms
    ensures id in Step(c, states, ms, id, now).states ==>
      id in states && Step(c, states, ms, id, now).states[id] == states[id]
    ensures ms != [] && DepthExhausted(c, Lookup(states, id)) ==> id !in Step(c, states, ms, id, now).states
  {
  }

  /**
   * A folding call returns the system messages, one system summary message
   * tagged with the stored depth, and the newest `KeepCount` other messages,
   * in order; something older was folded, and the stored state records the
   * message count and the time of the pass.
   */
  lemma {:induction false} StepFoldShape(c: IncrementalConfig, states: map<string, SummaryState>, ms: seq<Message>, id: string, now: Timestamps.DateTime)
    requires Folds(c, states, ms, id)
    ensures var r := Step(c, states, ms, id, now);
      var others := OtherMessages(ms, true);
      var k := KeepCount(others, c.keepRecent);
      id in r.states
      && k < |others|
      && r.output == SystemMessages(ms, true)
        + [Plain(System, SummaryContent(c.summaryPrefix, r.states[id].depth, r.states[id].summaryText))]
        + others[|others| - k..]
      && r.states[id].messageCount == |ms|
      && r.states[id].createdAt == now
  {
  }

  /**
   * The depth a folding call stores: `NextDepth` of the previous one, or 1
   * without a previous state; and the trigger it met.
   */
  lemma {:induction false} StepFoldDepth(c: IncrementalConfig, states: map<string, SummaryState>, ms: seq<Message>, id: string, now: Timestamps.DateTime)
    requires Folds(c, states, ms, id)
    ensures id !in states ==> Step(c, states, ms, id, now).states[id].depth == 1
    ensures id in states ==> Step(c, states, ms, id, now).states[id].depth == NextDepth(c, states[id].depth)
    ensures id in AfterReset(c, states, id) ==> |ms| - states[id].messageCount >= c.summaryWindow
    ensures id !in AfterReset(c, states, id) ==> |ms| > c.summaryWindow + c.keepRecent
  {
  }

  /**
   * Until the depth is exhausted, a folding call extends the previous
   * summary rather than replacing it.
   */
  lemma {:induction false} StepSummaryAccumulates(c: IncrementalConfig, states: map<string, SummaryState>, ms: seq<Message>, id: string, now: Timestamps.DateTime)
    requires Folds(c, states, ms, id)
    requires id in states && states[id].summaryText != [] && states[id].depth < c.maxSummaryDepth
    ensures var prev := states[id].summaryText;
      var text := Step(c, states, ms, id, now).states[id].summaryText;
      |text| > |prev| && text[..|prev|] == prev
  {
  }

  /** Every call keeps the depth bound, the non-empty summaries and the valid stamps. */
  lemma {:induction false} StepBounded(c: IncrementalConfig, states: map<string, SummaryState>, ms: seq<Message>, id: string, now: Timestamps.DateTime)
    requires Bounded(c, states) && Timestamps.Valid(now)
    ensures Bounded(c, Step(c, states, ms, id, now).states)
  {
    var r := Step(c, states, ms, id, now);
    if Folds(c, states, ms, id) {
      StepFoldDepth(c, states, ms, id, now);
      forall k | k in r.states
        ensures 1 <= r.states[k].depth <= Slices.Max(1, c.maxSummaryDepth)
        ensures r.states[k].summaryText != [] && Timestamps.Valid(r.states[k].createdAt)
      {
        if k != id {
          StepIsolated(c, states, ms, id, now, k);
        }
      }
    }
  }

  // ---------------------------------------------------------------------
  // The depth cycle

  /** The depth stored after `n >= 1` consecutive folding calls on a session that started with no state. */
  function DepthAfter(c: IncrementalConfig, n: nat): int
    requires n >= 1
  {
    if n == 1 then 1 else NextDepth(c, DepthAfter(c, n - 1))
  }

  /** The first `max(1, maxSummaryDepth)` folds store depths 1, 2, ... in turn. */
  lemma {:induction false} DepthAfterFirstCycle(c: IncrementalConfig, n: nat)
    requires 1 <= n <= Slices.Max(1, c.maxSummaryDepth)
    ensures DepthAfter(c, n) == n
  {
    if n > 1 {
      DepthAfterFirstCycle(c, n - 1);
    }
  }

  /**
   * After that the depths repeat with period `max(1, maxSummaryDepth)`: the
   * stored depth never exceeds the configured maximum.
   */
  lemma {:induction false} DepthAfterCycles(c: IncrementalConfig, n: nat)
    requires n >= 1
    ensures DepthAfter(c, n + Slices.Max(1, c.maxSummaryDepth)) == DepthAfter(c, n)
  {
    var m := Slices.Max(1, c.maxSummaryDepth);
    if n == 1 {
      DepthAfterFirstCycle(c, m);
    } else {
      DepthAfterCycles(c, n - 1);
      assert n + m - 1 == (n - 1) + m;
    }
  }

  /** Every stored depth of a chain of folds lies in `[1, max(1, maxSummaryDepth)]`. */
  lemma {:induction false} DepthAfterBounded(c: IncrementalConfig, n: nat)
    requires n >= 1
    ensures 1 <= DepthAfter(c, n) <= Slices.Max(1, c.maxSummaryDepth)
  {
    if n > 1 {
      DepthAfterBounded(c, n - 1);
    }
  }

  /** Feeding `max + 1` folding windows to one session brings its depth back to 1. */
  lemma {:induction false} DepthResetsAfterMax(c: IncrementalConfig)
    requires c.maxSummaryDepth >= 1
    ensures DepthAfter(c, c.maxSummaryDepth) == c.maxSummaryDepth
    ensures DepthAfter(c, c.maxSummaryDepth + 1) == 1
  {
    DepthAfterFirstCycle(c, c.maxSummaryDepth);
    DepthAfterCycles(c, 1);
  }

  /** `Step` on a non-empty input, spelled out branch by branch. */
  lemma {:induction false} StepUnfolded(c: IncrementalConfig, states: map<string, SummaryState>, ms: seq<Message>, id: string, now: Timestamps.DateTime)
    requires ms != []
    ensures var st := AfterReset(c, states, id);
      var prev := Lookup(st, id);
      var others := OtherMessages(ms, true);
      var older := Older(others, c.keepRecent);
      var depth := (if prev.Some? then prev.value.depth else 0) + 1;
      var text := GenerateSummary(|older|, if prev.Some? then Some(prev.value.summaryText) else None);
      Step(c, states, ms, id, now) ==
        if !TriggerDue(c, prev, |ms|) || older == [] then Outcome(ms, st)
        else Outcome(SystemMessages(ms, true) + [Plain(System, SummaryContent(c.summaryPrefix, depth, text))]
                       + Recent(others, c.keepRecent),
                     st[id := SummaryState(text, depth, now, |ms|)])
  {
  }

  // ---------------------------------------------------------------------
  // The strategy object

  class Incremental {
    const config: IncrementalConfig
    var states: map<string, SummaryState>

    ghost predicate Valid()
      reads this
    {
      Bounded(config, states)
    }

    constructor (config: IncrementalConfig)
      ensures this.config == config && states == map[] && Valid()
    {
      this.config := config;
      states := map[];
    }

    /** `_get_summary_state`. */
    function GetSummaryState(id: string): (r: Option<SummaryState>)
      reads this
      ensures r.Some? <==> id in states
      ensures r.Some? ==> r.value == states[id]
    {
      Lookup(states, id)
    }

    /** `_save_summary_state`: stores a fresh state for `id`, stamped `now`. */
    method SaveSummaryState(id: string, text: string, depth: int, count: int, now: Timestamps.DateTime)
      modifies this
      ensures states == old(states)[id := SummaryState(text, depth, now, count)]
    {
      states := states[id := SummaryState(text, depth, now, count)];
    }

    /** `_reset_summary_state`: forgets the state of `id`, if any. */
    method ResetSummaryState(id: string)
      modifies this
      ensures states == old(states) - {id}
    {
      if id in states {
        states := states - {id};
      }
    }

    /** `apply`, proved against `Step`; it keeps the depth bound. */
    method Apply(ms: seq<Message>, id: string, now: Timestamps.DateTime) returns (out: seq<Message>)
      modifies this
      ensures out == Step(config, old(states), ms, id, now).output
      ensures states == Step(config, old(states), ms, id, now).states
      ensures old(Valid()) && Timestamps.Valid(now) ==> Valid()
    {
      if ms == [] {
        out := [];
      } else {
        if DepthExhausted(config, GetSummaryState(id)) {
          ResetSummaryState(id);
        }
        assert states == AfterReset(config, old(states), id);
        if !TriggerDue(config, GetSummaryState(id), |ms|) {
          out := ms;
          StepUnfolded(config, old(states), ms, id, now);
        } else {
          var system := SystemMessages(ms, true);
          var others := OtherMessages(ms, true);
          var recent := Recent(others, config.keepRecent);
          var older := Older(others, config.keepRecent);
          if older == [] {
            out := ms;
            StepUnfolded(config, old(states), ms, id, now);
          } else {
            var prev := GetSummaryState(id);
            var previousSummary := if prev.Some? then Some(prev.value.summaryText) else None;
            var previousDepth := if prev.Some? then prev.value.depth else 0;
            var summary := GenerateSummary(|older|, previousSummary);
            var depth := previousDepth + 1;
            SaveSummaryState(id, summary, depth, |ms|, now);
            out := system + [Plain(System, SummaryContent(config.summaryPrefix, depth, summary))] + recent;
            StepUnfolded(config, old(states), ms, id, now);
          }
        }
      }
      if Bounded(config, old(states)) && Timestamps.Valid(now) {
        StepBounded(config, old(states), ms, id, now);
      }
    }

    /** `get_summary_info`. */
    function GetSummaryInfo(id: string): (r: Option<SummaryInfo>)
      requires Valid()
      reads this
      ensures r.Some? <==> id in states
      ensures r.Some? ==> r.value.depth == states[id].depth && r.value.messageCount == states[id].messageCount
      ensures r.Some? ==> r.value.createdAt == Timestamps.Iso(states[id].createdAt)
                          && r.value.summaryLength == |states[id].summaryText|
    {
      Info(states, id)
    }

    /** `clear_session`: forgets this session's state only. */
    method ClearSession(id: string)
      modifies this
      ensures states == old(states) - {id}
      ensures old(Valid()) ==> Valid()
    {
      ResetSummaryState(id);
    }
  }
}
