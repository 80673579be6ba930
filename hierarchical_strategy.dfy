/**
 * The hierarchical summarization strategy: every message is scored against
 * each configured layer's content-type triggers, assigned to the best
 * layer, and then kept (possibly truncated), digested in detail, digested
 * briefly or dropped, according to that layer's action.
 *
 * The layer dictionary is an association list in insertion order whose
 * names are distinct (a Python dict cannot hold a key twice).
 */
module HierarchicalStrategy {
  import opened Wrappers
  import opened Text
  import opened Messages
  import opened AdaptiveModels
  import opened ContentAnalyzers
  import Slices

  // ---------------------------------------------------------------------
  // Configuration validation

  predicate NamesDistinct(c: HierarchicalConfig) {
    forall i, j :: 0 <= i < j < |c.layers| ==> c.layers[i].0 != c.layers[j].0
  }

  function Priorities(c: HierarchicalConfig): (ps: seq<int>)
    ensures |ps| == |c.layers|
    ensures forall k :: 0 <= k < |ps| ==> ps[k] == c.layers[k].1.priority
  {
    seq(|c.layers|, k requires 0 <= k < |c.layers| => c.layers[k].1.priority)
  }

  predicate Distinct(s: seq<int>) {
    forall i, j :: 0 <= i < j < |s| ==> s[i] != s[j]
  }

  /** Python's `set(s)`. */
  function ToSet(s: seq<int>): (r: set<int>)
    ensures forall x :: x in r <==> x in s
  {
    if s == [] then {} else ToSet(s[..|s| - 1]) + {s[|s| - 1]}
  }

  lemma {:induction false} DistinctSnoc(init: seq<int>, x: int)
    ensures Distinct(init + [x]) <==> Distinct(init) && x !in init
  {
    var s := init + [x];
    if Distinct(s) {
      forall i, j | 0 <= i < j < |init|
        ensures init[i] != init[j]
      {
        assert s[i] == init[i] && s[j] == init[j];
      }
      forall i | 0 <= i < |init|
        ensures init[i] != x
      {
        assert s[i] == init[i] && s[|init|] == x;
      }
    }
  }

  /** `len(s) == len(set(s))` holds exactly when `s` repeats no value. */
  lemma {:induction false} SetSizeDistinct(s: seq<int>)
    ensures |ToSet(s)| <= |s|
    ensures |ToSet(s)| == |s| <==> Distinct(s)
  {
    if s != [] {
      var init, x := s[..|s| - 1], s[|s| - 1];
      assert s == init + [x];
      SetSizeDistinct(init);
      DistinctSnoc(init, x);
      if x in init {
        assert ToSet(s) == ToSet(init);
      } else {
        assert x !in ToSet(init);
        assert ToSet(s) == ToSet(init) + {x};
      }
    }
  }

  /** `_validate_config`: at least one layer, and no two layers share a priority. */
  function ValidateLayers(c: HierarchicalConfig): (r: Result<HierarchicalConfig, string>)
  {
    if c.layers == [] then Err("Hierarchical config must have at least one layer")
    else if |Priorities(c)| != |ToSet(Priorities(c))| then Err("Layer priorities must be unique")
    else Ok(c)
  }

  lemma {:induction false} ValidateLayersSound(c: HierarchicalConfig)
    ensures ValidateLayers(c).Ok? <==> c.layers != [] && Distinct(Priorities(c))
    ensures ValidateLayers(c).Ok? ==> ValidateLayers(c).value == c
  {
    SetSizeDistinct(Priorities(c));
  }

  /** A constructed strategy: its configuration passed validation. */
  datatype Strategy = Strategy(config: HierarchicalConfig, analyzers: Analyzers)

  predicate Valid(s: Strategy) {
    s.config.layers != [] && Distinct(Priorities(s.config)) && NamesDistinct(s.config)
  }

  /** The constructor: fails exactly as `_validate_config` does. */
  function NewStrategy(c: HierarchicalConfig, an: Analyzers): (r: Result<Strategy, string>)
    requires NamesDistinct(c)
    ensures r.Ok? <==> c.layers != [] && Distinct(Priorities(c))
    ensures r.Ok? ==> Valid(r.value) && r.value.config == c
  {
    ValidateLayersSound(c);
    match ValidateLayers(c)
    case Ok(_) => Ok(Strategy(c, an))
    case Err(e) => Err(e)
  }

  // ---------------------------------------------------------------------
  // Classification

  /** The preserve-action rule matches (the action lives on the match's rule). */
  function PreserveMatches(ms: seq<RuleMatch>): (r: seq<RuleMatch>)
    ensures |r| <= |ms|
    ensures forall m :: m in r <==> m in ms && m.rule.action == PreserveMatch
  {
    if ms == [] then []
    else
      var init := PreserveMatches(ms[..|ms| - 1]);
      var m := ms[|ms| - 1];
      assert ms == ms[..|ms| - 1] + [m];
      if m.rule.action == PreserveMatch then init + [m] else init
  }

  /** What one content-type trigger adds to a layer's score. */
  function TriggerScore(contentType: string, m: Message, a: ContentAnalysis): (score: nat)
  {
    if contentType == "system_messages" && m.role == System then 100
    else if contentType == "entities" && a.entities != [] then |a.entities| * 10
    else if contentType == "code_blocks" && a.codeBlocks != [] then |a.codeBlocks| * 15
    else if contentType == "urls" && a.urls != [] then |a.urls| * 5
    else if contentType == "important_markers" && a.hasImportantMarker then 50
    else if contentType == "questions" && a.isQuestion then 20
    else if contentType == "answers" && a.isAnswer then 20
    else if contentType == "custom_rules" && a.ruleMatches != [] then |PreserveMatches(a.ruleMatches)| * 30
    else 0
  }

  /** A layer's score: the triggers of its content types, summed in order. */
  function LayerScore(types: seq<string>, m: Message, a: ContentAnalysis): nat {
    if types == [] then 0
    else LayerScore(types[..|types| - 1], m, a) + TriggerScore(types[|types| - 1], m, a)
  }

  /** Scores add up over a concatenation of content-type lists. */
  lemma {:induction false} LayerScoreAppend(t1: seq<string>, t2: seq<string>, m: Message, a: ContentAnalysis)
    ensures LayerScore(t1 + t2, m, a) == LayerScore(t1, m, a) + LayerScore(t2, m, a)
    decreases |t2|
  {
    if t2 == [] {
      assert t1 + t2 == t1;
    } else {
      var init := t2[..|t2| - 1];
      assert (t1 + t2)[..|t1 + t2| - 1] == t1 + init;
      LayerScoreAppend(t1, init, m, a);
    }
  }

  /** A layer that lists `system_messages` scores at least 100 for a system message. */
  lemma {:induction false} SystemTriggerCounts(types: seq<string>, m: Message, a: ContentAnalysis)
    requires "system_messages" in types && m.role == System
    ensures LayerScore(types, m, a) >= 100
  {
    var k :| 0 <= k < |types| && types[k] == "system_messages";
    assert types == types[..k] + [types[k]] + types[k + 1..];
    LayerScoreAppend(types[..k] + [types[k]], types[k + 1..], m, a);
    LayerScoreAppend(types[..k], [types[k]], m, a);
    assert [types[k]][..0] == [];
  }

  /** The inner loop of `_classify_message` for one layer. */
  method ScoreLayer(types: seq<string>, m: Message, a: ContentAnalysis) returns (score: nat)
    ensures score == LayerScore(types, m, a)
  {
    score := 0;
    for i := 0 to |types|
      invariant score == LayerScore(types[..i], m, a)
    {
      assert types[..i + 1][..i] == types[..i];
      score := score + TriggerScore(types[i], m, a);
    }
    assert types[..|types|] == types;
  }

  /** The `max` key: a higher score wins, and on equal scores the higher priority. */
  predicate Above(x: (int, int), y: (int, int)) {
    x.0 > y.0 || (x.0 == y.0 && x.1 > y.1)
  }

  /**
   * Python's `max` over the layers by (score, priority): the first key no
   * other key is above.
   */
  function BestIndex(keys: seq<(int, int)>): (b: nat)
    requires keys != []
    ensures b < |keys|
    ensures forall j :: 0 <= j < |keys| ==> !Above(keys[j], keys[b])
    ensures forall j :: 0 <= j < b ==> Above(keys[b], keys[j])
  {
    if |keys| == 1 then 0
    else
      var b := BestIndex(keys[..|keys| - 1]);
      assert forall j :: 0 <= j < |keys| - 1 ==> keys[j] == keys[..|keys| - 1][j];
      if Above(keys[|keys| - 1], keys[b]) then |keys| - 1 else b
  }

  /** With distinct priorities, no two different keys tie, so the best layer is the unique maximum. */
  lemma {:induction false} BestIndexUnique(keys: seq<(int, int)>, i: nat)
    requires keys != [] && i < |keys|
    requires forall p, q :: 0 <= p < q < |keys| ==> keys[p].1 != keys[q].1
    requires forall j :: 0 <= j < |keys| ==> !Above(keys[j], keys[i])
    ensures i == BestIndex(keys)
  {
    var b := BestIndex(keys);
    assert keys[i].1 == keys[b].1;
  }

  /** The (score, priority) key of every layer for one message. */
  function LayerKeys(c: HierarchicalConfig, m: Message, a: ContentAnalysis): (keys: seq<(int, int)>)
    ensures |keys| == |c.layers|
    ensures forall k :: 0 <= k < |keys| ==>
              keys[k] == (LayerScore(c.layers[k].1.contentTypes, m, a) as int, c.layers[k].1.priority)
  {
    seq(|c.layers|, k requires 0 <= k < |c.layers| =>
      (LayerScore(c.layers[k].1.contentTypes, m, a) as int, c.layers[k].1.priority))
  }

  /** `MessageLayer`: a message with the layer it was assigned to. */
  datatype MessageLayer = MessageLayer(
    message: Message,
    layerName: string,
    layerPriority: int,
    action: LayerAction,
    analysis: ContentAnalysis)

  /** The index of the layer a message is assigned to. */
  function LayerIndex(s: Strategy, m: Message, a: ContentAnalysis): (k: nat)
    requires Valid(s)
    ensures k < |s.config.layers|
  {
    BestIndex(LayerKeys(s.config, m, a))
  }

  /** `_classify_message`. */
  function Classify(s: Strategy, m: Message, a: ContentAnalysis): MessageLayer
    requires Valid(s)
  {
    var (name, layer) := s.config.layers[LayerIndex(s, m, a)];
    MessageLayer(m, name, layer.priority, layer.action, a)
  }

  /**
   * The assigned layer scores at least as high as every other, and beats
   * every layer with the same score on priority.
   */
  lemma {:induction false} ClassifyIsBest(s: Strategy, m: Message, a: ContentAnalysis, j: nat)
    requires Valid(s) && j < |s.config.layers|
    ensures var ml := Classify(s, m, a);
            var k := LayerIndex(s, m, a);
            && ml.layerName == s.config.layers[k].0
            && LayerScore(s.config.layers[j].1.contentTypes, m, a) <= LayerScore(s.config.layers[k].1.contentTypes, m, a)
            && (j != k && LayerScore(s.config.layers[j].1.contentTypes, m, a) == LayerScore(s.config.layers[k].1.contentTypes, m, a)
                ==> s.config.layers[j].1.priority < ml.layerPriority)
  {
    var keys := LayerKeys(s.config, m, a);
    var k := LayerIndex(s, m, a);
    assert !Above(keys[j], keys[k]);
    if j != k {
      assert Priorities(s.config)[j] != Priorities(s.config)[k] by {
        if j < k { } else { }
      }
    }
  }

  method ClassifyMessage(s: Strategy, m: Message, a: ContentAnalysis) returns (ml: MessageLayer)
    requires Valid(s)
    ensures ml == Classify(s, m, a)
  {
    var keys: seq<(int, int)> := [];
    for k := 0 to |s.config.layers|
      invariant keys == LayerKeys(s.config, m, a)[..k]
    {
      var score := ScoreLayer(s.config.layers[k].1.contentTypes, m, a);
      keys := keys + [(score as int, s.config.layers[k].1.priority)];
    }
    assert keys == LayerKeys(s.config, m, a);
    var best := BestIndex(keys);
    var (name, layer) := s.config.layers[best];
    ml := MessageLayer(m, name, layer.priority, layer.action, a);
  }

  // ---------------------------------------------------------------------
  // Rewriting one message

  /** `self.config.layers[name]`: the layer registered under `name`. */
  function LayerNamed(c: HierarchicalConfig, name: string): (r: Option<LayerConfig>)
    ensures r.None? <==> forall k :: 0 <= k < |c.layers| ==> c.layers[k].0 != name
    decreases |c.layers|
  {
    if c.layers == [] then None
    else if c.layers[0].0 == name then Some(c.layers[0].1)
    else
      var r := LayerNamed(HierarchicalConfig(c.layers[1..]), name);
      assert forall k :: 1 <= k < |c.layers| ==> c.layers[k] == c.layers[1..][k - 1];
      r
  }

  /** With distinct names, looking a layer up by its own name gives that layer. */
  lemma {:induction false} LayerNamedFinds(c: HierarchicalConfig, k: nat)
    requires NamesDistinct(c) && k < |c.layers|
    ensures LayerNamed(c, c.layers[k].0) == Some(c.layers[k].1)
    decreases k
  {
    if k > 0 {
      var rest := HierarchicalConfig(c.layers[1..]);
      assert rest.layers[k - 1] == c.layers[k];
      assert NamesDistinct(rest) by {
        forall i, j | 0 <= i < j < |rest.layers|
          ensures rest.layers[i].0 != rest.layers[j].0
        {
          assert rest.layers[i] == c.layers[i + 1] && rest.layers[j] == c.layers[j + 1];
        }
      }
      LayerNamedFinds(rest, k - 1);
      assert c.layers[0].0 != c.layers[k].0;
    }
  }

  const TruncatedMarker: string := "... [truncated]"

  /** `_truncate_message`: cut to `cap * 4` characters (a Python slice) plus a marker, keeping the role. */
  function TruncateMessage(m: Message, cap: Option<int>): (r: Message)
  {
    if cap.None? || |m.content| / 4 <= cap.value then m
    else Plain(m.role, Slices.Take(m.content, cap.value * 4) + TruncatedMarker)
  }

  /**
   * Under no cap, or within it, the message is untouched; over a
   * non-negative cap, the result is the first `4 * cap` characters and the
   * marker, with the same role, which estimates at `cap + 3` tokens.
   */
  lemma {:induction false} TruncateMessageShape(m: Message, cap: Option<int>)
    ensures cap.None? ==> TruncateMessage(m, cap) == m
    ensures cap.Some? && |m.content| / 4 <= cap.value ==> TruncateMessage(m, cap) == m
    ensures cap.Some? && 0 <= cap.value && |m.content| / 4 > cap.value ==>
              var r := TruncateMessage(m, cap);
              && r.role == m.role
              && r.content == m.content[..cap.value * 4] + TruncatedMarker
              && |r.content| / 4 == cap.value + 3
  {
  }

  /** Truncating a truncated message changes nothing more (for a non-negative cap). */
  lemma {:induction false} TruncateIdempotent(m: Message, cap: Option<int>)
    requires cap.Some? ==> cap.value >= 0
    ensures TruncateMessage(TruncateMessage(m, cap), cap) == TruncateMessage(m, cap)
  {
    if cap.Some? && |m.content| / 4 > cap.value {
      var r := TruncateMessage(m, cap);
      var n := cap.value * 4;
      assert r.content[..n] == m.content[..n];
      assert |r.content| / 4 > cap.value;
    }
  }

  /** `lang or "code"`. */
  function LanguageLabel(b: CodeBlock): (l: string)
    ensures l != []
  {
    if b.language.Some? && b.language.value != [] then b.language.value else "code"
  }

  function CodeDescriptor(b: CodeBlock): string {
    LanguageLabel(b) + "(" + NatToString(LineCount(b)) + " lines)"
  }

  function CodeDescriptors(bs: seq<CodeBlock>): (r: seq<string>)
    ensures |r| == |bs|
    ensures forall i :: 0 <= i < |bs| ==> r[i] == CodeDescriptor(bs[i])
  {
    seq(|bs|, i requires 0 <= i < |bs| => CodeDescriptor(bs[i]))
  }

  function RoleTag(m: Message): string {
    "[" + RoleName(m.role) + "]"
  }

  /** The `" | "`-separated parts of a detailed digest. */
  function DetailedParts(m: Message, a: ContentAnalysis): (parts: seq<string>)
    ensures |parts| == 2 + (if a.entities != [] then 1 else 0) + (if a.codeBlocks != [] then 1 else 0)
                         + (if a.urls != [] then 1 else 0)
    ensures parts[0] == RoleTag(m)
    ensures a.entities != [] ==>
              parts[1] == "Entities: " + Join(", ", EntityTexts(a.entities[..Slices.Min(5, |a.entities|)]))
    ensures a.codeBlocks != [] ==>
              parts[if a.entities != [] then 2 else 1]
              == "Code: " + Join(", ", CodeDescriptors(a.codeBlocks[..Slices.Min(3, |a.codeBlocks|)]))
    ensures a.urls != [] ==> parts[|parts| - 2] == "URLs: " + NatToString(|a.urls|) + " link(s)"
    ensures parts[|parts| - 1] == "Content: " + Preview(m.content, 200)
  {
    [RoleTag(m)]
    + (if a.entities != [] then ["Entities: " + Join(", ", EntityTexts(Slices.Take(a.entities, 5)))] else [])
    + (if a.codeBlocks != [] then ["Code: " + Join(", ", CodeDescriptors(Slices.Take(a.codeBlocks, 3)))] else [])
    + (if a.urls != [] then ["URLs: " + NatToString(|a.urls|) + " link(s)"] else [])
    + ["Content: " + Preview(m.content, 200)]
  }

  const DetailedPrefix: string := "[Detailed Summary] "
  const BriefPrefix: string := "[Brief Summary] "

  /** `_create_detailed_summary_message`, before and after the layer's cap. */
  function DetailedSummary(m: Message, a: ContentAnalysis, cap: Option<int>): Message {
    TruncateMessage(Plain(System, DetailedPrefix + Join(" | ", DetailedParts(m, a))), cap)
  }

  /** The counts shown in a brief digest. */
  function Indicators(a: ContentAnalysis): (r: seq<string>)
    ensures |r| == (if a.entities != [] then 1 else 0) + (if a.codeBlocks != [] then 1 else 0)
                   + (if a.urls != [] then 1 else 0)
    ensures a.entities != [] ==> r[0] == NatToString(|a.entities|) + " entities"
    ensures a.codeBlocks != [] ==> r[if a.entities != [] then 1 else 0] == NatToString(|a.codeBlocks|) + " code blocks"
    ensures a.urls != [] ==> r[|r| - 1] == NatToString(|a.urls|) + " URLs"
  {
    (if a.entities != [] then [NatToString(|a.entities|) + " entities"] else [])
    + (if a.codeBlocks != [] then [NatToString(|a.codeBlocks|) + " code blocks"] else [])
    + (if a.urls != [] then [NatToString(|a.urls|) + " URLs"] else [])
  }

  function BriefParts(m: Message, a: ContentAnalysis): (parts: seq<string>)
    ensures |parts| == (if Indicators(a) == [] then 2 else 3)
    ensures parts[0] == RoleTag(m) && parts[|parts| - 1] == Preview(m.content, 50)
    ensures Indicators(a) != [] ==> parts[1] == Join(", ", Indicators(a))
  {
    [RoleTag(m)] + (if Indicators(a) != [] then [Join(", ", Indicators(a))] else []) + [Preview(m.content, 50)]
  }

  /** `_create_brief_summary_message`. */
  function BriefSummary(m: Message, a: ContentAnalysis, cap: Option<int>): Message {
    TruncateMessage(Plain(System, BriefPrefix + Join(" | ", BriefParts(m, a))), cap)
  }

  /**
   * Without a cap, a digest is a system message made of its prefix and its
   * parts; a short message appears in full as the last part.
   */
  lemma {:induction false} DigestShape(m: Message, a: ContentAnalysis)
    ensures DetailedSummary(m, a, None) == Plain(System, DetailedPrefix + Join(" | ", DetailedParts(m, a)))
    ensures BriefSummary(m, a, None) == Plain(System, BriefPrefix + Join(" | ", BriefParts(m, a)))
    ensures |m.content| <= 50 ==> BriefParts(m, a)[|BriefParts(m, a)| - 1] == m.content
    ensures |m.content| <= 200 ==> DetailedParts(m, a)[|DetailedParts(m, a)| - 1] == "Content: " + m.content
  {
  }

  /** The `max_tokens_per_message` of the named layer, or none when no layer has that name. */
  function LayerCap(c: HierarchicalConfig, name: string): Option<int> {
    match LayerNamed(c, name)
    case Some(layer) => layer.maxTokensPerMessage
    case None => None
  }

  /** The message a classified message becomes, or `None` when its layer discards it. */
  function Rewrite(s: Strategy, ml: MessageLayer): (r: Option<Message>)
    requires Valid(s)
    ensures r.None? <==> ml.action == Discard
    ensures ml.action == PreserveLayer ==> r == Some(TruncateMessage(ml.message, LayerCap(s.config, ml.layerName)))
    ensures ml.action.DetailedSummary? ==>
              r == Some(DetailedSummary(ml.message, ml.analysis, LayerCap(s.config, ml.layerName)))
    ensures ml.action.BriefSummary? ==>
              r == Some(BriefSummary(ml.message, ml.analysis, LayerCap(s.config, ml.layerName)))
  {
    var cap := LayerCap(s.config, ml.layerName);
    match ml.action
    case PreserveLayer => Some(TruncateMessage(ml.message, cap))
    case DetailedSummary => Some(DetailedSummary(ml.message, ml.analysis, cap))
    case BriefSummary => Some(BriefSummary(ml.message, ml.analysis, cap))
    case Discard => None
  }

  /** A classified message is rewritten under the cap of the layer it was assigned to. */
  lemma {:induction false} RewriteUsesLayerCap(s: Strategy, m: Message)
    requires Valid(s)
    ensures var a := Analysis(s.analyzers, m.content);
            var layer := s.config.layers[LayerIndex(s, m, a)].1;
            var ml := Classify(s, m, a);
            && ml.action == layer.action
            && (layer.action == PreserveLayer ==> Rewrite(s, ml) == Some(TruncateMessage(m, layer.maxTokensPerMessage)))
  {
    var a := Analysis(s.analyzers, m.content);
    LayerNamedFinds(s.config, LayerIndex(s, m, a));
  }

  // ---------------------------------------------------------------------
  // The whole strategy

  function Layered(s: Strategy, m: Message): MessageLayer
    requires Valid(s)
  {
    Classify(s, m, Analysis(s.analyzers, m.content))
  }

  /** The output a rewrite contributes: one message, or none. */
  function Out(r: Option<Message>): (out: seq<Message>)
    ensures |out| == (if r.Some? then 1 else 0)
  {
    match r
    case Some(m) => [m]
    case None => []
  }

  /** `apply`: every message rewritten according to its layer, discarded ones dropped, in order. */
  function Applied(s: Strategy, ms: seq<Message>): (out: seq<Message>)
    requires Valid(s)
    ensures |out| <= |ms|
  {
    if ms == [] then []
    else Applied(s, ms[..|ms| - 1]) + Out(Rewrite(s, Layered(s, ms[|ms| - 1])))
  }

  lemma {:induction false} AppliedSnoc(s: Strategy, ms: seq<Message>, m: Message)
    requires Valid(s)
    ensures Applied(s, ms + [m]) == Applied(s, ms) + Out(Rewrite(s, Layered(s, m)))
  {
    assert (ms + [m])[..|ms|] == ms;
  }

  /** How many messages a layer other than a discarding one receives. */
  function KeptCount(s: Strategy, ms: seq<Message>): (n: nat)
    requires Valid(s)
  {
    if ms == [] then 0
    else KeptCount(s, ms[..|ms| - 1]) + (if Layered(s, ms[|ms| - 1]).action == Discard then 0 else 1)
  }

  /** Each kept message yields exactly one output and each discarded one none. */
  lemma {:induction false} AppliedLength(s: Strategy, ms: seq<Message>)
    requires Valid(s)
    ensures |Applied(s, ms)| == KeptCount(s, ms)
  {
    if ms != [] {
      AppliedLength(s, ms[..|ms| - 1]);
    }
  }

  /** Messages are rewritten independently of each other, in input order. */
  lemma {:induction false} AppliedAppend(s: Strategy, a: seq<Message>, b: seq<Message>)
    requires Valid(s)
    ensures Applied(s, a + b) == Applied(s, a) + Applied(s, b)
    decreases |b|
  {
    if b == [] {
      assert a + b == a;
    } else {
      var init, last := b[..|b| - 1], b[|b| - 1];
      assert b == init + [last];
      assert a + b == (a + init) + [last];
      AppliedAppend(s, a, init);
      AppliedSnoc(s, a + init, last);
      AppliedSnoc(s, init, last);
      Slices.AppendAssoc(Applied(s, a), Applied(s, init), Out(Rewrite(s, Layered(s, last))));
    }
  }

  lemma {:induction false} AppliedPrefix(s: Strategy, ms: seq<Message>, i: nat)
    requires Valid(s) && i < |ms|
    ensures Applied(s, ms[..i + 1]) == Applied(s, ms[..i]) + Out(Rewrite(s, Layered(s, ms[i])))
  {
    assert ms[..i + 1][..i] == ms[..i];
  }

  /** A single message becomes its rewrite, if any. */
  lemma {:induction false} AppliedSingle(s: Strategy, m: Message)
    requires Valid(s)
    ensures Applied(s, [m]) == Out(Rewrite(s, Layered(s, m)))
  {
    AppliedSnoc(s, [], m);
  }

  /** Analysing and classifying one message. */
  method ClassifyOne(s: Strategy, m: Message) returns (ml: MessageLayer)
    requires Valid(s)
    ensures ml == Layered(s, m)
  {
    var a := Analyze(s.analyzers, m.content);
    ml := ClassifyMessage(s, m, a);
  }

  /** Every message analysed and classified, in order. */
  function LayeredAll(s: Strategy, ms: seq<Message>): (layers: seq<MessageLayer>)
    requires Valid(s)
    ensures |layers| == |ms|
  {
    seq(|ms|, i requires 0 <= i < |ms| => Layered(s, ms[i]))
  }

  /** Classifying one more message appends its layer. */
  lemma {:induction false} LayeredAllSnoc(s: Strategy, ms: seq<Message>, m: Message)
    requires Valid(s)
    ensures LayeredAll(s, ms + [m]) == LayeredAll(s, ms) + [Layered(s, m)]
  {
    var l, r := LayeredAll(s, ms + [m]), LayeredAll(s, ms) + [Layered(s, m)];
    forall j | 0 <= j < |l|
      ensures l[j] == r[j]
    {
      if j < |ms| {
        assert (ms + [m])[j] == ms[j];
      }
    }
  }

  /** Step 1 of `apply`: analyse and classify every message. */
  method ClassifyAll(s: Strategy, ms: seq<Message>) returns (layers: seq<MessageLayer>)
    requires Valid(s)
    ensures layers == LayeredAll(s, ms)
  {
    layers := [];
    for i := 0 to |ms|
      invariant layers == LayeredAll(s, ms[..i])
    {
      var ml := ClassifyOne(s, ms[i]);
      assert ms[..i + 1] == ms[..i] + [ms[i]];
      LayeredAllSnoc(s, ms[..i], ms[i]);
      layers := layers + [ml];
    }
    assert ms[..|ms|] == ms;
  }

  /** Step 2 of `apply`: rewrite each classified message according to its layer's action. */
  method RewriteAll(s: Strategy, ms: seq<Message>, layers: seq<MessageLayer>) returns (out: seq<Message>)
    requires Valid(s)
    requires layers == LayeredAll(s, ms)
    ensures out == Applied(s, ms)
  {
    out := [];
    for i := 0 to |ms|
      invariant out == Applied(s, ms[..i])
    {
      AppliedPrefix(s, ms, i);
      out := out + Out(Rewrite(s, layers[i]));
    }
    assert ms[..|ms|] == ms;
  }

  /** `apply`: classify every message, then rewrite each one. */
  method Apply(s: Strategy, ms: seq<Message>) returns (out: seq<Message>)
    requires Valid(s)
    ensures out == Applied(s, ms)
  {
    if ms == [] {
      return [];
    }
    var layers := ClassifyAll(s, ms);
    out := RewriteAll(s, ms, layers);
  }

  // ---------------------------------------------------------------------
  // Layer statistics

  function Sum(c: seq<nat>): nat {
    if c == [] then 0 else Sum(c[..|c| - 1]) + c[|c| - 1]
  }

  /** Adding one to one counter adds one to the total. */
  lemma {:induction false} SumIncrement(c: seq<nat>, k: nat)
    requires k < |c|
    ensures Sum(c[k := c[k] + 1]) == Sum(c) + 1
  {
    var d := c[k := c[k] + 1];
    if k < |c| - 1 {
      assert d[..|d| - 1] == c[..|c| - 1][k := c[k] + 1];
      SumIncrement(c[..|c| - 1], k);
    } else {
      assert d[..|d| - 1] == c[..|c| - 1];
    }
  }

  /**
   * Counters for `n` layers after counting one message per listed layer
   * index (an index past the last layer is not counted).
   */
  function Tally(n: nat, idx: seq<nat>): (c: seq<nat>)
    ensures |c| == n
  {
    if idx == [] then seq(n, _ => 0)
    else
      var c, last := Tally(n, idx[..|idx| - 1]), idx[|idx| - 1];
      if last < n then c[last := c[last] + 1] else c
  }

  /** Counting one more index bumps that index's counter. */
  lemma {:induction false} TallySnoc(n: nat, idx: seq<nat>, k: nat)
    requires k < n
    ensures Tally(n, idx + [k]) == Tally(n, idx)[k := Tally(n, idx)[k] + 1]
  {
    assert (idx + [k])[..|idx|] == idx;
  }

  lemma {:induction false} SumZeros(n: nat)
    ensures Sum(seq(n, _ => 0)) == 0
  {
    if n > 0 {
      assert seq(n, _ => 0)[..n - 1] == seq(n - 1, _ => 0);
      SumZeros(n - 1);
    }
  }

  /** Every counted index is counted exactly once. */
  lemma {:induction false} TallyTotal(n: nat, idx: seq<nat>)
    requires forall i :: 0 <= i < |idx| ==> idx[i] < n
    ensures Sum(Tally(n, idx)) == |idx|
  {
    if idx == [] {
      SumZeros(n);
    } else {
      TallyTotal(n, idx[..|idx| - 1]);
      SumIncrement(Tally(n, idx[..|idx| - 1]), idx[|idx| - 1]);
    }
  }

  /** The layer each message is assigned to. */
  function LayerIndices(s: Strategy, ms: seq<Message>): (idx: seq<nat>)
    requires Valid(s)
    ensures |idx| == |ms|
    ensures forall i :: 0 <= i < |idx| ==> idx[i] < |s.config.layers|
  {
    seq(|ms|, i requires 0 <= i < |ms| => LayerIndex(s, ms[i], Analysis(s.analyzers, ms[i].content)))
  }

  /** Per-layer message counts, in layer order. */
  function LayerCounts(s: Strategy, ms: seq<Message>): (c: seq<nat>)
    requires Valid(s)
    ensures |c| == |s.config.layers|
  {
    Tally(|s.config.layers|, LayerIndices(s, ms))
  }

  /** Every message is counted in exactly one layer. */
  lemma {:induction false} LayerCountsTotal(s: Strategy, ms: seq<Message>)
    requires Valid(s)
    ensures Sum(LayerCounts(s, ms)) == |ms|
  {
    TallyTotal(|s.config.layers|, LayerIndices(s, ms));
  }

  /** The index of the layer a message is classified into. */
  method AssignedLayer(s: Strategy, m: Message) returns (k: nat)
    requires Valid(s)
    ensures k == LayerIndex(s, m, Analysis(s.analyzers, m.content))
  {
    var a := Analyze(s.analyzers, m.content);
    k := LayerIndex(s, m, a);
  }

  /** Classifies every message: the layer index of each, in order. */
  method AssignedLayers(s: Strategy, ms: seq<Message>) returns (idx: seq<nat>)
    requires Valid(s)
    ensures idx == LayerIndices(s, ms)
  {
    idx := [];
    for i := 0 to |ms|
      invariant idx == LayerIndices(s, ms[..i])
    {
      var k := AssignedLayer(s, ms[i]);
      assert ms[..i + 1] == ms[..i] + [ms[i]];
      LayerIndicesSnoc(s, ms[..i], ms[i]);
      idx := idx + [k];
    }
    assert ms[..|ms|] == ms;
  }

  /** Classifying one more message appends its layer index. */
  lemma {:induction false} LayerIndicesSnoc(s: Strategy, ms: seq<Message>, m: Message)
    requires Valid(s)
    ensures LayerIndices(s, ms + [m]) == LayerIndices(s, ms) + [LayerIndex(s, m, Analysis(s.analyzers, m.content))]
  {
    var l, r := LayerIndices(s, ms + [m]), LayerIndices(s, ms) + [LayerIndex(s, m, Analysis(s.analyzers, m.content))];
    forall j | 0 <= j < |l|
      ensures l[j] == r[j]
    {
      if j < |ms| {
        assert (ms + [m])[j] == ms[j];
      }
    }
  }

  /** Counts the messages of each of `n` layers. */
  method CountLayers(n: nat, idx: seq<nat>) returns (counts: seq<nat>)
    ensures counts == Tally(n, idx)
  {
    counts := seq(n, _ => 0);
    for i := 0 to |idx|
      invariant counts == Tally(n, idx[..i])
    {
      var k := idx[i];
      assert idx[..i + 1] == idx[..i] + [k];
      if k < n {
        TallySnoc(n, idx[..i], k);
        counts := counts[k := counts[k] + 1];
      } else {
        assert Tally(n, idx[..i] + [k]) == Tally(n, idx[..i]) by {
          assert (idx[..i] + [k])[..i] == idx[..i];
        }
      }
    }
    assert idx[..|idx|] == idx;
  }

  /** `get_layer_statistics`: every configured layer name with its message count, in layer order. */
  method LayerStatistics(s: Strategy, ms: seq<Message>) returns (stats: seq<(string, nat)>)
    requires Valid(s)
    ensures |stats| == |s.config.layers|
    ensures forall k :: 0 <= k < |stats| ==> stats[k] == (s.config.layers[k].0, LayerCounts(s, ms)[k])
  {
    var idx := AssignedLayers(s, ms);
    var counts := CountLayers(|s.config.layers|, idx);
    stats := seq(|counts|, k requires 0 <= k < |counts| => (s.config.layers[k].0, counts[k]));
  }
}
