/**
 * The content analyzers of `src/core/content_analyzers.py`: entity
 * de-duplication and type filtering, the fenced code-block line filter
 * and truncation, URL de-duplication and shortening, the custom-rule
 * matcher with its case-insensitive keyword scan, and the assembly of a
 * `ContentAnalysis`.
 *
 * The regular expressions and the optional NLP model are not modelled:
 * what they would report is given by the uninterpreted functions of
 * `Oracles`.
 */
module ContentAnalyzers {
  import opened Wrappers
  import opened Text
  import opened AdaptiveModels
  import Slices

  /** One match of the fenced-block expression: its language tag (possibly empty), its body and its span. */
  datatype FencedMatch = FencedMatch(language: string, content: string, start: int, end: int)

  /** One match of the inline-code expression: the text between the backticks and its span. */
  datatype InlineMatch = InlineMatch(content: string, start: int, end: int)

  /** One match of a user rule's expression: the whole matched text and its span. */
  datatype RegexHit = RegexHit(text: string, start: int, end: int)

  /** What the regular-expression engine and the NLP model report for a text. */
  datatype Oracles = Oracles(
    nlpAvailable: bool,
    nlpEntities: string -> seq<Entity>,
    patternEntities: string -> seq<Entity>,
    fencedBlocks: string -> seq<FencedMatch>,
    inlineCode: string -> seq<InlineMatch>,
    urlsFound: string -> seq<string>,
    importantMarker: string -> bool,
    questionWord: string -> bool,
    compiles: string -> bool,
    regexFind: (string, string) -> seq<RegexHit>)

  // ---------------------------------------------------------------------
  // First-occurrence de-duplication

  /** The keys of the elements of `s`. */
  function KeysOf<T, K(==)>(s: seq<T>, key: T -> K): set<K> {
    set i | 0 <= i < |s| :: key(s[i])
  }

  ghost predicate KeysDistinct<T, K>(s: seq<T>, key: T -> K) {
    forall i, j :: 0 <= i < j < |s| ==> key(s[i]) != key(s[j])
  }

  lemma {:induction false} KeysOfSnoc<T, K>(s: seq<T>, x: T, key: T -> K)
    ensures KeysOf(s + [x], key) == KeysOf(s, key) + {key(x)}
  {
    var t := s + [x];
    assert forall i :: 0 <= i < |s| ==> t[i] == s[i];
    assert key(t[|s|]) == key(x);
  }

  /**
   * The elements of `s` whose key has not been seen before them, in
   * order: what a loop over `s` with a `seen` set keeps.
   */
  function FirstOccurrences<T, K(==)>(s: seq<T>, key: T -> K): (r: seq<T>)
    ensures |r| <= |s|
    ensures forall i :: 0 <= i < |r| ==> r[i] in s
  {
    if s == [] then []
    else
      var init := s[..|s| - 1];
      var kept := FirstOccurrences(init, key);
      if key(s[|s| - 1]) in KeysOf(init, key) then kept else kept + [s[|s| - 1]]
  }

  /** De-duplication keeps exactly one element per key present in the input. */
  lemma {:induction false} FirstOccurrencesSound<T, K>(s: seq<T>, key: T -> K)
    ensures KeysDistinct(FirstOccurrences(s, key), key)
    ensures KeysOf(FirstOccurrences(s, key), key) == KeysOf(s, key)
  {
    if s != [] {
      var init, x := s[..|s| - 1], s[|s| - 1];
      var kept := FirstOccurrences(init, key);
      FirstOccurrencesSound(init, key);
      assert s == init + [x];
      KeysOfSnoc(init, x, key);
      if key(x) !in KeysOf(init, key) {
        KeysOfSnoc(kept, x, key);
        var r := kept + [x];
        forall i, j | 0 <= i < j < |r|
          ensures key(r[i]) != key(r[j])
        {
          if j == |kept| {
            assert key(r[i]) in KeysOf(kept, key);
          }
        }
      }
    }
  }

  // ---------------------------------------------------------------------
  // Entities

  /** Entities are the same when text (ignoring case), start and end agree. */
  function EntityKey(e: Entity): (string, int, int) {
    (Lower(e.text), e.start, e.end)
  }

  /** `_deduplicate_entities`: the loop with its `seen` set. */
  method DeduplicateEntities(es: seq<Entity>) returns (unique: seq<Entity>)
    ensures unique == FirstOccurrences(es, EntityKey)
  {
    var seen: set<(string, int, int)> := {};
    unique := [];
    for i := 0 to |es|
      invariant unique == FirstOccurrences(es[..i], EntityKey)
      invariant seen == KeysOf(es[..i], EntityKey)
    {
      assert es[..i + 1] == es[..i] + [es[i]];
      KeysOfSnoc(es[..i], es[i], EntityKey);
      var key := EntityKey(es[i]);
      if key !in seen {
        seen := seen + {key};
        unique := unique + [es[i]];
      }
    }
    assert es[..|es|] == es;
  }

  /** The entities of one of the configured types, in order. */
  function OfTypes(es: seq<Entity>, types: seq<EntityType>): (r: seq<Entity>)
    ensures |r| <= |es|
    ensures forall i :: 0 <= i < |r| ==> r[i].entityType in types && r[i] in es
  {
    if es == [] then []
    else
      var kept := OfTypes(es[..|es| - 1], types);
      if es[|es| - 1].entityType in types then kept + [es[|es| - 1]] else kept
  }

  lemma {:induction false} OfTypesKeepsDistinct(es: seq<Entity>, types: seq<EntityType>)
    requires KeysDistinct(es, EntityKey)
    ensures KeysDistinct(OfTypes(es, types), EntityKey)
  {
    if es != [] {
      var init, x := es[..|es| - 1], es[|es| - 1];
      OfTypesKeepsDistinct(init, types);
      var kept := OfTypes(init, types);
      if x.entityType in types {
        var r := kept + [x];
        forall i, j | 0 <= i < j < |r|
          ensures EntityKey(r[i]) != EntityKey(r[j])
        {
          if j == |kept| {
            var k :| 0 <= k < |init| && init[k] == r[i];
            assert es[k] == r[i] && es[|es| - 1] == x;
          }
        }
      }
    }
  }

  /** Everything the extractors report, NLP entities first when the model is available. */
  function RawEntities(o: Oracles, text: string): seq<Entity> {
    (if o.nlpAvailable then o.nlpEntities(text) else []) + o.patternEntities(text)
  }

  /** `EntityExtractor.extract`. */
  function ExtractedEntities(o: Oracles, config: AnalyzersConfig, text: string): seq<Entity> {
    if !config.entityExtractionEnabled then []
    else OfTypes(FirstOccurrences(RawEntities(o, text), EntityKey), config.entityTypes)
  }

  method ExtractEntities(o: Oracles, config: AnalyzersConfig, text: string) returns (es: seq<Entity>)
    ensures es == ExtractedEntities(o, config, text)
  {
    if !config.entityExtractionEnabled {
      return [];
    }
    var unique := DeduplicateEntities(RawEntities(o, text));
    es := OfTypes(unique, config.entityTypes);
  }

  /**
   * Extraction yields nothing when disabled; otherwise its result has no
   * two entities with the same key, only configured types, and only
   * entities some extractor reported.
   */
  lemma {:induction false} ExtractedEntitiesSound(o: Oracles, config: AnalyzersConfig, text: string)
    ensures !config.entityExtractionEnabled ==> ExtractedEntities(o, config, text) == []
    ensures KeysDistinct(ExtractedEntities(o, config, text), EntityKey)
    ensures forall e :: e in ExtractedEntities(o, config, text) ==>
              e.entityType in config.entityTypes && e in RawEntities(o, text)
  {
    if config.entityExtractionEnabled {
      var unique := FirstOccurrences(RawEntities(o, text), EntityKey);
      FirstOccurrencesSound(RawEntities(o, text), EntityKey);
      OfTypesKeepsDistinct(unique, config.entityTypes);
    }
  }

  // ---------------------------------------------------------------------
  // Code blocks

  const TruncationMarker: string := "... [TRUNCATED]"

  /** An empty language tag is reported as no language. */
  function LanguageOf(tag: string): (l: Option<string>)
    ensures l.None? <==> tag == []
  {
    if tag == [] then None else Some(tag)
  }

  /**
   * One fenced block after the line checks: dropped below the minimum,
   * cut to its first `code_max_lines` lines and a marker above the
   * maximum, kept as is otherwise.
   */
  function FencedBlock(m: FencedMatch, config: AnalyzersConfig): Option<CodeBlock> {
    var lines := Split(m.content, '\n');
    if |lines| < config.codeMinLines then None
    else
      var content :=
        if |lines| > config.codeMaxLines then Join("\n", Slices.Take(lines, config.codeMaxLines)) + "\n" + TruncationMarker
        else m.content;
      Some(CodeBlock(content, LanguageOf(m.language), m.start, m.end, false))
  }

  /** A block is dropped iff it has fewer lines than the minimum; one within the maximum is unchanged. */
  lemma {:induction false} FencedBlockKept(m: FencedMatch, config: AnalyzersConfig)
    ensures FencedBlock(m, config).None? <==> |Split(m.content, '\n')| < config.codeMinLines
    ensures FencedBlock(m, config).Some? ==>
              var b := FencedBlock(m, config).value;
              b.start == m.start && b.end == m.end && !b.isInline && b.language == LanguageOf(m.language)
    ensures config.codeMinLines <= |Split(m.content, '\n')| <= config.codeMaxLines ==>
              FencedBlock(m, config).value.content == m.content
  {
  }

  /**
   * A block longer than the maximum keeps exactly its first
   * `code_max_lines` lines, followed by one marker line.
   */
  lemma {:induction false} FencedBlockTruncated(m: FencedMatch, config: AnalyzersConfig)
    requires config.codeMinLines <= |Split(m.content, '\n')|
    requires 1 <= config.codeMaxLines < |Split(m.content, '\n')|
    ensures FencedBlock(m, config).Some?
    ensures Split(FencedBlock(m, config).value.content, '\n') ==
              Split(m.content, '\n')[..config.codeMaxLines] + [TruncationMarker]
    ensures LineCount(FencedBlock(m, config).value) == config.codeMaxLines + 1
  {
    var lines := Split(m.content, '\n');
    var kept := lines[..config.codeMaxLines];
    assert Slices.Take(lines, config.codeMaxLines) == kept;
    JoinSnoc("\n", kept, TruncationMarker);
    assert Join("\n", kept) + "\n" + TruncationMarker == Join("\n", kept + [TruncationMarker]);
    var parts := kept + [TruncationMarker];
    SplitNoSeparator(m.content, '\n');
    forall k | 0 <= k < |parts|
      ensures '\n' !in parts[k]
    {
      if k < |kept| {
        assert parts[k] == lines[k];
      }
    }
    SplitJoin(parts, '\n');
  }

  /** The fenced blocks that survive the line checks, in order. */
  function FencedBlocks(ms: seq<FencedMatch>, config: AnalyzersConfig): (r: seq<CodeBlock>)
    ensures |r| <= |ms|
    ensures forall i :: 0 <= i < |r| ==> !r[i].isInline
  {
    if ms == [] then []
    else
      var init := FencedBlocks(ms[..|ms| - 1], config);
      match FencedBlock(ms[|ms| - 1], config)
      case None => init
      case Some(b) => init + [b]
  }

  /** `_detect_markdown_blocks`. */
  method DetectMarkdownBlocks(ms: seq<FencedMatch>, config: AnalyzersConfig) returns (blocks: seq<CodeBlock>)
    ensures blocks == FencedBlocks(ms, config)
  {
    blocks := [];
    for i := 0 to |ms|
      invariant blocks == FencedBlocks(ms[..i], config)
    {
      assert ms[..i + 1][..i] == ms[..i];
      var b := FencedBlock(ms[i], config);
      if b.Some? {
        blocks := blocks + [b.value];
      }
    }
    assert ms[..|ms|] == ms;
  }

  function InlineBlocks(ms: seq<InlineMatch>): (r: seq<CodeBlock>)
    ensures |r| == |ms|
    ensures forall i :: 0 <= i < |r| ==>
              r[i] == CodeBlock(ms[i].content, None, ms[i].start, ms[i].end, true)
  {
    if ms == [] then []
    else InlineBlocks(ms[..|ms| - 1]) + [CodeBlock(ms[|ms| - 1].content, None, ms[|ms| - 1].start, ms[|ms| - 1].end, true)]
  }

  /** `_detect_inline_code`. */
  method DetectInlineCode(ms: seq<InlineMatch>) returns (blocks: seq<CodeBlock>)
    ensures blocks == InlineBlocks(ms)
  {
    blocks := [];
    for i := 0 to |ms|
      invariant blocks == InlineBlocks(ms[..i])
    {
      assert ms[..i + 1][..i] == ms[..i];
      blocks := blocks + [CodeBlock(ms[i].content, None, ms[i].start, ms[i].end, true)];
    }
    assert ms[..|ms|] == ms;
  }

  /** `CodeBlockDetector.detect`. */
  function DetectedCode(o: Oracles, config: AnalyzersConfig, text: string): seq<CodeBlock> {
    if !config.codeDetectionEnabled then []
    else FencedBlocks(o.fencedBlocks(text), config) + (if config.preserveInlineCode then InlineBlocks(o.inlineCode(text)) else [])
  }

  method DetectCode(o: Oracles, config: AnalyzersConfig, text: string) returns (blocks: seq<CodeBlock>)
    ensures blocks == DetectedCode(o, config, text)
  {
    if !config.codeDetectionEnabled {
      return [];
    }
    blocks := DetectMarkdownBlocks(o.fencedBlocks(text), config);
    if config.preserveInlineCode {
      var inline := DetectInlineCode(o.inlineCode(text));
      blocks := blocks + inline;
    }
  }

  /**
   * Detection yields nothing when disabled, and an inline block only when
   * inline code is preserved; fenced blocks come first.
   */
  lemma {:induction false} DetectedCodeSound(o: Oracles, config: AnalyzersConfig, text: string)
    ensures !config.codeDetectionEnabled ==> DetectedCode(o, config, text) == []
    ensures forall i :: 0 <= i < |DetectedCode(o, config, text)| && DetectedCode(o, config, text)[i].isInline ==>
              config.preserveInlineCode
    ensures config.codeDetectionEnabled && !config.preserveInlineCode ==>
              DetectedCode(o, config, text) == FencedBlocks(o.fencedBlocks(text), config)
  {
    if config.codeDetectionEnabled {
      var fenced := FencedBlocks(o.fencedBlocks(text), config);
      var r := DetectedCode(o, config, text);
      forall i | 0 <= i < |r| && r[i].isInline
        ensures config.preserveInlineCode
      {
        if i < |fenced| {
          assert r[i] == fenced[i];
        }
      }
    }
  }

  // ---------------------------------------------------------------------
  // URLs

  function SameUrl(u: string): string {
    u
  }

  /** `_shorten_url` with its default limit of 50. */
  function ShortenUrl(url: string): (r: string)
    ensures |url| <= 50 ==> r == url
  {
    if |url| <= 50 then url
    else
      var parts := SplitMax(url, '/', 3);
      if |parts| >= 4 then parts[0] + "//" + parts[2] + "/.../" + Slices.Drop(parts[3], -20)
      else Slices.Take(url, 50) + "..."
  }

  /**
   * A long URL with at least three slashes becomes its scheme, `//`, its
   * host, `/.../` and the last (at most 20) characters of the URL; one with
   * fewer slashes is cut to 50 characters and `...`.
   */
  lemma {:induction false} ShortenUrlShape(url: string)
    requires |url| > 50
    ensures Count(url, '/') < 3 ==> ShortenUrl(url) == url[..50] + "..."
    ensures Count(url, '/') >= 3 ==>
              var parts := SplitMax(url, '/', 3);
              && |parts| == 4
              && var n := Slices.Min(20, |parts[3]|);
              && url == parts[0] + "/" + parts[1] + "/" + parts[2] + "/" + parts[3]
              && ShortenUrl(url) == parts[0] + "//" + parts[2] + "/.../" + url[|url| - n..]
  {
    var parts := SplitMax(url, '/', 3);
    assert |parts| == 4 <==> Count(url, '/') >= 3 by {
      SplitMaxLength(url, '/', 3);
    }
    if |parts| == 4 {
      assert url == parts[0] + "/" + parts[1] + "/" + parts[2] + "/" + parts[3] by {
        JoinSplitMax(url, '/', 3);
        JoinFour("/", parts);
      }
      assert Slices.Drop(parts[3], -20) == url[|url| - Slices.Min(20, |parts[3]|)..] by {
        Slices.NegativeSlices(parts[3], 20);
        assert url[|url| - |parts[3]|..] == parts[3];
      }
    }
  }

  lemma {:induction false} JoinFour(sep: string, parts: seq<string>)
    requires |parts| == 4
    ensures Join(sep, parts) == parts[0] + sep + parts[1] + sep + parts[2] + sep + parts[3]
  {
    assert parts[1..][1..] == parts[2..];
    assert Join(sep, parts[2..]) == parts[2] + sep + parts[3];
  }

  /** `URLExtractor.extract`: found URLs without repeats, verified (a pass-through), shortened if configured. */
  function ExtractedUrls(o: Oracles, config: AnalyzersConfig, text: string): seq<string> {
    if !config.urlExtractionEnabled then []
    else
      var urls := FirstOccurrences(o.urlsFound(text), SameUrl);
      if config.urlShorten then seq(|urls|, i requires 0 <= i < |urls| => ShortenUrl(urls[i])) else urls
  }

  /**
   * Without shortening, the extracted URLs are the found ones, each
   * exactly once; with it, there is one shortened URL per distinct found URL.
   */
  lemma {:induction false} ExtractedUrlsSound(o: Oracles, config: AnalyzersConfig, text: string)
    ensures !config.urlExtractionEnabled ==> ExtractedUrls(o, config, text) == []
    ensures config.urlExtractionEnabled && !config.urlShorten ==>
              KeysDistinct(ExtractedUrls(o, config, text), SameUrl)
              && KeysOf(ExtractedUrls(o, config, text), SameUrl) == KeysOf(o.urlsFound(text), SameUrl)
    ensures config.urlExtractionEnabled && config.urlShorten ==>
              |ExtractedUrls(o, config, text)| == |FirstOccurrences(o.urlsFound(text), SameUrl)|
  {
    FirstOccurrencesSound(o.urlsFound(text), SameUrl);
  }

  // ---------------------------------------------------------------------
  // Keyword rules

  /** `keyword` occurs in `text` at `q`, ignoring case. */
  predicate OccursAt(text: string, keyword: string, q: int) {
    0 <= q && q + |keyword| <= |text| && Lower(text[q..q + |keyword|]) == Lower(keyword)
  }

  lemma {:induction false} LowerSlice(s: string, a: nat, b: nat)
    requires a <= b <= |s|
    ensures Lower(s)[a..b] == Lower(s[a..b])
  {
  }

  /** Searching the lowered text for the lowered keyword is a case-insensitive search. */
  lemma {:induction false} MatchAtLower(text: string, keyword: string, q: int)
    ensures MatchAt(Lower(text), Lower(keyword), q) <==> OccursAt(text, keyword, q)
  {
    if 0 <= q && q + |keyword| <= |text| {
      LowerSlice(text, q, q + |keyword|);
    }
  }

  /**
   * The matches of one non-empty keyword from cursor `start`: find the
   * next case-insensitive occurrence, record the original-case slice, and
   * resume after it.
   */
  function ScanFrom(text: string, rule: CustomRule, keyword: string, start: nat): seq<RuleMatch>
    requires keyword != []
    decreases |text| + 1 - start
  {
    var pos := Find(Lower(text), Lower(keyword), start);
    if pos == -1 then []
    else [RuleMatch(rule, text[pos..pos + |keyword|], pos, pos + |keyword|)] + ScanFrom(text, rule, keyword, pos + |keyword|)
  }

  /** A match of `keyword` in `text`: the keyword's length, the original-case slice, equal ignoring case. */
  predicate Placed(m: RuleMatch, text: string, rule: CustomRule, keyword: string) {
    && m.rule == rule && 0 <= m.start
    && m.end - m.start == |keyword| && m.end <= |text|
    && m.matchedText == text[m.start..m.end]
    && OccursAt(text, keyword, m.start)
  }

  /** Where `find` fails the scan is over. */
  lemma {:induction false} ScanMiss(text: string, rule: CustomRule, keyword: string, start: nat)
    requires keyword != [] && Find(Lower(text), Lower(keyword), start) == -1
    ensures ScanFrom(text, rule, keyword, start) == []
  {
  }

  /** Where `find` reports `pos`, the scan records the slice there and resumes after it. */
  lemma {:induction false} ScanHit(text: string, rule: CustomRule, keyword: string, start: nat, pos: int)
    requires keyword != [] && pos == Find(Lower(text), Lower(keyword), start) && pos != -1
    ensures start <= pos && pos + |keyword| <= |text|
    ensures ScanFrom(text, rule, keyword, start) ==
              [RuleMatch(rule, text[pos..pos + |keyword|], pos, pos + |keyword|)] + ScanFrom(text, rule, keyword, pos + |keyword|)
  {
  }

  /** One step of the scan: no match, or a placed first match and the scan after it. */
  lemma {:induction false} ScanStep(text: string, rule: CustomRule, keyword: string, start: nat)
    requires keyword != []
    ensures ScanFrom(text, rule, keyword, start) == [] ||
            (var m := ScanFrom(text, rule, keyword, start)[0];
             && start <= m.start && Placed(m, text, rule, keyword)
             && ScanFrom(text, rule, keyword, start) == [m] + ScanFrom(text, rule, keyword, m.end))
  {
    var pos := Find(Lower(text), Lower(keyword), start);
    if pos == -1 {
      ScanMiss(text, rule, keyword, start);
    } else {
      ScanHit(text, rule, keyword, start, pos);
      var m := RuleMatch(rule, text[pos..pos + |keyword|], pos, pos + |keyword|);
      assert ScanFrom(text, rule, keyword, start)[0] == m;
      assert ScanFrom(text, rule, keyword, start) == [m] + ScanFrom(text, rule, keyword, m.end);
      FoundOccurs(text, keyword, start);
      assert Placed(m, text, rule, keyword);
    }
  }

  /** A hit of the lowered search is a case-insensitive occurrence at or after the cursor. */
  lemma {:induction false} FoundOccurs(text: string, keyword: string, start: nat)
    requires Find(Lower(text), Lower(keyword), start) != -1
    ensures var pos := Find(Lower(text), Lower(keyword), start);
      start <= pos && OccursAt(text, keyword, pos)
  {
    FindHit(Lower(text), Lower(keyword), start);
    MatchAtLower(text, keyword, Find(Lower(text), Lower(keyword), start));
  }

  /** Every match lies at or after the cursor and is placed as above. */
  lemma {:induction false} ScanPlaced(text: string, rule: CustomRule, keyword: string, start: nat)
    requires keyword != []
    ensures forall i :: 0 <= i < |ScanFrom(text, rule, keyword, start)| ==>
              start <= ScanFrom(text, rule, keyword, start)[i].start
              && Placed(ScanFrom(text, rule, keyword, start)[i], text, rule, keyword)
    decreases |text| + 1 - start
  {
    ScanStep(text, rule, keyword, start);
    var ms := ScanFrom(text, rule, keyword, start);
    if ms != [] {
      var next := ms[0].end;
      ScanPlaced(text, rule, keyword, next);
      var tail := ScanFrom(text, rule, keyword, next);
      forall i | 0 <= i < |ms|
        ensures start <= ms[i].start && Placed(ms[i], text, rule, keyword)
      {
        if i > 0 {
          assert ms[i] == tail[i - 1];
        }
      }
    }
  }

  /** Each match ends before the next one starts: the matches do not overlap. */
  lemma {:induction false} ScanOrdered(text: string, rule: CustomRule, keyword: string, start: nat)
    requires keyword != []
    ensures forall i :: 0 <= i < |ScanFrom(text, rule, keyword, start)| - 1 ==>
              ScanFrom(text, rule, keyword, start)[i].end <= ScanFrom(text, rule, keyword, start)[i + 1].start
    decreases |text| + 1 - start
  {
    ScanStep(text, rule, keyword, start);
    var ms := ScanFrom(text, rule, keyword, start);
    if ms != [] {
      var next := ms[0].end;
      ScanOrdered(text, rule, keyword, next);
      ScanPlaced(text, rule, keyword, next);
      var tail := ScanFrom(text, rule, keyword, next);
      forall i | 0 <= i < |ms| - 1
        ensures ms[i].end <= ms[i + 1].start
      {
        assert ms[i + 1] == tail[i];
        if i > 0 {
          assert ms[i] == tail[i - 1];
        }
      }
    }
  }

  /** The first match is the leftmost occurrence at or after the cursor. */
  lemma {:induction false} ScanLeftmost(text: string, rule: CustomRule, keyword: string, start: nat, q: int)
    requires keyword != []
    requires start <= q && OccursAt(text, keyword, q)
    ensures ScanFrom(text, rule, keyword, start) != [] && ScanFrom(text, rule, keyword, start)[0].start <= q
  {
    assert MatchAt(Lower(text), Lower(keyword), q) by {
      MatchAtLower(text, keyword, q);
    }
    FindLeast(Lower(text), Lower(keyword), start);
  }

  /** Nothing is missed: every case-insensitive occurrence after the cursor overlaps a match. */
  lemma {:induction false} ScanComplete(text: string, rule: CustomRule, keyword: string, start: nat, q: int)
    requires keyword != []
    requires start <= q && OccursAt(text, keyword, q)
    ensures exists i :: 0 <= i < |ScanFrom(text, rule, keyword, start)| &&
              ScanFrom(text, rule, keyword, start)[i].start <= q < ScanFrom(text, rule, keyword, start)[i].end
    decreases |text| + 1 - start
  {
    ScanLeftmost(text, rule, keyword, start, q);
    ScanStep(text, rule, keyword, start);
    var ms := ScanFrom(text, rule, keyword, start);
    var next := ms[0].end;
    if next <= q {
      ScanComplete(text, rule, keyword, next, q);
      var tail := ScanFrom(text, rule, keyword, next);
      var i :| 0 <= i < |tail| && tail[i].start <= q < tail[i].end;
      assert ms[i + 1] == tail[i];
    } else {
      assert ms[0].start <= q < ms[0].end;
    }
  }

  /** The matches of each non-empty keyword in turn. */
  function KeywordsMatches(text: string, rule: CustomRule, keywords: seq<string>): seq<RuleMatch> {
    if keywords == [] then []
    else
      var last := keywords[|keywords| - 1];
      KeywordsMatches(text, rule, keywords[..|keywords| - 1]) + (if last == [] then [] else ScanFrom(text, rule, last, 0))
  }

  function KeywordMatches(text: string, rule: CustomRule): seq<RuleMatch> {
    if !Given(rule.keywords) then [] else KeywordsMatches(text, rule, rule.keywords.value)
  }

  /** The `find` loop for one non-empty keyword over the lowered text. */
  method ScanKeyword(text: string, textLower: string, rule: CustomRule, keyword: string) returns (found: seq<RuleMatch>)
    requires keyword != [] && textLower == Lower(text)
    ensures found == ScanFrom(text, rule, keyword, 0)
  {
    var keywordLower := Lower(keyword);
    var start := 0;
    found := [];
    while true
      invariant start <= |text|
      invariant ScanFrom(text, rule, keyword, 0) == found + ScanFrom(text, rule, keyword, start)
      decreases |text| + 1 - start
    {
      var pos := Find(textLower, keywordLower, start);
      if pos == -1 {
        ScanMiss(text, rule, keyword, start);
        break;
      }
      ScanHit(text, rule, keyword, start, pos);
      var next := pos + |keyword|;
      var m := RuleMatch(rule, text[pos..next], pos, next);
      ghost var rest := ScanFrom(text, rule, keyword, next);
      assert found + ([m] + rest) == (found + [m]) + rest;
      found := found + [m];
      start := next;
    }
  }

  /**
   * `_match_keywords`, with empty keywords skipped: for each keyword a
   * `find` loop advancing a cursor past each match.
   */
  method MatchKeywords(text: string, rule: CustomRule) returns (ms: seq<RuleMatch>)
    ensures ms == KeywordMatches(text, rule)
  {
    ms := [];
    if !Given(rule.keywords) {
      return;
    }
    var keywords := rule.keywords.value;
    var textLower := Lower(text);
    for k := 0 to |keywords|
      invariant ms == KeywordsMatches(text, rule, keywords[..k])
    {
      assert keywords[..k + 1][..k] == keywords[..k];
      var keyword := keywords[k];
      if keyword == [] {
        continue;
      }
      var found := ScanKeyword(text, textLower, rule, keyword);
      ms := ms + found;
    }
    assert keywords[..|keywords|] == keywords;
  }

  /**
   * One pass of the source's keyword loop: the cursor after it, or `None`
   * when `find` fails and the loop exits.
   */
  function NextCursorAsWritten(text: string, keyword: string, start: nat): Option<int> {
    var pos := Find(Lower(text), Lower(keyword), start);
    if pos == -1 then None else Some(pos + |keyword|)
  }

  /** For a non-empty keyword the loop always moves forward. */
  lemma {:induction false} NonEmptyKeywordAdvances(text: string, keyword: string, start: nat)
    requires keyword != []
    ensures NextCursorAsWritten(text, keyword, start).Some? ==> NextCursorAsWritten(text, keyword, start).value > start
  {
  }

  /**
   * For an empty keyword the cursor never moves: `find` reports the
   * cursor itself, so the source loop records a match and repeats forever.
   */
  lemma {:induction false} EmptyKeywordNeverAdvances(text: string, start: nat)
    requires start <= |text|
    ensures NextCursorAsWritten(text, "", start) == Some(start)
  {
    assert Lower("") == "";
    assert MatchAt(Lower(text), "", start);
  }

  /** Rule validation lets such a keyword through. */
  lemma {:induction false} EmptyKeywordRuleAccepted()
    ensures NewCustomRule(Keyword, PreserveMatch, "", None, Some([""]), None).Ok?
  {
  }

  /** The corrected scan gives an empty keyword no matches, and terminates. */
  lemma {:induction false} EmptyKeywordSkipped(text: string, rule: CustomRule)
    requires rule.keywords == Some([""])
    ensures KeywordMatches(text, rule) == []
  {
    assert [""][..0] == [];
    assert KeywordsMatches(text, rule, [""]) == KeywordsMatches(text, rule, []) + [];
  }

  // ---------------------------------------------------------------------
  // All rules

  /** A regex rule whose pattern is given and compiles. */
  predicate Compiled(o: Oracles, rule: CustomRule) {
    rule.ruleType == Regex && Given(rule.pattern) && o.compiles(rule.pattern.value)
  }

  function HitsToMatches(rule: CustomRule, hits: seq<RegexHit>): (r: seq<RuleMatch>)
    ensures |r| == |hits|
    ensures forall i :: 0 <= i < |r| ==> r[i] == RuleMatch(rule, hits[i].text, hits[i].start, hits[i].end)
  {
    if hits == [] then []
    else HitsToMatches(rule, hits[..|hits| - 1]) + [RuleMatch(rule, hits[|hits| - 1].text, hits[|hits| - 1].start, hits[|hits| - 1].end)]
  }

  /** The matches one rule contributes. */
  function RuleMatchesFor(o: Oracles, text: string, rule: CustomRule): (r: seq<RuleMatch>)
    ensures rule.ruleType == Structure ==> r == []
    ensures rule.ruleType == Regex && !Compiled(o, rule) ==> r == []
    ensures Compiled(o, rule) ==> r == HitsToMatches(rule, o.regexFind(rule.pattern.value, text))
    ensures rule.ruleType == Keyword ==> r == KeywordMatches(text, rule)
  {
    match rule.ruleType
    case Regex => if Compiled(o, rule) then HitsToMatches(rule, o.regexFind(rule.pattern.value, text)) else []
    case Keyword => KeywordMatches(text, rule)
    case Structure => []
  }

  /** The outputs of `f` over `s`, concatenated in order. */
  function ConcatMap<T, U>(f: T -> seq<U>, s: seq<T>): (r: seq<U>)
    ensures s == [] ==> r == []
  {
    if s == [] then []
    else ConcatMap(f, s[..|s| - 1]) + f(s[|s| - 1])
  }

  lemma {:induction false} ConcatMapAppend<T, U>(f: T -> seq<U>, a: seq<T>, b: seq<T>)
    ensures ConcatMap(f, a + b) == ConcatMap(f, a) + ConcatMap(f, b)
    decreases |b|
  {
    if b == [] {
      assert a + b == a;
    } else {
      var init := b[..|b| - 1];
      assert (a + b)[..|a + b| - 1] == a + init;
      ConcatMapAppend(f, a, init);
    }
  }

  /** `CustomRuleMatcher.match`: the matches of every rule, in rule order. */
  function RuleMatches(o: Oracles, text: string, rules: seq<CustomRule>): seq<RuleMatch> {
    ConcatMap(rule => RuleMatchesFor(o, text, rule), rules)
  }

  /** Matching a list of rules is matching its parts one after the other. */
  lemma {:induction false} RuleMatchesAppend(o: Oracles, text: string, a: seq<CustomRule>, b: seq<CustomRule>)
    ensures RuleMatches(o, text, a + b) == RuleMatches(o, text, a) + RuleMatches(o, text, b)
  {
    ConcatMapAppend(rule => RuleMatchesFor(o, text, rule), a, b);
  }

  method MatchRules(o: Oracles, text: string, rules: seq<CustomRule>) returns (ms: seq<RuleMatch>)
    ensures ms == RuleMatches(o, text, rules)
  {
    ms := [];
    for i := 0 to |rules|
      invariant ms == RuleMatches(o, text, rules[..i])
    {
      assert rules[..i + 1][..i] == rules[..i];
      var rule := rules[i];
      match rule.ruleType {
        case Regex =>
          if Compiled(o, rule) {
            ms := ms + HitsToMatches(rule, o.regexFind(rule.pattern.value, text));
          }
        case Keyword =>
          var found := MatchKeywords(text, rule);
          ms := ms + found;
        case Structure =>
      }
    }
    assert rules[..|rules|] == rules;
  }

  // ---------------------------------------------------------------------
  // The coordinator

  datatype Analyzers = Analyzers(config: AnalyzersConfig, rules: seq<CustomRule>, oracles: Oracles)

  /** `_detect_question`: a question mark (ASCII or full-width), or a question word. */
  predicate DetectQuestion(o: Oracles, text: string) {
    '?' in text || '？' in text || o.questionWord(text)
  }

  /** `_detect_answer`: longer than 50 characters. */
  predicate DetectAnswer(text: string) {
    |text| > 50
  }

  /** `ContentAnalyzers.analyze`. */
  function Analysis(an: Analyzers, text: string): (a: ContentAnalysis)
    ensures FlagsAgree(a)
    ensures a.isAnswer <==> |text| > 50
    ensures ('?' in text || '？' in text) ==> a.isQuestion
    ensures a.isQuestion <==> DetectQuestion(an.oracles, text)
    ensures a.entities == ExtractedEntities(an.oracles, an.config, text)
    ensures a.codeBlocks == DetectedCode(an.oracles, an.config, text)
    ensures a.urls == ExtractedUrls(an.oracles, an.config, text)
    ensures a.ruleMatches == RuleMatches(an.oracles, text, an.rules)
    ensures a.hasImportantMarker == an.oracles.importantMarker(text)
  {
    var o := an.oracles;
    MakeAnalysis(
      ExtractedEntities(o, an.config, text), DetectedCode(o, an.config, text),
      ExtractedUrls(o, an.config, text), RuleMatches(o, text, an.rules),
      o.importantMarker(text), DetectQuestion(o, text), DetectAnswer(text))
  }

  method Analyze(an: Analyzers, text: string) returns (a: ContentAnalysis)
    ensures a == Analysis(an, text)
  {
    var o := an.oracles;
    var entities := ExtractEntities(o, an.config, text);
    var blocks := DetectCode(o, an.config, text);
    var urls := ExtractedUrls(o, an.config, text);
    var matches := MatchRules(o, text, an.rules);
    a := MakeAnalysis(entities, blocks, urls, matches, o.importantMarker(text), DetectQuestion(o, text), DetectAnswer(text));
  }
}
