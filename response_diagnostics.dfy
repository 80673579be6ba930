/**
 * Diagnostics over a chat-completion response as it arrives from a
 * provider: a coarse classification, a structural validation that lists
 * what is missing, the extraction of the fields worth logging, and
 * truncation of long text for the log.
 */
module ResponseDiagnostics {
  import opened Wrappers
  import opened Json
  import Text
  import Slices

  datatype ResponseType = TextOnly | ToolCallsOnly | Mixed | Empty

  /** The `choices` list of a response, when it is a dictionary holding a non-empty list there. */
  function Choices(v: Json): (r: Option<seq<Json>>)
    ensures r.Some? ==> r.value != [] && v.JObj? && Get(v.fields, "choices") == Some(JArr(r.value))
    ensures (v.JObj? && Get(v.fields, "choices").Some? && Get(v.fields, "choices").value.JArr?
             && Get(v.fields, "choices").value.items != []) ==> r.Some?
  {
    if !v.JObj? then None
    else match Get(v.fields, "choices")
      case Some(JArr(items)) => if items == [] then None else Some(items)
      case _ => None
  }

  /** The dictionary `choices[0]["message"]`, when every step on the way is a dictionary. */
  function FirstMessage(v: Json): (r: Option<seq<(string, Json)>>)
    ensures r.Some? ==> Choices(v).Some? && Choices(v).value[0].JObj?
                        && Get(Choices(v).value[0].fields, "message") == Some(JObj(r.value))
  {
    match Choices(v)
    case None => None
    case Some(items) =>
      if !items[0].JObj? then None
      else match Get(items[0].fields, "message")
        case Some(JObj(m)) => Some(m)
        case _ => None
  }

  /** The message's `content` is a string that is not blank. */
  predicate HasText(m: seq<(string, Json)>) {
    match Get(m, "content")
    case Some(JStr(s)) => Text.HasNonSpace(s)
    case _ => false
  }

  /** The message's `tool_calls` is a non-empty list. */
  predicate HasToolCalls(m: seq<(string, Json)>) {
    match Get(m, "tool_calls")
    case Some(JArr(items)) => items != []
    case _ => false
  }

  /**
   * The four-way classification: a response whose first message cannot be
   * reached is EMPTY; otherwise text and tool calls decide.
   */
  function ClassifyResponse(v: Json): (r: ResponseType)
    ensures FirstMessage(v).None? ==> r == Empty
    ensures r == Mixed <==> FirstMessage(v).Some? && HasText(FirstMessage(v).value) && HasToolCalls(FirstMessage(v).value)
    ensures r == TextOnly <==> FirstMessage(v).Some? && HasText(FirstMessage(v).value) && !HasToolCalls(FirstMessage(v).value)
    ensures r == ToolCallsOnly <==> FirstMessage(v).Some? && !HasText(FirstMessage(v).value) && HasToolCalls(FirstMessage(v).value)
  {
    match FirstMessage(v)
    case None => Empty
    case Some(m) =>
      var text := HasText(m);
      var tools := HasToolCalls(m);
      if text && tools then Mixed
      else if text then TextOnly
      else if tools then ToolCallsOnly
      else Empty
  }

  // ---------------------------------------------------------------------
  // Structural validation
  // ---------------------------------------------------------------------

  const RequiredTop: seq<string> := ["id", "object", "created", "model", "choices"]
  const NotADict: string := "response_data (not a dict)"
  const NoBody: string := "choices[0].message.content or tool_calls"
  const NoUsage: string := "usage (optional but recommended)"

  /** The names in `names` that the dictionary lacks, in order. */
  function Absent(fields: seq<(string, Json)>, names: seq<string>): (r: seq<string>)
    ensures forall i :: 0 <= i < |r| ==> r[i] in names && !Has(fields, r[i])
    ensures forall x :: x in names && !Has(fields, x) ==> x in r
    ensures |r| <= |names|
  {
    if names == [] then []
    else
      var last := names[|names| - 1];
      Absent(fields, names[..|names| - 1]) + (if Has(fields, last) then [] else [last])
  }

  /** What the `choices` checks report about a response dictionary. */
  function ChoiceProblems(fields: seq<(string, Json)>): (r: seq<string>)
  {
    var choices := Get(fields, "choices");
    if choices.None? || !Truthy(choices.value) then ["choices"]
    else if !choices.value.JArr? then ["choices (not a list)"]
    else
      // a truthy list is never empty, so "choices (empty list)" cannot be reported
      var first := choices.value.items[0];
      if !first.JObj? then ["choices[0] (not a dict)"]
      else
        (if Has(first.fields, "index") then [] else ["choices[0].index"])
        + match Get(first.fields, "message")
          case None => ["choices[0].message"]
          case Some(message) =>
            if !message.JObj? then ["choices[0].message (not a dict)"]
            else
              (if Has(message.fields, "role") then [] else ["choices[0].message.role"])
              + (if Truthy(GetOr(message.fields, "content", JNull))
                    || Truthy(GetOr(message.fields, "tool_calls", JNull))
                 then [] else [NoBody])
  }

  /** Every problem the validation reports, in the order it reports them. */
  function MissingFields(v: Json): (r: seq<string>)
    ensures !v.JObj? ==> r == [NotADict]
    ensures v.JObj? && !Has(v.fields, "usage") ==> r != [] && r[|r| - 1] == NoUsage
  {
    if !v.JObj? then [NotADict]
    else
      Absent(v.fields, RequiredTop) + ChoiceProblems(v.fields)
      + (if Has(v.fields, "usage") then [] else [NoUsage])
  }

  /**
   * A complete response, stated independently of the order of the checks:
   * a dictionary with the five top-level fields and `usage`, whose first
   * choice is a dictionary with an `index` and a dictionary `message` that
   * has a `role` and a truthy `content` or `tool_calls`.
   */
  predicate Complete(v: Json) {
    && v.JObj?
    && (forall x :: x in RequiredTop ==> Has(v.fields, x))
    && Has(v.fields, "usage")
    && Choices(v).Some?
    && Choices(v).value[0].JObj?
    && Has(Choices(v).value[0].fields, "index")
    && FirstMessage(v).Some?
    && Has(FirstMessage(v).value, "role")
    && (Truthy(GetOr(FirstMessage(v).value, "content", JNull))
        || Truthy(GetOr(FirstMessage(v).value, "tool_calls", JNull)))
  }

  lemma {:induction false} AbsentEmpty(fields: seq<(string, Json)>, names: seq<string>)
    ensures Absent(fields, names) == [] <==> forall x :: x in names ==> Has(fields, x)
  {
    var r := Absent(fields, names);
    if r != [] {
      assert r[0] in names && !Has(fields, r[0]);
    }
  }

  lemma {:induction false} ChoiceProblemsEmpty(v: Json)
    requires v.JObj?
    ensures ChoiceProblems(v.fields) == [] <==>
      && Choices(v).Some?
      && Choices(v).value[0].JObj?
      && Has(Choices(v).value[0].fields, "index")
      && FirstMessage(v).Some?
      && Has(FirstMessage(v).value, "role")
      && (Truthy(GetOr(FirstMessage(v).value, "content", JNull))
          || Truthy(GetOr(FirstMessage(v).value, "tool_calls", JNull)))
  {
  }

  /** The validation reports nothing exactly for a complete response. */
  lemma {:induction false} MissingFieldsEmptyIffComplete(v: Json)
    ensures MissingFields(v) == [] <==> Complete(v)
  {
    if v.JObj? {
      AbsentEmpty(v.fields, RequiredTop);
      ChoiceProblemsEmpty(v);
    }
  }

  /**
   * The validation as the source performs it, appending to the list step
   * by step; it is valid exactly when nothing was reported.
   */
  method ValidateResponseStructure(v: Json) returns (isValid: bool, missing: seq<string>)
    ensures missing == MissingFields(v)
    ensures isValid <==> missing == []
    ensures isValid <==> Complete(v)
  {
    MissingFieldsEmptyIffComplete(v);
    if !v.JObj? {
      return false, [NotADict];
    }
    var fields := v.fields;
    missing := [];
    for k := 0 to |RequiredTop|
      invariant missing == Absent(fields, RequiredTop[..k])
    {
      assert RequiredTop[..k + 1][..k] == RequiredTop[..k];
      if !Has(fields, RequiredTop[k]) {
        missing := missing + [RequiredTop[k]];
      }
    }
    assert RequiredTop[..|RequiredTop|] == RequiredTop;
    missing := missing + ChoiceProblems(fields);
    if !Has(fields, "usage") {
      missing := missing + [NoUsage];
    }
    isValid := |missing| == 0;
  }

  /** A dictionary without `choices` gets "choices" reported twice: once as a top-level field, once by the list check. */
  lemma {:induction false} MissingChoicesReportedTwice(v: Json)
    requires v.JObj? && !Has(v.fields, "choices")
    ensures MissingFields(v)[|Absent(v.fields, RequiredTop)| - 1] == "choices"
    ensures MissingFields(v)[|Absent(v.fields, RequiredTop)|] == "choices"
    ensures !Complete(v)
  {
    var names := RequiredTop;
    assert names[..|names| - 1] == ["id", "object", "created", "model"];
    assert Absent(v.fields, names) == Absent(v.fields, names[..|names| - 1]) + ["choices"];
    MissingFieldsEmptyIffComplete(v);
  }

  /** A response without `usage` is never valid. */
  lemma {:induction false} MissingUsageInvalid(v: Json)
    requires v.JObj? && !Has(v.fields, "usage")
    ensures NoUsage in MissingFields(v) && !Complete(v)
  {
    MissingFieldsEmptyIffComplete(v);
  }

  /**
   * Classification is stricter than validation: whatever is classified as
   * carrying text or tool calls passes the validation's body check.
   */
  lemma {:induction false} ClassifiedHasBody(v: Json)
    requires ClassifyResponse(v) != Empty
    ensures NoBody !in MissingFields(v)
  {
    var m := FirstMessage(v).value;
    assert HasText(m) || HasToolCalls(m);
    assert Truthy(GetOr(m, "content", JNull)) || Truthy(GetOr(m, "tool_calls", JNull)) by {
      if HasText(m) {
        var s := Get(m, "content").value.s;
        assert Text.HasNonSpace(s);
      }
    }
    assert NoBody !in Absent(v.fields, RequiredTop);
    assert NoBody != NoUsage;
  }

  /** A response with a blank `content` and every field the validation asks for. */
  const BlankMessage: seq<(string, Json)> := [("role", JStr("assistant")), ("content", JStr(" "))]
  const BlankChoice: Json := JObj([("index", JInt(0)), ("message", JObj(BlankMessage))])
  const BlankResponse: Json :=
    JObj([("id", JStr("x")), ("object", JStr("chat.completion")), ("created", JInt(0)),
          ("model", JStr("m")), ("choices", JArr([BlankChoice])), ("usage", JObj([]))])

  lemma {:induction false} BlankResponseShape()
    ensures FirstMessage(BlankResponse) == Some(BlankMessage)
    ensures Choices(BlankResponse) == Some([BlankChoice])
  {
    var f := BlankResponse.fields;
    assert f[4].0 == "choices";
    assert Has(f, "choices");
    assert Get(f, "choices") == Some(JArr([BlankChoice])) by {
      GetAt(f, 4);
    }
    assert Get(BlankChoice.fields, "message") == Some(JObj(BlankMessage)) by {
      GetAt(BlankChoice.fields, 1);
    }
  }

  lemma {:induction false} BlankResponseComplete()
    ensures Complete(BlankResponse)
  {
    BlankResponseShape();
    var f := BlankResponse.fields;
    forall x | x in RequiredTop ensures Has(f, x) {
      var i :| 0 <= i < 5 && RequiredTop[i] == x;
      assert f[i].0 == x;
    }
    assert f[5].0 == "usage";
    assert BlankChoice.fields[0].0 == "index";
    assert BlankMessage[0].0 == "role";
    assert Truthy(GetOr(BlankMessage, "content", JNull)) by {
      GetAt(BlankMessage, 1);
    }
  }

  lemma {:induction false} BlankResponseEmpty()
    ensures ClassifyResponse(BlankResponse) == Empty
  {
    BlankResponseShape();
    assert Get(BlankMessage, "content") == Some(JStr(" ")) by {
      GetAt(BlankMessage, 1);
    }
    assert !Text.HasNonSpace(" ") by {
      assert Text.IsSpace(" "[0]);
    }
    assert !HasText(BlankMessage);
    assert !Has(BlankMessage, "tool_calls");
  }

  /** The converse fails: a complete response whose content is blank is classified EMPTY. */
  lemma {:induction false} BlankContentValidButEmpty()
    ensures Complete(BlankResponse) && ClassifyResponse(BlankResponse) == Empty
  {
    BlankResponseComplete();
    BlankResponseEmpty();
  }

  // ---------------------------------------------------------------------
  // Extraction for logging
  // ---------------------------------------------------------------------

  /** The logged record; Python `None` is `JNull`. */
  datatype Extracted = Extracted(
    hasChoices: bool,
    choicesCount: nat,
    message: Json,
    content: Json,
    toolCalls: Json,
    role: Json,
    finishReason: Json)

  const NothingExtracted: Extracted := Extracted(false, 0, JNull, JNull, JNull, JNull, JNull)

  function ExtractResponseContent(v: Json): (r: Extracted)
    ensures Choices(v).None? ==> r == NothingExtracted
    ensures Choices(v).Some? ==> r.hasChoices && r.choicesCount == |Choices(v).value| > 0
    ensures r.message != JNull <==> FirstMessage(v).Some?
    ensures FirstMessage(v).Some? ==>
      && r.message == JObj(FirstMessage(v).value)
      && r.role == GetOr(FirstMessage(v).value, "role", JNull)
      && r.content == GetOr(FirstMessage(v).value, "content", JNull)
      && r.toolCalls == GetOr(FirstMessage(v).value, "tool_calls", JNull)
    ensures FirstMessage(v).None? ==> r.role == JNull && r.content == JNull && r.toolCalls == JNull
    ensures Choices(v).Some? && Choices(v).value[0].JObj? ==>
              r.finishReason == GetOr(Choices(v).value[0].fields, "finish_reason", JNull)
    ensures (Choices(v).None? || !Choices(v).value[0].JObj?) ==> r.finishReason == JNull
  {
    match Choices(v)
    case None => NothingExtracted
    case Some(items) =>
      var counted := NothingExtracted.(hasChoices := true, choicesCount := |items|);
      var first := items[0];
      if !first.JObj? then counted
      else
        var withReason := counted.(finishReason := GetOr(first.fields, "finish_reason", JNull));
        match Get(first.fields, "message")
        case Some(JObj(m)) =>
          withReason.(message := JObj(m), role := GetOr(m, "role", JNull),
                      content := GetOr(m, "content", JNull), toolCalls := GetOr(m, "tool_calls", JNull))
        case _ => withReason
  }

  /** A response that classifies as anything but EMPTY has its message extracted in full. */
  lemma {:induction false} ClassifiedIsExtracted(v: Json)
    requires ClassifyResponse(v) != Empty
    ensures var r := ExtractResponseContent(v);
      r.hasChoices && r.message.JObj? && (r.content != JNull || r.toolCalls != JNull)
  {
    var m := FirstMessage(v).value;
    assert HasText(m) || HasToolCalls(m);
  }

  // ---------------------------------------------------------------------
  // Truncation for logging
  // ---------------------------------------------------------------------

  const DefaultLogLength: int := 2000
  const TruncatedMarker: string := " [TRUNCATED]"

  /**
   * Content up to `maxLength` characters is logged as it is; longer content
   * keeps its first `maxLength` characters (a Python slice, so a negative
   * bound counts from the end) followed by the marker.
   */
  function TruncateForLogging(content: string, maxLength: int): (r: string)
    ensures |content| <= maxLength ==> r == content
    ensures |content| > maxLength ==>
      && |r| == Slices.Bound(maxLength, |content|) + |TruncatedMarker|
      && r[..Slices.Bound(maxLength, |content|)] == content[..Slices.Bound(maxLength, |content|)]
      && r[Slices.Bound(maxLength, |content|)..] == TruncatedMarker
    ensures 0 <= maxLength ==> |r| <= maxLength + |TruncatedMarker|
    ensures 0 <= maxLength < |content| ==> r[..maxLength] == content[..maxLength]
  {
    if |content| <= maxLength then content
    else Slices.Take(content, maxLength) + TruncatedMarker
  }
}
