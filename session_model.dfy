/**
 * The session records of `src/models/session.py`: the per-conversation
 * context configuration, the stored session and its dictionary form, and
 * the conversation history with its running token counter.
 */
module SessionModel {
  import opened Wrappers
  import opened Json
  import opened Messages
  import opened Timestamps
  import Slices

  /** Context limits for one model mapping. */
  datatype ContextConfig = ContextConfig(
    maxTurns: int,
    maxTokens: int,
    reductionMode: string,
    summarizationModel: Option<string>,
    preserveSystemMessage: bool,
    memoryZoneEnabled: bool)

  /** Field bounds the model enforces on construction: at least one turn and at least 100 tokens. */
  predicate ValidContextConfig(c: ContextConfig) {
    c.maxTurns >= 1 && c.maxTokens >= 100
  }

  /** Building a `ContextConfig`: rejects the out-of-range limits, keeps every field otherwise. */
  function NewContextConfig(
    maxTurns: int, maxTokens: int, reductionMode: string, summarizationModel: Option<string>,
    preserveSystemMessage: bool, memoryZoneEnabled: bool): (r: Result<ContextConfig, string>)
    ensures r.Ok? <==> maxTurns >= 1 && maxTokens >= 100
    ensures r.Ok? ==> ValidContextConfig(r.value)
    ensures r.Ok? ==> r.value == ContextConfig(maxTurns, maxTokens, reductionMode, summarizationModel,
                                               preserveSystemMessage, memoryZoneEnabled)
  {
    if maxTurns < 1 then Err("max_turns must be >= 1")
    else if maxTokens < 100 then Err("max_tokens must be >= 100")
    else Ok(ContextConfig(maxTurns, maxTokens, reductionMode, summarizationModel,
                          preserveSystemMessage, memoryZoneEnabled))
  }

  /** The defaults: 10 turns, 4000 tokens, truncation, system messages preserved. */
  const DefaultContextConfig: ContextConfig :=
    ContextConfig(10, 4000, "truncation", None, true, true)

  // ---------------------------------------------------------------------
  // Dictionary form of messages (`model_dump()` and `Message(**d)`)

  function OptStrToJson(o: Option<string>): Json {
    match o
    case None => JNull
    case Some(s) => JStr(s)
  }

  function OptDictToJson(o: Option<seq<(string, Json)>>): Json {
    match o
    case None => JNull
    case Some(f) => JObj(f)
  }

  function MessageToJson(m: Message): (j: Json)
    ensures j.JObj? && Has(j.fields, "role") && Has(j.fields, "content")
  {
    var fields := [("role", JStr(RoleName(m.role))), ("content", JStr(m.content)),
                   ("name", OptStrToJson(m.name)), ("function_call", OptDictToJson(m.functionCall))];
    assert fields[0].0 == "role" && fields[1].0 == "content";
    JObj(fields)
  }

  /**
   * `Message(**d)`: `d` must be a dictionary with a known role and a string
   * content; `name` and `function_call` may be absent or null.
   */
  function MessageFromJson(j: Json): (r: Result<Message, string>)
    ensures r.Ok? ==> j.JObj? && Get(j.fields, "content") == Some(JStr(r.value.content))
    ensures r.Ok? ==> Get(j.fields, "role") == Some(JStr(RoleName(r.value.role)))
  {
    if !j.JObj? then Err("message is not a dictionary")
    else
      var role := Get(j.fields, "role");
      var content := Get(j.fields, "content");
      var name := Get(j.fields, "name");
      var call := Get(j.fields, "function_call");
      if !(role.Some? && role.value.JStr? && ParseRole(role.value.s).Some?) then Err("invalid role")
      else if !(content.Some? && content.value.JStr?) then Err("invalid content")
      else if !(name.None? || name.value.JNull? || name.value.JStr?) then Err("invalid name")
      else if !(call.None? || call.value.JNull? || call.value.JObj?) then Err("invalid function_call")
      else
        Ok(Message(
          ParseRole(role.value.s).value,
          content.value.s,
          if name.Some? && name.value.JStr? then Some(name.value.s) else None,
          if call.Some? && call.value.JObj? then Some(call.value.fields) else None))
  }

  lemma {:induction false} MessageKeysDistinct(m: Message)
    ensures DistinctKeys(MessageToJson(m).fields)
  {
  }

  lemma {:induction false} MessageRoundTrip(m: Message)
    ensures MessageFromJson(MessageToJson(m)) == Ok(m)
  {
    ParseRoleName(m.role);
    var fields := MessageToJson(m).fields;
    MessageKeysDistinct(m);
    GetAt(fields, 0);
    GetAt(fields, 1);
    GetAt(fields, 2);
    GetAt(fields, 3);
  }

  function MessagesToJson(ms: seq<Message>): (js: seq<Json>)
    ensures |js| == |ms|
  {
    if ms == [] then [] else [MessageToJson(ms[0])] + MessagesToJson(ms[1..])
  }

  function MessagesFromJson(js: seq<Json>): (r: Result<seq<Message>, string>)
    ensures r.Ok? ==> |r.value| == |js|
  {
    if js == [] then Ok([])
    else
      match MessageFromJson(js[0])
      case Err(e) => Err(e)
      case Ok(m) =>
        match MessagesFromJson(js[1..])
        case Err(e) => Err(e)
        case Ok(rest) => Ok([m] + rest)
  }

  lemma {:induction false} MessagesRoundTrip(ms: seq<Message>)
    ensures MessagesFromJson(MessagesToJson(ms)) == Ok(ms)
  {
    if ms != [] {
      MessageRoundTrip(ms[0]);
      MessagesRoundTrip(ms[1..]);
      var js := MessagesToJson(ms);
      assert js[0] == MessageToJson(ms[0]) && js[1..] == MessagesToJson(ms[1..]);
      assert [ms[0]] + ms[1..] == ms;
    }
  }

  function StringsToJson(ss: seq<string>): (js: seq<Json>)
    ensures |js| == |ss|
  {
    if ss == [] then [] else [JStr(ss[0])] + StringsToJson(ss[1..])
  }

  function StringsFromJson(js: seq<Json>): (r: Result<seq<string>, string>)
    ensures r.Ok? ==> |r.value| == |js|
  {
    if js == [] then Ok([])
    else if !js[0].JStr? then Err("memory_zone item is not a string")
    else
      match StringsFromJson(js[1..])
      case Err(e) => Err(e)
      case Ok(rest) => Ok([js[0].s] + rest)
  }

  lemma {:induction false} StringsRoundTrip(ss: seq<string>)
    ensures StringsFromJson(StringsToJson(ss)) == Ok(ss)
  {
    if ss != [] {
      StringsRoundTrip(ss[1..]);
      var js := StringsToJson(ss);
      assert js[0] == JStr(ss[0]) && js[1..] == StringsToJson(ss[1..]);
      assert [ss[0]] + ss[1..] == ss;
    }
  }

  /** An optional list-of-messages field (`d.get(key, [])` then validation). */
  function MessagesField(fields: seq<(string, Json)>, key: string): (r: Result<seq<Message>, string>)
    ensures !Has(fields, key) ==> r == Ok([])
  {
    match Get(fields, key)
    case None => Ok([])
    case Some(v) => if v.JArr? then MessagesFromJson(v.items) else Err("not a list")
  }

  /** An optional list-of-strings field. */
  function StringsField(fields: seq<(string, Json)>, key: string): (r: Result<seq<string>, string>)
    ensures !Has(fields, key) ==> r == Ok([])
  {
    match Get(fields, key)
    case None => Ok([])
    case Some(v) => if v.JArr? then StringsFromJson(v.items) else Err("not a list")
  }

  /** An optional dictionary field. */
  function DictField(fields: seq<(string, Json)>, key: string): (r: Result<seq<(string, Json)>, string>)
    ensures !Has(fields, key) ==> r == Ok([])
  {
    match Get(fields, key)
    case None => Ok([])
    case Some(v) => if v.JObj? then Ok(v.fields) else Err("not a dictionary")
  }

  // ---------------------------------------------------------------------
  // SessionState

  datatype SessionState = SessionState(
    activeMessages: seq<Message>,
    memoryZone: seq<string>,
    metadata: seq<(string, Json)>)

  function StateToJson(st: SessionState): Json {
    JObj([("active_messages", JArr(MessagesToJson(st.activeMessages))),
          ("memory_zone", JArr(StringsToJson(st.memoryZone))),
          ("metadata", JObj(st.metadata))])
  }

  /** `SessionState.from_dict`: every key is optional and defaults to an empty value. */
  function StateFromJson(j: Json): (r: Result<SessionState, string>)
    ensures j == JObj([]) ==> r == Ok(SessionState([], [], []))
  {
    if !j.JObj? then Err("not a dictionary")
    else
      match MessagesField(j.fields, "active_messages")
      case Err(e) => Err(e)
      case Ok(ms) =>
        match StringsField(j.fields, "memory_zone")
        case Err(e) => Err(e)
        case Ok(zone) =>
          match DictField(j.fields, "metadata")
          case Err(e) => Err(e)
          case Ok(meta) => Ok(SessionState(ms, zone, meta))
  }

  lemma {:induction false} StateRoundTrip(st: SessionState)
    ensures StateFromJson(StateToJson(st)) == Ok(st)
  {
    var fields := StateToJson(st).fields;
    assert DistinctKeys(fields);
    GetAt(fields, 0);
    GetAt(fields, 1);
    GetAt(fields, 2);
    MessagesRoundTrip(st.activeMessages);
    StringsRoundTrip(st.memoryZone);
  }

  // ---------------------------------------------------------------------
  // Session

  datatype Session = Session(
    sessionId: string,
    userId: string,
    conversationHistory: seq<Message>,
    memoryZone: seq<string>,
    metadata: seq<(string, Json)>,
    createdAt: DateTime,
    updatedAt: DateTime,
    totalTokensUsed: int)

  predicate ValidSession(s: Session) {
    Valid(s.createdAt) && Valid(s.updatedAt)
  }

  /** `Session.to_dict()`: timestamps become ISO 8601 strings. */
  function SessionToJson(s: Session): (j: Json)
    requires ValidSession(s)
    ensures j.JObj? && |j.fields| == 8
  {
    JObj([("session_id", JStr(s.sessionId)),
          ("user_id", JStr(s.userId)),
          ("conversation_history", JArr(MessagesToJson(s.conversationHistory))),
          ("memory_zone", JArr(StringsToJson(s.memoryZone))),
          ("metadata", JObj(s.metadata)),
          ("created_at", JStr(Iso(s.createdAt))),
          ("updated_at", JStr(Iso(s.updatedAt))),
          ("total_tokens_used", JInt(s.totalTokensUsed))])
  }

  /**
   * A timestamp field of `Session.from_dict`: a string is parsed as ISO
   * 8601, an absent key takes the current time `now`.
   */
  function TimestampField(fields: seq<(string, Json)>, key: string, now: DateTime): (r: Result<DateTime, string>)
    ensures !Has(fields, key) ==> r == Ok(now)
    ensures Has(fields, key) && r.Ok? ==>
              Get(fields, key).value.JStr? && ParseIso(Get(fields, key).value.s) == Some(r.value)
  {
    match Get(fields, key)
    case None => Ok(now)
    case Some(v) =>
      if v.JStr? then
        match ParseIso(v.s)
        case None => Err("invalid isoformat string")
        case Some(t) => Ok(t)
      else Err("invalid datetime")
  }

  /** The identifiers and the token count of `Session.from_dict`. */
  function SessionIds(fields: seq<(string, Json)>): Result<(string, string, int), string> {
    var sid := Get(fields, "session_id");
    var uid := Get(fields, "user_id");
    var tokens := Get(fields, "total_tokens_used");
    if !(sid.Some? && sid.value.JStr?) then Err("session_id")
    else if !(uid.Some? && uid.value.JStr?) then Err("user_id")
    else if !(tokens.None? || tokens.value.JInt?) then Err("total_tokens_used")
    else Ok((sid.value.s, uid.value.s, if tokens.Some? then tokens.value.i else 0))
  }

  /** The history, memory zone and metadata of `Session.from_dict`. */
  function SessionContents(fields: seq<(string, Json)>): Result<(seq<Message>, seq<string>, seq<(string, Json)>), string> {
    match MessagesField(fields, "conversation_history")
    case Err(e) => Err(e)
    case Ok(history) =>
      match StringsField(fields, "memory_zone")
      case Err(e) => Err(e)
      case Ok(zone) =>
        match DictField(fields, "metadata")
        case Err(e) => Err(e)
        case Ok(meta) => Ok((history, zone, meta))
  }

  /** The two timestamps of `Session.from_dict`. */
  function SessionStamps(fields: seq<(string, Json)>, now: DateTime): Result<(DateTime, DateTime), string> {
    match TimestampField(fields, "created_at", now)
    case Err(e) => Err(e)
    case Ok(created) =>
      match TimestampField(fields, "updated_at", now)
      case Err(e) => Err(e)
      case Ok(updated) => Ok((created, updated))
  }

  /**
   * `Session.from_dict`: `session_id` and `user_id` are required strings;
   * the other keys are optional, `total_tokens_used` defaults to 0.
   */
  function SessionFromJson(j: Json, now: DateTime): (r: Result<Session, string>)
  {
    if !j.JObj? then Err("not a dictionary")
    else
      match SessionIds(j.fields)
      case Err(e) => Err(e)
      case Ok(ids) =>
        match SessionContents(j.fields)
        case Err(e) => Err(e)
        case Ok(contents) =>
          match SessionStamps(j.fields, now)
          case Err(e) => Err(e)
          case Ok(stamps) =>
            Ok(Session(ids.0, ids.1, contents.0, contents.1, contents.2, stamps.0, stamps.1, ids.2))
  }

  /**
   * A missing `session_id` or `user_id` raises; a parsed session carries
   * the stored identifiers, and 0 tokens when the count is absent.
   */
  lemma {:induction false} SessionFromJsonKeys(j: Json, now: DateTime)
    ensures var r := SessionFromJson(j, now);
      && (r.Ok? ==> j.JObj? && Get(j.fields, "session_id") == Some(JStr(r.value.sessionId))
                    && Get(j.fields, "user_id") == Some(JStr(r.value.userId)))
      && (j.JObj? && !Has(j.fields, "session_id") ==> r.Err?)
      && (j.JObj? && !Has(j.fields, "user_id") ==> r.Err?)
      && (r.Ok? && !Has(j.fields, "total_tokens_used") ==> r.value.totalTokensUsed == 0)
  {
  }

  lemma {:induction false} SessionKeysDistinct(s: Session)
    requires ValidSession(s)
    ensures DistinctKeys(SessionToJson(s).fields)
  {
  }

  lemma {:induction false} SessionIdsRoundTrip(s: Session)
    requires ValidSession(s)
    ensures SessionIds(SessionToJson(s).fields) == Ok((s.sessionId, s.userId, s.totalTokensUsed))
  {
    var fields := SessionToJson(s).fields;
    SessionKeysDistinct(s);
    GetAt(fields, 0);
    GetAt(fields, 1);
    GetAt(fields, 7);
  }

  lemma {:induction false} SessionContentsRoundTrip(s: Session)
    requires ValidSession(s)
    ensures SessionContents(SessionToJson(s).fields) == Ok((s.conversationHistory, s.memoryZone, s.metadata))
  {
    var fields := SessionToJson(s).fields;
    SessionKeysDistinct(s);
    GetAt(fields, 2);
    GetAt(fields, 3);
    GetAt(fields, 4);
    MessagesRoundTrip(s.conversationHistory);
    StringsRoundTrip(s.memoryZone);
  }

  lemma {:induction false} SessionStampsRoundTrip(s: Session, now: DateTime)
    requires ValidSession(s)
    ensures SessionStamps(SessionToJson(s).fields, now) == Ok((s.createdAt, s.updatedAt))
  {
    var fields := SessionToJson(s).fields;
    SessionKeysDistinct(s);
    GetAt(fields, 5);
    GetAt(fields, 6);
    IsoRoundTrip(s.createdAt);
    IsoRoundTrip(s.updatedAt);
  }

  /** `Session.from_dict(s.to_dict())` reproduces every field. */
  lemma {:induction false} SessionRoundTrip(s: Session, now: DateTime)
    requires ValidSession(s)
    ensures SessionFromJson(SessionToJson(s), now) == Ok(s)
  {
    SessionIdsRoundTrip(s);
    SessionContentsRoundTrip(s);
    SessionStampsRoundTrip(s, now);
  }

  // ---------------------------------------------------------------------
  // ConversationHistory

  /** A message list with a running estimate of its tokens (no per-message overhead). */
  class ConversationHistory {
    var messages: seq<Message>
    var totalTokens: int

    /** The counter agrees with a fresh estimate of the messages. */
    ghost predicate Consistent()
      reads this
    {
      totalTokens == ContentTokens(messages)
    }

    constructor ()
      ensures messages == [] && totalTokens == 0 && Consistent()
    {
      messages := [];
      totalTokens := 0;
    }

    /** Appends `m` and adds `len(content) // 4` to the counter, keeping the counter consistent. */
    method AddMessage(m: Message)
      modifies this
      ensures messages == old(messages) + [m]
      ensures totalTokens == old(totalTokens) + |m.content| / 4
      ensures old(Consistent()) ==> Consistent()
    {
      ContentTokensAppend(messages, [m]);
      assert [m][..0] == [];
      messages := messages + [m];
      totalTokens := totalTokens + |m.content| / 4;
    }

    /** The last `min(n, len)` messages for `n > 0`, nothing otherwise. */
    function GetRecent(n: int): (r: seq<Message>)
      reads this
      ensures n > 0 ==> r == messages[|messages| - Slices.Min(n, |messages|)..]
      ensures n <= 0 ==> r == []
    {
      if n > 0 then Slices.Drop(messages, -n) else []
    }

    /** Re-counts the tokens of the stored messages. */
    method EstimateTokens() returns (total: nat)
      ensures total == ContentTokens(messages)
    {
      total := 0;
      var i := 0;
      while i < |messages|
        invariant 0 <= i <= |messages|
        invariant total == ContentTokens(messages[..i])
      {
        assert messages[..i + 1][..i] == messages[..i];
        total := total + |messages[i].content| / 4;
        i := i + 1;
      }
      assert messages[..i] == messages;
    }
  }
}
