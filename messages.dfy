/**
 * Chat messages as the proxy sees them (an OpenAI-style `Message`), the
 * character-count token heuristic, and the system / non-system split
 * every reduction strategy starts from.
 */
module Messages {
  import opened Wrappers
  import opened Json

  datatype Role = System | User | Assistant | Function

  datatype Message = Message(
    role: Role,
    content: string,
    name: Option<string>,
    functionCall: Option<seq<(string, Json)>>)

  /** The role's wire name, as Python's `msg.role` string. */
  function RoleName(r: Role): (s: string)
    ensures s != []
  {
    match r
    case System => "system"
    case User => "user"
    case Assistant => "assistant"
    case Function => "function"
  }

  /** The role literal check the message model performs on its input. */
  function ParseRole(s: string): (r: Option<Role>)
    ensures r.Some? ==> RoleName(r.value) == s
  {
    if s == "system" then Some(System)
    else if s == "user" then Some(User)
    else if s == "assistant" then Some(Assistant)
    else if s == "function" then Some(Function)
    else None
  }

  lemma {:induction false} ParseRoleName(r: Role)
    ensures ParseRole(RoleName(r)) == Some(r)
  {
  }

  /** A message built with only role and content, the other fields left at `None`. */
  function Plain(role: Role, content: string): (m: Message)
    ensures m.role == role && m.content == content && m.name == None && m.functionCall == None
  {
    Message(role, content, None, None)
  }

  /** Per-message estimate: one token per four characters plus four tokens of overhead. */
  function MessageTokens(m: Message): (t: nat)
    ensures t >= 4
  {
    |m.content| / 4 + 4
  }

  /** The estimate for a whole message list, accumulated from the front. */
  function Tokens(ms: seq<Message>): nat
  {
    if ms == [] then 0 else Tokens(ms[..|ms| - 1]) + MessageTokens(ms[|ms| - 1])
  }

  lemma {:induction false} TokensAppend(a: seq<Message>, b: seq<Message>)
    ensures Tokens(a + b) == Tokens(a) + Tokens(b)
    decreases |b|
  {
    if b == [] {
      assert a + b == a;
    } else {
      assert (a + b)[..|a + b| - 1] == a + b[..|b| - 1];
      TokensAppend(a, b[..|b| - 1]);
    }
  }

  lemma {:induction false} TokensLowerBound(ms: seq<Message>)
    ensures Tokens(ms) >= 4 * |ms|
  {
    if ms != [] {
      TokensLowerBound(ms[..|ms| - 1]);
    }
  }

  lemma {:induction false} TokensSingle(m: Message)
    ensures Tokens([m]) == MessageTokens(m)
  {
    assert [m][..0] == [];
  }

  /** A message the strategies set aside as a preserved system message. */
  predicate IsKeptSystem(m: Message, preserveSystem: bool) {
    m.role == System && preserveSystem
  }

  /** The preserved system messages of `ms`, in order. */
  function SystemMessages(ms: seq<Message>, preserveSystem: bool): (r: seq<Message>)
    ensures |r| <= |ms|
  {
    if ms == [] then []
    else
      var init := SystemMessages(ms[..|ms| - 1], preserveSystem);
      if IsKeptSystem(ms[|ms| - 1], preserveSystem) then init + [ms[|ms| - 1]] else init
  }

  /** Every other message of `ms`, in order. */
  function OtherMessages(ms: seq<Message>, preserveSystem: bool): (r: seq<Message>)
    ensures |r| <= |ms|
  {
    if ms == [] then []
    else
      var init := OtherMessages(ms[..|ms| - 1], preserveSystem);
      if IsKeptSystem(ms[|ms| - 1], preserveSystem) then init else init + [ms[|ms| - 1]]
  }

  /** The split loses and invents nothing: the two parts together are a permutation of the input. */
  lemma {:induction false} PartitionPermutation(ms: seq<Message>, preserveSystem: bool)
    ensures multiset(SystemMessages(ms, preserveSystem)) + multiset(OtherMessages(ms, preserveSystem)) == multiset(ms)
    ensures |SystemMessages(ms, preserveSystem)| + |OtherMessages(ms, preserveSystem)| == |ms|
  {
    if ms != [] {
      PartitionPermutation(ms[..|ms| - 1], preserveSystem);
      assert ms == ms[..|ms| - 1] + [ms[|ms| - 1]];
    }
  }

  /** With no system message to set aside, the other part is the whole input. */
  lemma {:induction false} NoSystemMessages(ms: seq<Message>, preserveSystem: bool)
    requires forall i :: 0 <= i < |ms| ==> !IsKeptSystem(ms[i], preserveSystem)
    ensures SystemMessages(ms, preserveSystem) == [] && OtherMessages(ms, preserveSystem) == ms
  {
    if ms != [] {
      var init := ms[..|ms| - 1];
      assert forall i :: 0 <= i < |init| ==> init[i] == ms[i];
      NoSystemMessages(init, preserveSystem);
      assert !IsKeptSystem(ms[|ms| - 1], preserveSystem);
      assert ms == init + [ms[|ms| - 1]];
    }
  }

  lemma {:induction false} SystemMessagesAppend(a: seq<Message>, b: seq<Message>, preserveSystem: bool)
    ensures SystemMessages(a + b, preserveSystem) == SystemMessages(a, preserveSystem) + SystemMessages(b, preserveSystem)
    ensures OtherMessages(a + b, preserveSystem) == OtherMessages(a, preserveSystem) + OtherMessages(b, preserveSystem)
    decreases |b|
  {
    if b == [] {
      assert a + b == a;
    } else {
      assert (a + b)[..|a + b| - 1] == a + b[..|b| - 1];
      SystemMessagesAppend(a, b[..|b| - 1], preserveSystem);
    }
  }

  /** Splitting the already-split parts again changes nothing. */
  lemma {:induction false} PartsArePure(ms: seq<Message>, preserveSystem: bool)
    ensures SystemMessages(SystemMessages(ms, preserveSystem), preserveSystem) == SystemMessages(ms, preserveSystem)
    ensures OtherMessages(SystemMessages(ms, preserveSystem), preserveSystem) == []
    ensures SystemMessages(OtherMessages(ms, preserveSystem), preserveSystem) == []
    ensures OtherMessages(OtherMessages(ms, preserveSystem), preserveSystem) == OtherMessages(ms, preserveSystem)
  {
    if ms != [] {
      var init, last := ms[..|ms| - 1], ms[|ms| - 1];
      PartsArePure(init, preserveSystem);
      assert [last][..0] == [];
      SystemMessagesAppend(SystemMessages(init, preserveSystem), [last], preserveSystem);
      SystemMessagesAppend(OtherMessages(init, preserveSystem), [last], preserveSystem);
    }
  }

  /** A suffix of the non-system part holds no preserved system message. */
  lemma {:induction false} OtherSuffixHasNoSystem(ms: seq<Message>, preserveSystem: bool, k: nat)
    requires k <= |OtherMessages(ms, preserveSystem)|
    ensures SystemMessages(OtherMessages(ms, preserveSystem)[k..], preserveSystem) == []
    ensures OtherMessages(OtherMessages(ms, preserveSystem)[k..], preserveSystem) == OtherMessages(ms, preserveSystem)[k..]
  {
    var o := OtherMessages(ms, preserveSystem);
    PartsArePure(ms, preserveSystem);
    assert o == o[..k] + o[k..];
    SystemMessagesAppend(o[..k], o[k..], preserveSystem);
  }

  /** Splitting the system part followed by a suffix of the other part gives back the system part. */
  lemma {:induction false} SystemThenOtherSuffix(ms: seq<Message>, preserveSystem: bool, k: nat)
    requires k <= |OtherMessages(ms, preserveSystem)|
    ensures SystemMessages(SystemMessages(ms, preserveSystem) + OtherMessages(ms, preserveSystem)[k..], preserveSystem)
         == SystemMessages(ms, preserveSystem)
  {
    var system, tail := SystemMessages(ms, preserveSystem), OtherMessages(ms, preserveSystem)[k..];
    SystemMessagesAppend(system, tail, preserveSystem);
    PartsArePure(ms, preserveSystem);
    OtherSuffixHasNoSystem(ms, preserveSystem, k);
    assert system + [] == system;
  }

  /** Sum of `len(content) // 4` over the messages, without overhead. */
  function ContentTokens(ms: seq<Message>): nat
  {
    if ms == [] then 0 else ContentTokens(ms[..|ms| - 1]) + |ms[|ms| - 1].content| / 4
  }

  /** Sum of `len(content)` over the messages. */
  function ContentLength(ms: seq<Message>): nat
  {
    if ms == [] then 0 else ContentLength(ms[..|ms| - 1]) + |ms[|ms| - 1].content|
  }

  lemma {:induction false} ContentTokensAppend(a: seq<Message>, b: seq<Message>)
    ensures ContentTokens(a + b) == ContentTokens(a) + ContentTokens(b)
    decreases |b|
  {
    if b == [] {
      assert a + b == a;
    } else {
      assert (a + b)[..|a + b| - 1] == a + b[..|b| - 1];
      ContentTokensAppend(a, b[..|b| - 1]);
    }
  }

  /** The overhead-free estimate is the full estimate less four tokens per message. */
  lemma {:induction false} ContentTokensOverhead(ms: seq<Message>)
    ensures ContentTokens(ms) + 4 * |ms| == Tokens(ms)
  {
    if ms != [] {
      ContentTokensOverhead(ms[..|ms| - 1]);
    }
  }
}
