/**
 * The session store of `src/core/session_manager.py`: the in-memory
 * storage (a dictionary of sessions with a TTL sweep against the clock),
 * the session manager's lazy create / reset / append operations on top of
 * it, and the factory's choice of backend.
 *
 * The storage key: the source joins user and session id with a colon,
 * which lets two different pairs share one entry (see `MakeKeyCollides`);
 * the store here is keyed by the pair itself. The clock is the `now`
 * parameter of each operation.
 */
module SessionStore {
  import opened Wrappers
  import opened Messages
  import opened SessionModel
  import Timestamps

  // ---------------------------------------------------------------------
  // Storage keys

  /** As written: `_make_key`, `user_id + ":" + session_id`. */
  function MakeKey(sessionId: string, userId: string): (k: string)
    ensures |k| == |userId| + 1 + |sessionId|
    ensures k[..|userId|] == userId && k[|userId|] == ':' && k[|userId| + 1..] == sessionId
  {
    userId + ":" + sessionId
  }

  /** Two different (session, user) pairs that `MakeKey` sends to the same entry. */
  lemma {:induction false} MakeKeyCollides()
    ensures MakeKey("c", "a:b") == MakeKey("b:c", "a")
    ensures ("c", "a:b") != ("b:c", "a")
  {
    assert MakeKey("c", "a:b") == "a:b:c";
    assert MakeKey("b:c", "a") == "a:b:c";
  }

  /** The joined key is unambiguous as long as user ids hold no colon. */
  lemma {:induction false} MakeKeyInjectiveWithoutColon(s1: string, u1: string, s2: string, u2: string)
    requires ':' !in u1 && ':' !in u2
    requires MakeKey(s1, u1) == MakeKey(s2, u2)
    ensures s1 == s2 && u1 == u2
  {
    var k := MakeKey(s1, u1);
    forall j | 0 <= j < |u1|
      ensures k[j] != ':'
    {
      assert k[j] == u1[j];
    }
    forall j | 0 <= j < |u2|
      ensures k[j] != ':'
    {
      assert k[j] == u2[j];
    }
    assert |u1| == |u2|;
    assert u1 == k[..|u1|] == u2;
    assert s1 == k[|u1| + 1..] == s2;
  }

  /** The key the store uses: the (user, session) pair itself. */
  type Key = (string, string)

  function KeyOf(sessionId: string, userId: string): (k: Key)
    ensures k.0 == userId && k.1 == sessionId
  {
    (userId, sessionId)
  }

  /** Different pairs always have different keys. */
  lemma {:induction false} KeyOfInjective(s1: string, u1: string, s2: string, u2: string)
    requires KeyOf(s1, u1) == KeyOf(s2, u2)
    ensures s1 == s2 && u1 == u2
  {
  }

  // ---------------------------------------------------------------------
  // Expiry

  /** A session whose last update is more than `ttl` seconds before `now`. */
  predicate Expired(s: Session, ttl: int, now: Timestamps.DateTime)
    requires ValidSession(s) && Timestamps.Valid(now)
  {
    Timestamps.SecondsBetween(now, s.updatedAt) > ttl as real
  }

  /** Every stored session has valid timestamps and sits under its own key. */
  ghost predicate WellKeyed(sessions: map<Key, Session>) {
    forall k :: k in sessions ==> ValidSession(sessions[k]) && k == KeyOf(sessions[k].sessionId, sessions[k].userId)
  }

  /** The keys `cleanup_expired` collects. */
  function ExpiredKeys(sessions: map<Key, Session>, ttl: int, now: Timestamps.DateTime): set<Key>
    requires forall k :: k in sessions ==> ValidSession(sessions[k])
    requires Timestamps.Valid(now)
  {
    set k | k in sessions && Expired(sessions[k], ttl, now)
  }

  /** The store after the sweep: exactly the sessions that have not expired, unchanged. */
  function Swept(sessions: map<Key, Session>, ttl: int, now: Timestamps.DateTime): (r: map<Key, Session>)
    requires forall k :: k in sessions ==> ValidSession(sessions[k])
    requires Timestamps.Valid(now)
    ensures forall k :: k in r <==> k in sessions && !Expired(sessions[k], ttl, now)
    ensures forall k :: k in r ==> r[k] == sessions[k]
  {
    map k | k in sessions && !Expired(sessions[k], ttl, now) :: sessions[k]
  }

  /** The sweep removes exactly the expired keys, so the removed count and the survivors add up. */
  lemma {:induction false} SweptCount(sessions: map<Key, Session>, ttl: int, now: Timestamps.DateTime)
    requires forall k :: k in sessions ==> ValidSession(sessions[k])
    requires Timestamps.Valid(now)
    ensures Swept(sessions, ttl, now).Keys == sessions.Keys - ExpiredKeys(sessions, ttl, now)
    ensures |Swept(sessions, ttl, now)| + |ExpiredKeys(sessions, ttl, now)| == |sessions|
  {
    var gone, r := ExpiredKeys(sessions, ttl, now), Swept(sessions, ttl, now);
    assert r.Keys == sessions.Keys - gone;
    RemovedCount(sessions, gone, r);
  }

  /** Removing a set of present keys leaves the map smaller by exactly that many entries. */
  lemma {:induction false} RemovedCount<K, V>(m: map<K, V>, gone: set<K>, r: map<K, V>)
    requires gone <= m.Keys && r.Keys == m.Keys - gone
    ensures |r| + |gone| == |m|
  {
    assert m.Keys == r.Keys + gone;
    assert r.Keys !! gone;
  }

  /** Sweeping again at the same time removes nothing more. */
  lemma {:induction false} SweptIdempotent(sessions: map<Key, Session>, ttl: int, now: Timestamps.DateTime)
    requires forall k :: k in sessions ==> ValidSession(sessions[k])
    requires Timestamps.Valid(now)
    ensures Swept(Swept(sessions, ttl, now), ttl, now) == Swept(sessions, ttl, now)
  {
  }

  /** A longer TTL keeps at least the sessions a shorter one keeps. */
  lemma {:induction false} SweptMonotone(sessions: map<Key, Session>, ttl1: int, ttl2: int, now: Timestamps.DateTime)
    requires forall k :: k in sessions ==> ValidSession(sessions[k])
    requires Timestamps.Valid(now)
    requires ttl1 <= ttl2
    ensures Swept(sessions, ttl1, now).Keys <= Swept(sessions, ttl2, now).Keys
  {
  }

  // ---------------------------------------------------------------------
  // In-memory storage

  class InMemoryStorage {
    var sessions: map<Key, Session>

    ghost predicate Valid()
      reads this
    {
      WellKeyed(sessions)
    }

    constructor ()
      ensures sessions == map[] && Valid()
    {
      sessions := map[];
    }

    /** `get`: the session stored for the pair, if any. */
    method Get(sessionId: string, userId: string) returns (r: Option<Session>)
      ensures r.Some? <==> KeyOf(sessionId, userId) in sessions
      ensures r.Some? ==> r.value == sessions[KeyOf(sessionId, userId)]
    {
      var key := KeyOf(sessionId, userId);
      if key in sessions {
        r := Some(sessions[key]);
      } else {
        r := None;
      }
    }

    /**
     * `set`: stamps `updated_at` with `now` and overwrites the whole entry
     * of the session's pair; the stamped session is what the caller's
     * object now holds.
     */
    method Set(s: Session, now: Timestamps.DateTime) returns (stored: Session)
      requires Timestamps.Valid(s.createdAt) && Timestamps.Valid(now)
      modifies this
      ensures stored == s.(updatedAt := now)
      ensures sessions == old(sessions)[KeyOf(s.sessionId, s.userId) := stored]
      ensures old(Valid()) ==> Valid()
    {
      stored := s.(updatedAt := now);
      sessions := sessions[KeyOf(s.sessionId, s.userId) := stored];
    }

    /** `delete`: removes that pair's entry only; nothing happens when it is absent. */
    method Delete(sessionId: string, userId: string)
      modifies this
      ensures sessions == old(sessions) - {KeyOf(sessionId, userId)}
      ensures old(Valid()) ==> Valid()
    {
      var key := KeyOf(sessionId, userId);
      if key in sessions {
        sessions := sessions - {key};
      }
    }

    /**
     * `cleanup_expired`: collects the keys of the expired sessions in one
     * pass, deletes them in a second, and returns how many there were.
     */
    method CleanupExpired(ttl: int, now: Timestamps.DateTime) returns (removed: nat)
      requires Valid() && Timestamps.Valid(now)
      modifies this
      ensures Valid()
      ensures sessions == Swept(old(sessions), ttl, now)
      ensures removed == |ExpiredKeys(old(sessions), ttl, now)|
    {
      var expired := CollectExpired(ttl, now);
      SweptCount(sessions, ttl, now);
      DeleteKeys(expired);
      removed := |expired|;
    }

    /** The first pass of `cleanup_expired`: the keys whose sessions have expired. */
    method CollectExpired(ttl: int, now: Timestamps.DateTime) returns (expired: set<Key>)
      requires Valid() && Timestamps.Valid(now)
      ensures expired == ExpiredKeys(sessions, ttl, now)
    {
      expired := {};
      var pending := sessions.Keys;
      while pending != {}
        invariant pending <= sessions.Keys
        invariant expired == ExpiredKeys(sessions, ttl, now) - pending
        decreases |pending|
      {
        var k :| k in pending;
        if Expired(sessions[k], ttl, now) {
          expired := expired + {k};
        }
        pending := pending - {k};
      }
    }

    /** The second pass: deletes the collected keys one by one. */
    method DeleteKeys(doomed: set<Key>)
      modifies this
      ensures sessions.Keys == old(sessions).Keys - doomed
      ensures forall k :: k in sessions ==> sessions[k] == old(sessions)[k]
      ensures old(Valid()) ==> Valid()
    {
      var pending := doomed;
      while pending != {}
        invariant pending <= doomed
        invariant sessions.Keys == old(sessions).Keys - (doomed - pending)
        invariant forall k :: k in sessions ==> sessions[k] == old(sessions)[k]
        decreases |pending|
      {
        var k :| k in pending;
        sessions := sessions - {k};
        pending := pending - {k};
      }
    }
  }

  // ---------------------------------------------------------------------
  // Session manager

  /** The session `get_session` creates for an unknown pair: empty history and memory, no tokens. */
  function Fresh(sessionId: string, userId: string, now: Timestamps.DateTime): Session {
    Session(sessionId, userId, [], [], [], now, now, 0)
  }

  /** The session `get_session` hands out: the stored one, or a fresh one. */
  function Current(sessions: map<Key, Session>, sessionId: string, userId: string, now: Timestamps.DateTime): Session {
    var key := KeyOf(sessionId, userId);
    if key in sessions then sessions[key] else Fresh(sessionId, userId, now)
  }

  /** The store after `get_session`: a fresh session is stored only when the pair was unknown. */
  function AfterGet(sessions: map<Key, Session>, sessionId: string, userId: string, now: Timestamps.DateTime): map<Key, Session> {
    var key := KeyOf(sessionId, userId);
    if key in sessions then sessions else sessions[key := Fresh(sessionId, userId, now)]
  }

  /** The stored session after `reset_session`: history emptied, everything else kept, restamped. */
  function ResetOf(s: Session, now: Timestamps.DateTime): (r: Session)
    ensures r.conversationHistory == [] && r.memoryZone == s.memoryZone && r.metadata == s.metadata
    ensures r.sessionId == s.sessionId && r.userId == s.userId && r.createdAt == s.createdAt
    ensures r.updatedAt == now && r.totalTokensUsed == s.totalTokensUsed
  {
    s.(conversationHistory := [], updatedAt := now)
  }

  /** The stored session after `add_message`: one message appended at the end, restamped. */
  function AppendOf(s: Session, m: Message, now: Timestamps.DateTime): (r: Session)
    ensures r.conversationHistory == s.conversationHistory + [m]
    ensures |r.conversationHistory| == |s.conversationHistory| + 1 && r.conversationHistory[|s.conversationHistory|] == m
    ensures r.memoryZone == s.memoryZone && r.metadata == s.metadata && r.updatedAt == now
    ensures r.sessionId == s.sessionId && r.userId == s.userId && r.createdAt == s.createdAt
  {
    s.(conversationHistory := s.conversationHistory + [m], updatedAt := now)
  }

  /** Looking a session up stores it under its own pair and leaves every other entry alone. */
  lemma {:induction false} AfterGetFrames(sessions: map<Key, Session>, sessionId: string, userId: string, now: Timestamps.DateTime)
    requires WellKeyed(sessions) && Timestamps.Valid(now)
    ensures var r := AfterGet(sessions, sessionId, userId, now);
      WellKeyed(r)
      && KeyOf(sessionId, userId) in r
      && r[KeyOf(sessionId, userId)] == Current(sessions, sessionId, userId, now)
      && (forall k :: k != KeyOf(sessionId, userId) ==> (k in r <==> k in sessions))
      && (forall k :: k != KeyOf(sessionId, userId) && k in sessions ==> r[k] == sessions[k])
  {
  }

  /** The session handed out always belongs to the pair that was asked for. */
  lemma {:induction false} CurrentBelongsToPair(sessions: map<Key, Session>, sessionId: string, userId: string, now: Timestamps.DateTime)
    requires WellKeyed(sessions)
    ensures Current(sessions, sessionId, userId, now).sessionId == sessionId
    ensures Current(sessions, sessionId, userId, now).userId == userId
  {
  }

  class SessionManager {
    const storage: InMemoryStorage
    const sessionTtl: int

    ghost predicate Valid()
      reads this, storage
    {
      storage.Valid()
    }

    constructor (storage: InMemoryStorage, sessionTtl: int)
      ensures this.storage == storage && this.sessionTtl == sessionTtl
    {
      this.storage := storage;
      this.sessionTtl := sessionTtl;
    }

    /** `get_session`: the stored session, or a fresh one that is stored on the way. */
    method GetSession(sessionId: string, userId: string, now: Timestamps.DateTime) returns (s: Session)
      requires Valid() && Timestamps.Valid(now)
      modifies storage
      ensures Valid()
      ensures s == Current(old(storage.sessions), sessionId, userId, now)
      ensures storage.sessions == AfterGet(old(storage.sessions), sessionId, userId, now)
    {
      var found := storage.Get(sessionId, userId);
      if found.Some? {
        s := found.value;
      } else {
        s := Fresh(sessionId, userId, now);
        s := storage.Set(s, now);
      }
    }

    /** `update_session`: stores the session under its pair, restamped. */
    method UpdateSession(s: Session, now: Timestamps.DateTime)
      requires Valid() && Timestamps.Valid(s.createdAt) && Timestamps.Valid(now)
      modifies storage
      ensures Valid()
      ensures storage.sessions == old(storage.sessions)[KeyOf(s.sessionId, s.userId) := s.(updatedAt := now)]
    {
      var _ := storage.Set(s, now);
    }

    /** `reset_session`: empties the history and keeps the memory zone. */
    method ResetSession(sessionId: string, userId: string, now: Timestamps.DateTime)
      requires Valid() && Timestamps.Valid(now)
      modifies storage
      ensures Valid()
      ensures storage.sessions == old(storage.sessions)[KeyOf(sessionId, userId) :=
        ResetOf(Current(old(storage.sessions), sessionId, userId, now), now)]
    {
      var s := GetSession(sessionId, userId, now);
      s := s.(conversationHistory := [], updatedAt := now);
      var _ := storage.Set(s, now);
    }

    /** `add_message`: appends exactly one message to the pair's history. */
    method AddMessage(sessionId: string, userId: string, m: Message, now: Timestamps.DateTime)
      requires Valid() && Timestamps.Valid(now)
      modifies storage
      ensures Valid()
      ensures storage.sessions == old(storage.sessions)[KeyOf(sessionId, userId) :=
        AppendOf(Current(old(storage.sessions), sessionId, userId, now), m, now)]
    {
      var s := GetSession(sessionId, userId, now);
      s := s.(conversationHistory := s.conversationHistory + [m], updatedAt := now);
      var _ := storage.Set(s, now);
    }

    /** `get_context`: the pair's history (creating the session when unknown). */
    method GetContext(sessionId: string, userId: string, now: Timestamps.DateTime) returns (history: seq<Message>)
      requires Valid() && Timestamps.Valid(now)
      modifies storage
      ensures Valid()
      ensures history == Current(old(storage.sessions), sessionId, userId, now).conversationHistory
      ensures storage.sessions == AfterGet(old(storage.sessions), sessionId, userId, now)
    {
      var s := GetSession(sessionId, userId, now);
      history := s.conversationHistory;
    }

    /** `delete_session`. */
    method DeleteSession(sessionId: string, userId: string)
      requires Valid()
      modifies storage
      ensures Valid()
      ensures storage.sessions == old(storage.sessions) - {KeyOf(sessionId, userId)}
    {
      storage.Delete(sessionId, userId);
    }
  }

  // ---------------------------------------------------------------------
  // Factory

  datatype Backend = Memory | Redis(url: string, db: int)

  /**
   * `create_session_manager`'s choice of backend: "memory", or "redis"
   * with a non-empty URL; anything else is rejected.
   */
  function ChooseBackend(storageType: string, redisUrl: Option<string>, redisDb: int): (r: Result<Backend, string>)
    ensures r.Ok? <==> storageType == "memory" || (storageType == "redis" && redisUrl.Some? && redisUrl.value != "")
    ensures r.Ok? && storageType == "memory" ==> r.value == Memory
    ensures r.Ok? && storageType == "redis" ==> r.value == Redis(redisUrl.value, redisDb)
  {
    if storageType == "memory" then Ok(Memory)
    else if storageType == "redis" then
      if redisUrl.None? || redisUrl.value == "" then Err("redis_url is required for redis storage")
      else Ok(Redis(redisUrl.value, redisDb))
    else Err("Invalid storage type: " + storageType)
  }

  /** `create_session_manager` for the in-memory backend: an empty store. */
  method CreateMemoryManager(sessionTtl: int) returns (m: SessionManager)
    ensures fresh(m) && fresh(m.storage) && m.storage.sessions == map[] && m.Valid() && m.sessionTtl == sessionTtl
  {
    var storage := new InMemoryStorage();
    m := new SessionManager(storage, sessionTtl);
  }
}
