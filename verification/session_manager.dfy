/** The in-memory session table (utils/session_manager.py).

    The table is a map from session id to a session record. The two updates are
    first given as functions on the map (`AfterGetOrCreate`, `AfterUpdate`),
    whose contracts carry the promises of one call; the class `SessionManager`
    performs them in place and is proved against those functions; the lemmas at
    the end follow the table through any sequence of calls. Timestamps are
    readings of the wall clock passed in by the caller: creation reads it twice,
    a refresh reads it once. */
module Sessions {
  import opened Schemas

  type Table = map<string, SessionData>

  /** Every record is filed under its own id. */
  ghost predicate WellKeyed(t: Table) {
    forall k :: k in t ==> t[k].sessionId == k
  }

  /** The history a fetch of `id` hands out: the stored one, or the empty
      history of a session about to be created. */
  function PriorHistory(t: Table, id: string): History {
    if id in t then t[id].history else []
  }

  /** The table after `get_or_create_session(id)`: an unseen id gets a new
      record with empty history stamped with the two readings `now` and
      `later`; a known id only has its last-access time set to `now`. */
  function AfterGetOrCreate(t: Table, id: string, now: Timestamp, later: Timestamp): (r: Table)
    ensures r.Keys == t.Keys + {id}
    ensures id !in t ==> |r| == |t| + 1
    ensures id !in t ==> r[id].sessionId == id && r[id].history == [] && r[id].createdAt == now && r[id].lastAccessed == later
    ensures id in t ==> |r| == |t|
    ensures id in t ==> r[id].sessionId == t[id].sessionId && r[id].history == t[id].history
    ensures id in t ==> r[id].createdAt == t[id].createdAt && r[id].lastAccessed == now
    ensures r[id].history == PriorHistory(t, id)
    ensures forall k :: k in t && k != id ==> r[k] == t[k]
    ensures WellKeyed(t) ==> WellKeyed(r) && r[id].sessionId == id
  {
    if id !in t then
      t[id := SessionData(id, [], now, later)]
    else
      t[id := t[id].(lastAccessed := now)]
  }

  /** The table after `update_session_history(id, history)`: a known id gets
      the new history and a fresh last-access time; an unknown id changes
      nothing. */
  function AfterUpdate(t: Table, id: string, history: History, now: Timestamp): (r: Table)
    ensures r.Keys == t.Keys && |r| == |t|
    ensures id !in t ==> r == t
    ensures id in t ==> r[id].history == history && r[id].lastAccessed == now
    ensures id in t ==> r[id].sessionId == t[id].sessionId && r[id].createdAt == t[id].createdAt
    ensures forall k :: k in t && k != id ==> r[k] == t[k]
    ensures WellKeyed(t) ==> WellKeyed(r)
  {
    if id in t then
      t[id := t[id].(history := history, lastAccessed := now)]
    else
      t
  }

  class SessionManager {
    var sessions: Table

    ghost predicate Valid()
      reads this
    {
      WellKeyed(sessions)
    }

    constructor ()
      ensures Valid() && sessions == map[]
    {
      sessions := map[];
    }

    /** Returns the record stored under `id`, creating it first if absent. */
    method GetOrCreateSession(id: string, now: Timestamp, later: Timestamp) returns (session: SessionData)
      requires Valid()
      modifies this
      ensures Valid()
      ensures sessions == AfterGetOrCreate(old(sessions), id, now, later)
      ensures id in sessions && session == sessions[id] && session.sessionId == id
    {
      if id !in sessions {
        sessions := sessions[id := SessionData(id, [], now, later)];
      } else {
        sessions := sessions[id := sessions[id].(lastAccessed := now)];
      }
      session := sessions[id];
    }

    /** Replaces the history of a known session; unknown ids are ignored. */
    method UpdateSessionHistory(id: string, history: History, now: Timestamp)
      requires Valid()
      modifies this
      ensures Valid()
      ensures sessions == AfterUpdate(old(sessions), id, history, now)
    {
      if id in sessions {
        sessions := sessions[id := sessions[id].(history := history, lastAccessed := now)];
      }
    }

    /** The number of resident sessions. */
    function SessionCount(): (n: nat)
      reads this
      ensures n == |sessions.Keys|
    {
      |sessions|
    }
  }

  /** One call on the table, with the clock readings it takes. */
  datatype Op =
    | GetOrCreate(id: string, now: Timestamp, later: Timestamp)
    | UpdateHistory(id: string, history: History, now: Timestamp)
  {
    /** The last clock reading the call may take. */
    function Latest(): Timestamp {
      if GetOrCreate? then later else now
    }
  }

  function Apply(t: Table, op: Op): Table {
    match op
    case GetOrCreate(id, now, later) => AfterGetOrCreate(t, id, now, later)
    case UpdateHistory(id, history, now) => AfterUpdate(t, id, history, now)
  }

  function Replay(t: Table, ops: seq<Op>): Table
    decreases |ops|
  {
    if ops == [] then t else Replay(Apply(t, ops[0]), ops[1..])
  }

  /** The ids a sequence of calls names. */
  function Ids(ops: seq<Op>): set<string>
    decreases |ops|
  {
    if ops == [] then {} else {ops[0].id} + Ids(ops[1..])
  }

  /** The clock never runs backwards: each call's readings are in order and
      come no earlier than `clock` and the readings of the calls before it. */
  predicate Ticking(ops: seq<Op>, clock: Timestamp)
    decreases |ops|
  {
    ops == [] || (clock <= ops[0].now <= ops[0].Latest() && Ticking(ops[1..], ops[0].Latest()))
  }

  /** The last reading of the clock after a sequence of calls that starts at `clock`. */
  function LastReading(ops: seq<Op>, clock: Timestamp): Timestamp
    decreases |ops|
  {
    if ops == [] then clock else LastReading(ops[1..], ops[0].Latest())
  }

  /** Every record was created no later than its last access, which is no later than `clock`. */
  ghost predicate StampedBy(t: Table, clock: Timestamp) {
    forall k :: k in t ==> t[k].createdAt <= t[k].lastAccessed <= clock
  }

  /** No call removes a session: over any sequence of calls the ids only grow,
      so the count never decreases, and it grows by at most one per call;
      records stay filed under their own ids; a creation time is never reset;
      and the record of an id no call names is left exactly as it was. */
  lemma {:induction false} ReplayKeepsSessions(t: Table, ops: seq<Op>)
    ensures t.Keys <= Replay(t, ops).Keys
    ensures |t| <= |Replay(t, ops)| <= |t| + |ops|
    ensures WellKeyed(t) ==> WellKeyed(Replay(t, ops))
    ensures forall k :: k in t ==> Replay(t, ops)[k].createdAt == t[k].createdAt
    ensures forall k :: k in Replay(t, ops) && k !in Ids(ops) ==> k in t && Replay(t, ops)[k] == t[k]
    decreases |ops|
  {
    if ops != [] {
      var next := Apply(t, ops[0]);
      ReplayKeepsSessions(next, ops[1..]);
      assert Ids(ops) == {ops[0].id} + Ids(ops[1..]);
    }
  }

  /** Under a clock that never runs backwards, last-access times never
      decrease and every record keeps `createdAt <= lastAccessed`. */
  lemma {:induction false} ReplayKeepsClockOrder(t: Table, ops: seq<Op>, clock: Timestamp)
    requires StampedBy(t, clock) && Ticking(ops, clock)
    ensures clock <= LastReading(ops, clock) && StampedBy(Replay(t, ops), LastReading(ops, clock))
    ensures forall k :: k in t ==> k in Replay(t, ops) && t[k].lastAccessed <= Replay(t, ops)[k].lastAccessed
    decreases |ops|
  {
    if ops != [] {
      var next := Apply(t, ops[0]);
      assert StampedBy(next, ops[0].Latest());
      ReplayKeepsClockOrder(next, ops[1..], ops[0].Latest());
    }
  }

  /** A history written to a known session is what the next fetch returns. */
  lemma UpdateThenFetch(t: Table, id: string, history: History, now: Timestamp, next: Timestamp, later: Timestamp)
    requires id in t
    ensures AfterGetOrCreate(AfterUpdate(t, id, history, now), id, next, later)[id].history == history
  {
  }
}
