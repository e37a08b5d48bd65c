/** The conversation memory: the `chat_sessions` and `chat_messages` tables
    and the three functions over them. The database is modelled as a store
    holding a set of session ids (the `UNIQUE` key makes it a set) and the
    append-only log of messages. `created_at` comes from a counter that
    every insert advances, instead of the wall clock. */
module Memory {
  import opened Results
  import opened Schema

  /** A row of `chat_messages` (its auto-increment `id` is not modelled). */
  datatype Message = Message(sessionId: string, role: string, content: string, createdAt: nat)

  /** Why a statement of the memory functions fails. */
  datatype MemoryError =
    | SessionIdTooLong   // a value longer than `VARCHAR(64)` in a plain insert
    | InvalidRole        // a value outside `ENUM('user','assistant')`
    | UnknownSession     // the foreign key to `chat_sessions`
    | NegativeLimit      // `LIMIT` with a negative count

  /** The row `(role, content)` the query selects for a message. */
  function RowOf(m: Message): (string, string)
  {
    (m.role, m.content)
  }

  /** The selected rows of a list of messages, in the same order. */
  function Rows(ms: seq<Message>): (r: seq<(string, string)>)
    ensures |r| == |ms|
    ensures forall i :: 0 <= i < |ms| ==> r[i] == RowOf(ms[i])
  {
    if ms == [] then [] else Rows(ms[..|ms| - 1]) + [RowOf(ms[|ms| - 1])]
  }

  /** `s` back to front. */
  function Reversed<T>(s: seq<T>): (r: seq<T>)
    ensures |r| == |s|
    ensures forall i :: 0 <= i < |s| ==> r[i] == s[|s| - 1 - i]
  {
    seq(|s|, i requires 0 <= i < |s| => s[|s| - 1 - i])
  }

  /** The messages of session `sid`, in the order they were added. */
  function SessionLog(ms: seq<Message>, sid: string): seq<Message>
  {
    if ms == [] then []
    else
      var m := ms[|ms| - 1];
      SessionLog(ms[..|ms| - 1], sid) + if m.sessionId == sid then [m] else []
  }

  /** The session's messages holds only messages of that session, all of
      them stored. */
  lemma {:induction false} SessionLogOwn(ms: seq<Message>, sid: string)
    ensures forall i :: 0 <= i < |SessionLog(ms, sid)| ==>
      SessionLog(ms, sid)[i].sessionId == sid && SessionLog(ms, sid)[i] in ms
  {
    if ms != [] {
      var p := ms[..|ms| - 1];
      SessionLogOwn(p, sid);
      forall i | 0 <= i < |SessionLog(p, sid)| ensures SessionLog(p, sid)[i] in ms {
        assert SessionLog(p, sid)[i] in p;
      }
    }
  }

  /** Messages whose `created_at` increases strictly in the order they were
      added. */
  predicate Chronological(ms: seq<Message>) {
    forall i, j :: 0 <= i < j < |ms| ==> ms[i].createdAt < ms[j].createdAt
  }

  /** `WHERE session_id = sid ORDER BY created_at DESC`: since `created_at`
      increases with every insert, newest first is the log back to front. */
  function NewestFirst(ms: seq<Message>, sid: string): seq<Message>
  {
    Reversed(SessionLog(ms, sid))
  }

  /** In a chronological log the session's messages newest first are in
      strictly decreasing order of `created_at`, so no other order satisfies
      the `ORDER BY`. */
  lemma {:induction false} NewestFirstOrdered(ms: seq<Message>, sid: string)
    requires Chronological(ms)
    ensures var nf := NewestFirst(ms, sid);
      forall i, j :: 0 <= i < j < |nf| ==> nf[i].createdAt > nf[j].createdAt
  {
    SessionLogChronological(ms, sid);
  }

  lemma {:induction false} SessionLogChronological(ms: seq<Message>, sid: string)
    requires Chronological(ms)
    ensures Chronological(SessionLog(ms, sid))
  {
    if ms != [] {
      var p := ms[..|ms| - 1];
      var m := ms[|ms| - 1];
      assert Chronological(p);
      SessionLogChronological(p, sid);
      SessionLogOwn(p, sid);
      var log := SessionLog(p, sid);
      forall i | 0 <= i < |log| ensures log[i].createdAt < m.createdAt {
        var k :| 0 <= k < |p| && p[k] == log[i];
        assert ms[k] == log[i];
      }
    }
  }

  /** The query of `get_recent_messages` up to `LIMIT`: the session's rows,
      newest first, at most `limit` of them. */
  function Query(ms: seq<Message>, sid: string, limit: nat): seq<(string, string)>
  {
    var log := SessionLog(ms, sid);
    Rows(NewestFirst(ms, sid)[..Min(limit, |log|)])
  }

  /** What `get_recent_messages` returns: the query's rows reversed. */
  function Recent(ms: seq<Message>, sid: string, limit: nat): seq<(string, string)>
  {
    Reversed(Query(ms, sid, limit))
  }

  /** The last `min(limit, n)` of a log of `n` messages. */
  function Latest(log: seq<Message>, limit: nat): seq<Message>
  {
    log[|log| - Min(limit, |log|)..]
  }

  /** The result is the session's `min(limit, n)` latest messages in the
      order they were added: at most `limit` rows, all of the session. */
  lemma RecentIsLatest(ms: seq<Message>, sid: string, limit: nat)
    ensures Recent(ms, sid, limit) == Rows(Latest(SessionLog(ms, sid), limit))
  {
    var log := SessionLog(ms, sid);
    var firsts := Rows(Reversed(log)[..Min(limit, |log|)]);
    assert Query(ms, sid, limit) == firsts;
    LatestRows(log, limit);
  }

  /** At most `limit` rows come back, each the row of a stored message of
      session `sid`: all of the session's messages when it has no more than
      `limit`. */
  lemma RecentBounds(ms: seq<Message>, sid: string, limit: nat)
    ensures var r := Recent(ms, sid, limit);
      |r| == Min(limit, |SessionLog(ms, sid)|) && |r| <= limit &&
      forall i :: 0 <= i < |r| ==>
        exists j :: 0 <= j < |ms| && ms[j].sessionId == sid && r[i] == RowOf(ms[j])
  {
    RecentIsLatest(ms, sid, limit);
    SessionLogOwn(ms, sid);
    var log := SessionLog(ms, sid);
    var r := Recent(ms, sid, limit);
    var off := |log| - Min(limit, |log|);
    forall i | 0 <= i < |r|
      ensures exists j :: 0 <= j < |ms| && ms[j].sessionId == sid && r[i] == RowOf(ms[j])
    {
      var m := log[off + i];
      assert r[i] == RowOf(m);
      assert m in ms;
      var j :| 0 <= j < |ms| && ms[j] == m;
    }
  }

  /** The rows of the last `m` messages of a log, in order, are the first `m`
      rows newest first, reversed. */
  lemma LatestRows(log: seq<Message>, limit: nat)
    ensures Reversed(Rows(Reversed(log)[..Min(limit, |log|)])) == Rows(Latest(log, limit))
  {
    var m := Min(limit, |log|);
    RowsReversed(Reversed(log)[..m]);
    ReversedPrefix(log, m);
  }

  /** Reversing the first `m` of the reversed list gives the last `m` in
      their original order. */
  lemma ReversedPrefix<T>(s: seq<T>, m: nat)
    requires m <= |s|
    ensures Reversed(Reversed(s)[..m]) == s[|s| - m..]
  {
    var r := Reversed(Reversed(s)[..m]);
    forall i | 0 <= i < m ensures r[i] == s[|s| - m + i] {
      assert r[i] == Reversed(s)[..m][m - 1 - i];
    }
  }

  /** Selecting the rows commutes with reversing. */
  lemma RowsReversed(ms: seq<Message>)
    ensures Reversed(Rows(ms)) == Rows(Reversed(ms))
  {
  }

  /** A message just added to a session comes last in that session's recent
      messages, whatever the limit (from 1 on). */
  lemma RecentAfterAdd(ms: seq<Message>, msg: Message, limit: nat)
    requires limit >= 1
    ensures var r := Recent(ms + [msg], msg.sessionId, limit);
      |r| >= 1 && r[|r| - 1] == RowOf(msg)
  {
    var ms' := ms + [msg];
    assert ms'[..|ms'| - 1] == ms;
    RecentIsLatest(ms', msg.sessionId, limit);
  }

  /** Messages added to other sessions do not show in a session's recent
      messages. */
  lemma RecentIgnoresOthers(ms: seq<Message>, msg: Message, sid: string, limit: nat)
    requires msg.sessionId != sid
    ensures Recent(ms + [msg], sid, limit) == Recent(ms, sid, limit)
  {
    var ms' := ms + [msg];
    assert ms'[..|ms'| - 1] == ms;
    assert SessionLog(ms', sid) == SessionLog(ms, sid);
  }

  /** The value `INSERT IGNORE` stores for a session id: one longer than
      `VARCHAR(64)` is cut to its first 64 characters (with a warning) rather
      than refused. */
  function StoredSessionId(sid: string): (r: string)
    ensures |r| <= MaxSessionIdLength
    ensures r <= sid
    ensures |sid| <= MaxSessionIdLength ==> r == sid
  {
    if |sid| <= MaxSessionIdLength then sid else sid[..MaxSessionIdLength]
  }

  /** Why the plain insert of `add_message` fails, checked in column order
      (the session id, then the role) before the foreign key. */
  function AddFailure(sessions: set<string>, sid: string, role: string): (r: Option<MemoryError>)
    ensures r == None <==> |sid| <= MaxSessionIdLength && role in Roles && sid in sessions
  {
    if |sid| > MaxSessionIdLength then Some(SessionIdTooLong)
    else if role !in Roles then Some(InvalidRole)
    else if sid !in sessions then Some(UnknownSession)
    else None
  }

  class ChatStore {
    var sessions: set<string>
    var messages: seq<Message>
    var clock: nat

    /** The constraints of the two tables hold, and `created_at` increases
        with every insert and stays below the clock. */
    predicate Valid()
      reads this
    {
      (forall s :: s in sessions ==> |s| <= MaxSessionIdLength) &&
      (forall i :: 0 <= i < |messages| ==>
        messages[i].sessionId in sessions && messages[i].role in Roles && messages[i].createdAt < clock) &&
      Chronological(messages)
    }

    constructor ()
      ensures Valid() && sessions == {} && messages == []
    {
      sessions := {};
      messages := [];
      clock := 0;
    }

    /** `ensure_session`: `INSERT IGNORE` of the session id. An id that is
        already there leaves the store as it is, so a second call changes
        nothing; no call fails. */
    method EnsureSession(sid: string)
      requires Valid()
      modifies this`sessions
      ensures Valid()
      ensures sessions == old(sessions) + {StoredSessionId(sid)}
      ensures StoredSessionId(sid) in old(sessions) ==> sessions == old(sessions)
    {
      sessions := sessions + {StoredSessionId(sid)};
    }

    /** `add_message`: one plain insert, which either fails and changes
        nothing, or appends exactly one message after all others. */
    method AddMessage(sid: string, role: string, content: string) returns (failure: Option<MemoryError>)
      requires Valid()
      modifies this`messages, this`clock
      ensures Valid()
      ensures failure == AddFailure(old(sessions), sid, role)
      ensures failure.Some? ==> messages == old(messages) && clock == old(clock)
      ensures failure.None? ==>
        messages == old(messages) + [Message(sid, role, content, old(clock))] && clock == old(clock) + 1
    {
      failure := AddFailure(sessions, sid, role);
      if failure.Some? {
        return;
      }
      messages := messages + [Message(sid, role, content, clock)];
      clock := clock + 1;
    }

    /** `get_recent_messages`: the query, then `rows.reverse()` in place. The
        store is only read. */
    method GetRecentMessages(sid: string, limit: int) returns (r: Result<seq<(string, string)>, MemoryError>)
      ensures limit < 0 ==> r == Err(NegativeLimit)
      ensures limit >= 0 ==> r == Ok(Recent(messages, sid, limit))
    {
      if limit < 0 {
        return Err(NegativeLimit);
      }
      var fetched := Query(messages, sid, limit);
      var rows := new (string, string)[|fetched|](i requires 0 <= i < |fetched| => fetched[i]);
      assert rows[..] == fetched;
      ReverseInPlace(rows);
      r := Ok(rows[..]);
    }
  }

  /** `list.reverse()`: swaps from both ends towards the middle. */
  method ReverseInPlace<T>(a: array<T>)
    modifies a
    ensures a[..] == Reversed(old(a[..]))
  {
    var n := a.Length;
    var i := 0;
    while i < n / 2
      invariant 0 <= i <= n / 2
      invariant forall k :: 0 <= k < i ==> a[k] == old(a[n - 1 - k]) && a[n - 1 - k] == old(a[k])
      invariant forall k :: i <= k < n - i ==> a[k] == old(a[k])
    {
      a[i], a[n - 1 - i] := a[n - 1 - i], a[i];
      i := i + 1;
    }
  }
}
