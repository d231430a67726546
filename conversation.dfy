/** Conversation persistence: the sessions table, the append-only message
    log, and the history window a turn reads back. */
module Conversation {
  import opened Wrappers
  import opened Builtins
  import opened Schemas

  datatype SessionRow = SessionRow(id: string, userId: Option<int>, isActive: bool)

  /** A `conversation_messages` row; the JSON columns are kept as values,
      `None` being SQL NULL. */
  datatype MessageRow = MessageRow(
    sessionId: string,
    role: string,
    content: string,
    intent: Option<string>,
    entities: Option<ExtractedEntities>,
    toolCalls: Option<seq<string>>,
    toolResults: Option<seq<ToolResult>>)

  /** How many messages `_get_conversation_history` reads back by default. */
  const HistoryLimit: nat := 20

  /** The row `_save_message` inserts: the list columns are NULL when the
      list is empty. */
  function MessageRecord(
    sessionId: string, role: string, content: string, intent: Option<string>,
    entities: Option<ExtractedEntities>, toolCalls: seq<string>, toolResults: seq<ToolResult>
  ): (r: MessageRow)
    ensures r.toolCalls.None? <==> |toolCalls| == 0
    ensures r.toolCalls.Some? ==> r.toolCalls.value == toolCalls
    ensures r.toolResults.None? <==> |toolResults| == 0
    ensures r.toolResults.Some? ==> r.toolResults.value == toolResults
  {
    MessageRow(sessionId, role, content, intent, entities,
      if |toolCalls| == 0 then None else Some(toolCalls),
      if |toolResults| == 0 then None else Some(toolResults))
  }

  /** A payload that carries a product dictionary: its `created_at` is a
      `datetime`, which `json.dumps` without a `default` rejects. Order
      payloads carry their dates as ISO strings. */
  predicate HoldsProductRow(p: Payload) {
    p.ProductInfo? || (p.ProductHits? && |p.hits| > 0)
  }

  /** Whether `json.dumps(tool_results)` in `_save_message` returns: no
      result holds a product dictionary. */
  predicate Dumpable(rs: seq<ToolResult>) {
    forall i :: 0 <= i < |rs| ==> !HoldsProductRow(rs[i].result)
  }

  /** The text of the `TypeError` `json.dumps` raises on a `datetime`. */
  const DatetimeNotSerializable: string := "Object of type datetime is not JSON serializable"

  /** The messages of one session, in insertion order. */
  function SessionMessages(log: seq<MessageRow>, sessionId: string): (r: seq<MessageRow>)
    ensures |r| <= |log|
    decreases |log|
  {
    if |log| == 0 then []
    else
      var prev := SessionMessages(log[..|log| - 1], sessionId);
      var last := log[|log| - 1];
      if last.sessionId == sessionId then prev + [last] else prev
  }

  /** The session's messages keep the log's order: `idx` says where each
      sits in the log, and lists exactly the positions of the session's
      rows. */
  lemma {:induction false} SessionMessagesOrder(log: seq<MessageRow>, sessionId: string) returns (idx: seq<int>)
    ensures var r := SessionMessages(log, sessionId);
      && |idx| == |r|
      && (forall k :: 0 <= k < |idx| ==> 0 <= idx[k] < |log| && r[k] == log[idx[k]])
      && (forall k, l :: 0 <= k < l < |idx| ==> idx[k] < idx[l])
      && (forall i :: 0 <= i < |log| ==> (log[i].sessionId == sessionId <==> i in idx))
    decreases |log|
  {
    if |log| == 0 {
      idx := [];
    } else {
      var n := |log| - 1;
      var prefix := log[..n];
      var prev := SessionMessagesOrder(prefix, sessionId);
      var kept := SessionMessages(prefix, sessionId);
      forall i | 0 <= i < n ensures log[i] == prefix[i] { }
      if log[n].sessionId == sessionId {
        idx := prev + [n];
        assert SessionMessages(log, sessionId) == kept + [log[n]];
      } else {
        idx := prev;
        assert SessionMessages(log, sessionId) == kept;
      }
      assert forall k :: 0 <= k < |prev| ==> idx[k] == prev[k];
      assert forall i :: 0 <= i < n ==> (i in idx <==> i in prev);
    }
  }

  /** Exactly the session's messages, and no others. */
  lemma SessionMessagesMembers(log: seq<MessageRow>, sessionId: string)
    ensures forall m :: m in SessionMessages(log, sessionId) <==> m in log && m.sessionId == sessionId
  {
    var idx := SessionMessagesOrder(log, sessionId);
    var r := SessionMessages(log, sessionId);
    forall m ensures m in r <==> m in log && m.sessionId == sessionId {
      if m in r {
        var k :| 0 <= k < |r| && r[k] == m;
      }
      if m in log && m.sessionId == sessionId {
        var i :| 0 <= i < |log| && log[i] == m;
        var k :| 0 <= k < |idx| && idx[k] == i;
      }
    }
  }

  function ToHistory(m: MessageRow): HistoryEntry {
    HistoryEntry(Some(m.role), Some(m.content))
  }

  /** `_get_conversation_history`: the newest `limit` messages of the
      session, oldest first, as role/content pairs. */
  function SessionHistory(log: seq<MessageRow>, sessionId: string, limit: nat): (r: seq<HistoryEntry>)
    ensures |r| == Min(limit, |SessionMessages(log, sessionId)|)
    ensures var ms := SessionMessages(log, sessionId);
      forall i :: 0 <= i < |r| ==> r[i] == ToHistory(ms[|ms| - |r| + i])
  {
    var recent := LastN(SessionMessages(log, sessionId), limit);
    seq(|recent|, i requires 0 <= i < |recent| => ToHistory(recent[i]))
  }

  /** A message saved to a session becomes the newest entry of that
      session's history, and every other session's history is unchanged. */
  lemma HistoryAfterSave(log: seq<MessageRow>, row: MessageRow, other: string, limit: nat)
    requires limit > 0 && other != row.sessionId
    ensures var h := SessionHistory(log + [row], row.sessionId, limit);
      |h| > 0 && h[|h| - 1] == ToHistory(row)
    ensures SessionHistory(log + [row], other, limit) == SessionHistory(log, other, limit)
  {
    var log' := log + [row];
    assert log'[..|log'| - 1] == log;
  }

  /** Rows written to a session nobody had written to come back as its
      messages, in order. */
  lemma {:induction false} SessionMessagesRoundTrip(log: seq<MessageRow>, rows: seq<MessageRow>, sessionId: string)
    requires forall i :: 0 <= i < |log| ==> log[i].sessionId != sessionId
    requires forall i :: 0 <= i < |rows| ==> rows[i].sessionId == sessionId
    ensures SessionMessages(log + rows, sessionId) == rows
    decreases |rows|
  {
    if |rows| == 0 {
      assert log + rows == log;
      NoMessagesOfUnusedSession(log, sessionId);
    } else {
      var n := |rows| - 1;
      SessionMessagesRoundTrip(log, rows[..n], sessionId);
      var all := log + rows;
      assert all[..|all| - 1] == log + rows[..n];
      assert SessionMessages(all, sessionId) == rows[..n] + [rows[n]];
      assert rows[..n] + [rows[n]] == rows;
    }
  }

  /** Round trip: a history read with a limit of at least the number of
      rows written to a fresh session gives all of them back, oldest first. */
  lemma SessionRoundTrip(log: seq<MessageRow>, rows: seq<MessageRow>, sessionId: string, limit: nat)
    requires forall i :: 0 <= i < |log| ==> log[i].sessionId != sessionId
    requires forall i :: 0 <= i < |rows| ==> rows[i].sessionId == sessionId
    ensures |rows| <= limit ==>
      SessionHistory(log + rows, sessionId, limit) == seq(|rows|, i requires 0 <= i < |rows| => ToHistory(rows[i]))
  {
    SessionMessagesRoundTrip(log, rows, sessionId);
  }

  /** A session nobody has written to has an empty history. */
  lemma UnusedSessionHasNoHistory(log: seq<MessageRow>, sessionId: string, limit: nat)
    requires forall i :: 0 <= i < |log| ==> log[i].sessionId != sessionId
    ensures SessionHistory(log, sessionId, limit) == []
  {
    NoMessagesOfUnusedSession(log, sessionId);
  }

  lemma {:induction false} NoMessagesOfUnusedSession(log: seq<MessageRow>, sessionId: string)
    requires forall i :: 0 <= i < |log| ==> log[i].sessionId != sessionId
    ensures SessionMessages(log, sessionId) == []
    decreases |log|
  {
    if |log| > 0 {
      NoMessagesOfUnusedSession(log[..|log| - 1], sessionId);
    }
  }

  /** `if session_id:` and the `is_active == True` lookup. */
  predicate Reusable(sessions: map<string, SessionRow>, sessionId: Option<string>) {
    TruthyText(sessionId) && sessionId.value in sessions && sessions[sessionId.value].isActive
  }

  /** The sessions table and the message log. */
  class ConversationStore {
    var sessions: map<string, SessionRow>
    var messages: seq<MessageRow>

    /** Sessions are keyed by their id and every message belongs to one. */
    predicate Valid()
      reads this
    {
      && (forall k :: k in sessions ==> sessions[k].id == k)
      && (forall i :: 0 <= i < |messages| ==> messages[i].sessionId in sessions)
    }

    constructor ()
      ensures Valid() && sessions == map[] && messages == []
    {
      sessions := map[];
      messages := [];
    }

    /** `_get_or_create_session`: reuse the given session when it exists and
        is active, otherwise insert a new active one under `freshId`. */
    method GetOrCreateSession(sessionId: Option<string>, userId: Option<int>, freshId: string) returns (session: SessionRow)
      requires Valid() && freshId !in sessions
      modifies this
      ensures Valid() && messages == old(messages)
      ensures session.id in sessions && sessions[session.id] == session && session.isActive
      ensures Reusable(old(sessions), sessionId) ==>
        session == old(sessions)[sessionId.value] && sessions == old(sessions)
      ensures !Reusable(old(sessions), sessionId) ==>
        session == SessionRow(freshId, userId, true) && sessions == old(sessions)[freshId := session]
    {
      if TruthyText(sessionId) {
        if sessionId.value in sessions && sessions[sessionId.value].isActive {
          return sessions[sessionId.value];
        }
      }
      session := SessionRow(freshId, userId, true);
      sessions := sessions[freshId := session];
    }

    /** `_save_message`: appends one row to the log, unless encoding the
        tool results raises, which happens before the row is added. */
    method SaveMessage(
      sessionId: string, role: string, content: string, intent: Option<string>,
      entities: Option<ExtractedEntities>, toolCalls: seq<string>, toolResults: seq<ToolResult>
    ) returns (saved: Result<MessageRow, string>)
      requires Valid() && sessionId in sessions
      modifies this
      ensures Valid() && sessions == old(sessions)
      ensures Dumpable(toolResults) ==>
        && saved == Ok(MessageRecord(sessionId, role, content, intent, entities, toolCalls, toolResults))
        && messages == old(messages) + [saved.value]
      ensures !Dumpable(toolResults) ==> saved == Err(DatetimeNotSerializable) && messages == old(messages)
    {
      if !Dumpable(toolResults) {
        return Err(DatetimeNotSerializable);
      }
      var row := MessageRecord(sessionId, role, content, intent, entities, toolCalls, toolResults);
      messages := messages + [row];
      saved := Ok(row);
    }

    function ConversationHistory(sessionId: string): seq<HistoryEntry>
      reads this
    {
      SessionHistory(messages, sessionId, HistoryLimit)
    }
  }

  /** A freshly created session starts with an empty history. */
  lemma NewSessionHasNoHistory(sessions: map<string, SessionRow>, log: seq<MessageRow>, freshId: string)
    requires freshId !in sessions
    requires forall i :: 0 <= i < |log| ==> log[i].sessionId in sessions
    ensures SessionHistory(log, freshId, HistoryLimit) == []
  {
    UnusedSessionHasNoHistory(log, freshId, HistoryLimit);
  }
}
