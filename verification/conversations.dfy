/** The session store (llm_consortium/conversation_manager.py): the tables
    `consortium_sessions` and `model_responses` as two sequences of rows in
    insertion order, each with its AUTOINCREMENT counter. Clock readings and
    fresh UUIDs are parameters; `json.dumps` of the model list and of the
    metadata is kept as the value it serialises. */
module Conversations {
  import opened Common
  import opened Sorting

  /** `ConsortiumResponse`, a dataclass whose `__post_init__` fills in an
      empty timestamp and an empty conversation id. */
  class ConsortiumResponse {
    var modelId: string
    var content: string
    var confidence: Option<real>
    var reasoning: Option<string>
    var timestamp: string
    var conversationId: string

    constructor (modelId: string, content: string, now: string, freshUuid: string,
                 confidence: Option<real> := None, reasoning: Option<string> := None,
                 timestamp: string := "", conversationId: string := "")
      ensures this.modelId == modelId && this.content == content
      ensures this.confidence == confidence && this.reasoning == reasoning
      ensures this.timestamp == if timestamp == "" then now else timestamp
      ensures this.conversationId == if conversationId == "" then freshUuid else conversationId
    {
      this.modelId := modelId;
      this.content := content;
      this.confidence := confidence;
      this.reasoning := reasoning;
      this.timestamp := timestamp;
      this.conversationId := conversationId;
      new;
      PostInit(now, freshUuid);
    }

    /** `__post_init__`: `now` stands for `datetime.now().isoformat()` and
        `freshUuid` for `str(uuid.uuid4())`, neither of which is empty. */
    method PostInit(now: string, freshUuid: string)
      modifies this
      ensures old(timestamp) != "" ==> timestamp == old(timestamp)
      ensures old(timestamp) == "" ==> timestamp == now
      ensures old(conversationId) != "" ==> conversationId == old(conversationId)
      ensures old(conversationId) == "" ==> conversationId == freshUuid
      ensures modelId == old(modelId) && content == old(content)
      ensures confidence == old(confidence) && reasoning == old(reasoning)
    {
      if timestamp == "" {
        timestamp := now;
      }
      if conversationId == "" {
        conversationId := freshUuid;
      }
    }
  }

  /** A row of `consortium_sessions`; `metadata` is what `metadata_json` holds. */
  datatype SessionRow = SessionRow(
    id: nat,
    sessionId: string,
    prompt: string,
    strategy: string,
    models: seq<string>,
    createdAt: string,
    completedAt: Option<string>,
    finalResult: Option<string>,
    metadata: Fields)

  /** A row of `model_responses`. */
  datatype ResponseRow = ResponseRow(
    id: nat,
    sessionId: string,
    modelId: string,
    conversationId: string,
    content: string,
    confidence: Option<real>,
    reasoning: Option<string>,
    iteration: int,
    timestamp: string)

  /** The row `create_session` inserts: `metadata_json` is `json.dumps({})`,
      and the session is not completed. */
  function NewSession(id: nat, sessionId: string, prompt: string, strategy: string, models: seq<string>, now: string)
    : (r: SessionRow)
    ensures r.id == id && r.sessionId == sessionId && r.createdAt == now
    ensures r.prompt == prompt && r.strategy == strategy && r.models == models
    ensures r.completedAt == None && r.finalResult == None && r.metadata == map[]
  {
    SessionRow(id, sessionId, prompt, strategy, models, now, None, None, map[])
  }

  /** What SQLite reports when a fresh session id is already taken. */
  const SessionIdTaken := "IntegrityError: UNIQUE constraint failed: consortium_sessions.session_id"

  ghost predicate UniqueSessionIds(rows: seq<SessionRow>) {
    forall i, j :: 0 <= i < j < |rows| ==> rows[i].sessionId != rows[j].sessionId
  }

  /** The first row with the given session id, if any. */
  function FindSession(rows: seq<SessionRow>, sessionId: string): (r: Option<SessionRow>)
    ensures r.Some? ==> r.value in rows && r.value.sessionId == sessionId
    ensures r.None? <==> forall x :: x in rows ==> x.sessionId != sessionId
  {
    if rows == [] then None
    else if rows[0].sessionId == sessionId then Some(rows[0])
    else
      assert forall x :: x in rows <==> x == rows[0] || x in rows[1..];
      FindSession(rows[1..], sessionId)
  }

  /** With unique session ids, the lookup finds the row at whatever index it is. */
  lemma {:induction false} FindSessionAt(rows: seq<SessionRow>, i: nat)
    requires UniqueSessionIds(rows) && i < |rows|
    ensures FindSession(rows, rows[i].sessionId) == Some(rows[i])
  {
    if i > 0 {
      assert rows[0].sessionId != rows[i].sessionId;
      FindSessionAt(rows[1..], i - 1);
    }
  }

  /** Session ids are unique (the column is UNIQUE) and row ids increase
      with insertion and never exceed the AUTOINCREMENT counter `last`. */
  ghost predicate SessionTable(rows: seq<SessionRow>, last: nat) {
    && UniqueSessionIds(rows)
    && (forall i, j :: 0 <= i < j < |rows| ==> rows[i].id < rows[j].id)
    && (forall i :: 0 <= i < |rows| ==> rows[i].id <= last)
  }

  /** Response row ids increase with insertion and never exceed the
      AUTOINCREMENT counter `last`. */
  ghost predicate ResponseTable(rows: seq<ResponseRow>, last: nat) {
    && (forall i, j :: 0 <= i < j < |rows| ==> rows[i].id < rows[j].id)
    && (forall i :: 0 <= i < |rows| ==> rows[i].id <= last)
  }

  /** A row with a new session id and the next row id keeps the table
      valid and is what the lookup then finds. */
  lemma AppendSession(rows: seq<SessionRow>, last: nat, row: SessionRow)
    requires SessionTable(rows, last) && row.id == last + 1
    requires forall x :: x in rows ==> x.sessionId != row.sessionId
    ensures SessionTable(rows + [row], last + 1)
    ensures FindSession(rows + [row], row.sessionId) == Some(row)
  {
    var r := rows + [row];
    forall i, j | 0 <= i < j < |r| ensures r[i].sessionId != r[j].sessionId && r[i].id < r[j].id {
      if j == |rows| {
        assert r[i] in rows;
      } else {
        assert r[i] == rows[i] && r[j] == rows[j];
      }
    }
    FindSessionAt(r, |rows|);
  }

  lemma AppendResponse(rows: seq<ResponseRow>, last: nat, row: ResponseRow)
    requires ResponseTable(rows, last) && row.id == last + 1
    ensures ResponseTable(rows + [row], last + 1)
    ensures forall x :: x in rows ==> x.id < row.id
  {
    var r := rows + [row];
    forall i, j | 0 <= i < j < |r| ensures r[i].id < r[j].id {
      if j == |rows| {
        assert r[i] in rows;
      } else {
        assert r[i] == rows[i] && r[j] == rows[j];
      }
    }
  }

  /** `complete_session`'s effect on one row: the completion time and result
      are set; the metadata is replaced only when the new one is truthy (not
      None and not empty); nothing else changes. */
  function Completed(row: SessionRow, finalResult: string, metadata: Option<Fields>, now: string): (r: SessionRow)
    ensures r.id == row.id && r.sessionId == row.sessionId
    ensures r.completedAt == Some(now) && r.finalResult == Some(finalResult)
    ensures metadata.Some? && metadata.value != map[] ==> r.metadata == metadata.value
    ensures metadata.None? || metadata.value == map[] ==> r.metadata == row.metadata
    ensures r.(completedAt := row.completedAt, finalResult := row.finalResult, metadata := row.metadata) == row
  {
    row.(completedAt := Some(now), finalResult := Some(finalResult),
         metadata := if metadata.Some? && metadata.value != map[] then metadata.value else row.metadata)
  }

  /** Completing a session twice is allowed: the second call's time and
      result win, and its metadata too unless it is empty, in which case the
      first call's (or, failing that, the original) metadata stays. */
  lemma CompleteTwice(row: SessionRow, r1: string, m1: Option<Fields>, t1: string, r2: string, m2: Option<Fields>, t2: string)
    ensures var twice := Completed(Completed(row, r1, m1, t1), r2, m2, t2);
            && twice.completedAt == Some(t2) && twice.finalResult == Some(r2)
            && (m2.Some? && m2.value != map[] ==> twice == Completed(row, r2, m2, t2))
            && (m2.None? || m2.value == map[] ==> twice == Completed(row, r2, m1, t2))
  {
  }

  /** `UPDATE consortium_sessions ... WHERE session_id = ?` over all rows. */
  function CompleteRows(rows: seq<SessionRow>, sessionId: string, finalResult: string, metadata: Option<Fields>, now: string)
    : (r: seq<SessionRow>)
    ensures |r| == |rows|
    ensures forall i :: 0 <= i < |rows| ==>
              r[i] == if rows[i].sessionId == sessionId then Completed(rows[i], finalResult, metadata, now) else rows[i]
  {
    seq(|rows|, i requires 0 <= i < |rows| =>
      if rows[i].sessionId == sessionId then Completed(rows[i], finalResult, metadata, now) else rows[i])
  }

  /** Completing keeps every row's id and session id where they were, so
      uniqueness and the id order survive it. */
  lemma CompleteRowsKeys(rows: seq<SessionRow>, sessionId: string, finalResult: string, metadata: Option<Fields>, now: string)
    ensures var r := CompleteRows(rows, sessionId, finalResult, metadata, now);
            forall i :: 0 <= i < |rows| ==> r[i].id == rows[i].id && r[i].sessionId == rows[i].sessionId
  {
  }

  lemma CompleteRowsValid(rows: seq<SessionRow>, last: nat, sessionId: string, finalResult: string,
                          metadata: Option<Fields>, now: string)
    requires SessionTable(rows, last)
    ensures SessionTable(CompleteRows(rows, sessionId, finalResult, metadata, now), last)
  {
    CompleteRowsKeys(rows, sessionId, finalResult, metadata, now);
  }

  /** After completing, looking the session up gives the completed row. */
  lemma CompleteRowsLookup(rows: seq<SessionRow>, sessionId: string, finalResult: string, metadata: Option<Fields>, now: string)
    requires UniqueSessionIds(rows)
    ensures FindSession(CompleteRows(rows, sessionId, finalResult, metadata, now), sessionId) ==
              match FindSession(rows, sessionId)
              case Some(row) => Some(Completed(row, finalResult, metadata, now))
              case None => None
  {
    var r := CompleteRows(rows, sessionId, finalResult, metadata, now);
    CompleteRowsKeys(rows, sessionId, finalResult, metadata, now);
    if i :| 0 <= i < |rows| && rows[i].sessionId == sessionId {
      FindSessionAt(rows, i);
      assert UniqueSessionIds(r);
      FindSessionAt(r, i);
    } else {
      assert forall x :: x in r ==> x.sessionId != sessionId;
    }
  }

  /** The row a response query selects: the session, and the iteration when
      one is given (`iteration is not None`, so 0 selects iteration 0). */
  predicate Selected(x: ResponseRow, sessionId: string, iteration: Option<int>) {
    x.sessionId == sessionId && (iteration.None? || x.iteration == iteration.value)
  }

  /** `ORDER BY timestamp`: ISO timestamps compared as text. */
  predicate ByTimestamp(a: ResponseRow, b: ResponseRow) {
    StrLe(a.timestamp, b.timestamp)
  }

  lemma ByTimestampIsTotalPreorder()
    ensures IsTotalPreorder(ByTimestamp)
  {
    forall a: ResponseRow, b: ResponseRow ensures ByTimestamp(a, b) || ByTimestamp(b, a) {
      StrLeTotal(a.timestamp, b.timestamp);
    }
    forall a: ResponseRow, b: ResponseRow, c: ResponseRow | ByTimestamp(a, b) && ByTimestamp(b, c)
      ensures ByTimestamp(a, c)
    {
      StrLeTransitive(a.timestamp, b.timestamp, c.timestamp);
    }
  }

  /** `ConversationManager` over its two tables. */
  class ConversationManager {
    var sessions: seq<SessionRow>
    var responses: seq<ResponseRow>
    var lastSessionRowId: nat
    var lastResponseId: nat

    ghost predicate Valid()
      reads this
    {
      SessionTable(sessions, lastSessionRowId) && ResponseTable(responses, lastResponseId)
    }

    constructor ()
      ensures Valid()
      ensures sessions == [] && responses == [] && lastSessionRowId == 0 && lastResponseId == 0
    {
      sessions, responses := [], [];
      lastSessionRowId, lastResponseId := 0, 0;
    }

    /** `create_session`: `freshUuid` stands for `str(uuid.uuid4())` and `now`
        for the creation time. A new row is added, not completed and with
        empty metadata; the insert fails, changing nothing, if the id is taken. */
    method CreateSession(prompt: string, strategy: string, models: seq<string>, freshUuid: string, now: string)
      returns (r: Result<string, string>)
      requires Valid()
      modifies this
      ensures Valid()
      ensures r.Ok? <==> old(GetSessionInfo(freshUuid)).None?
      ensures r.Err? ==> r.error == SessionIdTaken && sessions == old(sessions) && lastSessionRowId == old(lastSessionRowId)
      ensures r.Ok? ==>
                && r.value == freshUuid
                && lastSessionRowId == old(lastSessionRowId) + 1
                && sessions == old(sessions) + [NewSession(lastSessionRowId, freshUuid, prompt, strategy, models, now)]
                && GetSessionInfo(freshUuid) == Some(NewSession(lastSessionRowId, freshUuid, prompt, strategy, models, now))
      ensures responses == old(responses) && lastResponseId == old(lastResponseId)
    {
      if FindSession(sessions, freshUuid).Some? {
        r := Err(SessionIdTaken);
      } else {
        var row := NewSession(lastSessionRowId + 1, freshUuid, prompt, strategy, models, now);
        AppendSession(sessions, lastSessionRowId, row);
        sessions, lastSessionRowId := sessions + [row], lastSessionRowId + 1;
        r := Ok(freshUuid);
      }
    }

    /** `store_response`: appends one row and returns its new id, larger than
        every id before it. Neither the session's existence nor its
        completion is checked. */
    method StoreResponse(sessionId: string, modelId: string, conversationId: string, content: string, now: string,
                         confidence: Option<real> := None, reasoning: Option<string> := None, iteration: int := 0)
      returns (id: nat)
      requires Valid()
      modifies this
      ensures Valid()
      ensures id == old(lastResponseId) + 1 && lastResponseId == id
      ensures forall x :: x in old(responses) ==> x.id < id
      ensures responses == old(responses) +
                [ResponseRow(id, sessionId, modelId, conversationId, content, confidence, reasoning, iteration, now)]
      ensures sessions == old(sessions) && lastSessionRowId == old(lastSessionRowId)
    {
      id := lastResponseId + 1;
      var row := ResponseRow(id, sessionId, modelId, conversationId, content, confidence, reasoning, iteration, now);
      AppendResponse(responses, lastResponseId, row);
      responses := responses + [row];
      lastResponseId := id;
    }

    /** `get_session_responses`: exactly the stored rows of the session (of
        the iteration, when one is given), each as often as it is stored, in
        non-decreasing timestamp order. */
    function GetSessionResponses(sessionId: string, iteration: Option<int> := None): (r: seq<ResponseRow>)
      reads this
      ensures forall x :: multiset(r)[x] == if Selected(x, sessionId, iteration) then multiset(responses)[x] else 0
      ensures forall x :: x in r <==> x in responses && Selected(x, sessionId, iteration)
      ensures SortedBy(r, ByTimestamp)
    {
      var selected := Filter(responses, x => Selected(x, sessionId, iteration));
      ByTimestampIsTotalPreorder();
      SortBySorted(selected, ByTimestamp);
      var sorted := SortBy(selected, ByTimestamp);
      assert forall x :: x in sorted <==> x in multiset(sorted);
      assert forall x :: x in selected <==> x in multiset(selected);
      sorted
    }

    /** `complete_session`: updates the row with this session id, and no
        other row. */
    method CompleteSession(sessionId: string, finalResult: string, metadata: Option<Fields>, now: string)
      requires Valid()
      modifies this
      ensures Valid()
      ensures |sessions| == |old(sessions)|
      ensures forall i :: 0 <= i < |sessions| ==>
                sessions[i] == if old(sessions[i]).sessionId == sessionId
                               then Completed(old(sessions[i]), finalResult, metadata, now)
                               else old(sessions[i])
      ensures GetSessionInfo(sessionId) ==
                match old(GetSessionInfo(sessionId))
                case Some(row) => Some(Completed(row, finalResult, metadata, now))
                case None => None
      ensures responses == old(responses)
      ensures lastSessionRowId == old(lastSessionRowId) && lastResponseId == old(lastResponseId)
    {
      CompleteRowsValid(sessions, lastSessionRowId, sessionId, finalResult, metadata, now);
      CompleteRowsLookup(sessions, sessionId, finalResult, metadata, now);
      sessions := CompleteRows(sessions, sessionId, finalResult, metadata, now);
    }

    /** `get_session_info`: the row with this session id, or None. */
    function GetSessionInfo(sessionId: string): (r: Option<SessionRow>)
      reads this
      ensures r.Some? ==> r.value in sessions && r.value.sessionId == sessionId
      ensures r.None? <==> forall x :: x in sessions ==> x.sessionId != sessionId
    {
      FindSession(sessions, sessionId)
    }
  }
}
