/** The evaluation store (llm_consortium/evaluation_store.py): the
    `evaluations` table as a sequence of rows with its AUTOINCREMENT counter,
    and the `model_performance` table as a sequence of rows whose primary key
    is (model, consortium_id, iteration_id). SQL `datetime('now')` is the
    parameter `now`; JSON columns hold the value they serialise. */
module Evaluations {
  import opened Common
  import opened Sorting

  /** The arbiter's decision dictionary: the two keys the store reads, each
      possibly absent, and everything else it carries. */
  datatype Decision = Decision(confidence: Option<real>, refinementAreas: Option<seq<string>>, rest: Fields)

  /** A row of `evaluations`. */
  datatype EvaluationRow = EvaluationRow(
    id: nat,
    consortiumId: string,
    requestId: Option<string>,
    iterationId: int,
    timestamp: string,
    promptText: string,
    arbiterModel: string,
    evaluatedModels: seq<string>,
    decision: Decision,
    confidence: real,
    refinementAreas: seq<string>,
    tokenUsage: map<string, int>,
    durationMs: int,
    error: Option<string>)

  /** The longest prompt text an evaluation row keeps. */
  const PromptLimit := 2000

  /** The row `store_evaluation` inserts: the prompt cut to its first 2000
      characters, the decision's confidence or 0.0, its refinement areas or
      the empty list. */
  function NewEvaluation(id: nat, consortiumId: string, iterationId: int, promptText: string, arbiterModel: string,
                         evaluatedModels: seq<string>, decision: Decision, tokenUsage: map<string, int>,
                         durationMs: int, now: string, requestId: Option<string>, error: Option<string>)
    : (r: EvaluationRow)
    ensures r.id == id && r.consortiumId == consortiumId && r.iterationId == iterationId && r.timestamp == now
    ensures r.promptText <= promptText
    ensures |r.promptText| == if |promptText| <= PromptLimit then |promptText| else PromptLimit
    ensures decision.confidence.Some? ==> r.confidence == decision.confidence.value
    ensures decision.confidence.None? ==> r.confidence == 0.0
    ensures decision.refinementAreas.Some? ==> r.refinementAreas == decision.refinementAreas.value
    ensures decision.refinementAreas.None? ==> r.refinementAreas == []
    ensures r.decision == decision && r.evaluatedModels == evaluatedModels && r.tokenUsage == tokenUsage
    ensures r.arbiterModel == arbiterModel && r.durationMs == durationMs
    ensures r.requestId == requestId && r.error == error
  {
    EvaluationRow(id, consortiumId, requestId, iterationId, now, Prefix(promptText, PromptLimit), arbiterModel,
                  evaluatedModels, decision, decision.confidence.GetOr(0.0), decision.refinementAreas.GetOr([]),
                  tokenUsage, durationMs, error)
  }

  /** The primary key of `model_performance`. */
  datatype PerfKey = PerfKey(model: string, consortiumId: string, iterationId: int)

  /** A row of `model_performance`. */
  datatype PerfRow = PerfRow(
    model: string,
    consortiumId: string,
    iterationId: int,
    confidence: real,
    tokenUsage: int,
    durationMs: int,
    timestamp: string)
  {
    function Key(): PerfKey {
      PerfKey(model, consortiumId, iterationId)
    }
  }

  /** What one `store_evaluation` call writes into every performance row it
      touches. */
  datatype PerfUpdate = PerfUpdate(
    consortiumId: string,
    iterationId: int,
    confidence: real,
    tokenUsage: map<string, int>,
    durationMs: int,
    timestamp: string)
  {
    /** The row upserted for model `m`, with `token_usage.get(m, 0)`. */
    function RowFor(m: string): (r: PerfRow)
      ensures r.Key() == PerfKey(m, consortiumId, iterationId)
      ensures m in tokenUsage ==> r.tokenUsage == tokenUsage[m]
      ensures m !in tokenUsage ==> r.tokenUsage == 0
      ensures r.confidence == confidence && r.durationMs == durationMs && r.timestamp == timestamp
    {
      PerfRow(m, consortiumId, iterationId, confidence, if m in tokenUsage then tokenUsage[m] else 0,
              durationMs, timestamp)
    }

    /** The keys that upserting `models` writes. */
    predicate Touches(k: PerfKey, models: seq<string>) {
      k.consortiumId == consortiumId && k.iterationId == iterationId && k.model in models
    }
  }

  /** The table as its primary key sees it: a later row shadows an earlier
      row with the same key. */
  function Table(rows: seq<PerfRow>): (t: map<PerfKey, PerfRow>)
    ensures forall k :: k in t ==> t[k] in rows && t[k].Key() == k
    ensures forall x :: x in rows ==> x.Key() in t
  {
    if rows == [] then map[]
    else
      var last := rows[|rows| - 1];
      assert forall x :: x in rows <==> x in rows[..|rows| - 1] || x == last;
      Table(rows[..|rows| - 1])[last.Key() := last]
  }

  lemma TableAppend(rows: seq<PerfRow>, row: PerfRow)
    ensures Table(rows + [row]) == Table(rows)[row.Key() := row]
  {
    assert (rows + [row])[..|rows|] == rows;
  }

  /** The PRIMARY KEY constraint: at most one row per key. */
  ghost predicate UniqueKeys(rows: seq<PerfRow>) {
    forall i, j :: 0 <= i < j < |rows| ==> rows[i].Key() != rows[j].Key()
  }

  /** The rows whose key is not `k`, in table order. */
  function Without(rows: seq<PerfRow>, k: PerfKey): (r: seq<PerfRow>)
    ensures forall x :: x in r <==> x in rows && x.Key() != k
  {
    if rows == [] then []
    else
      var last := rows[|rows| - 1];
      assert forall x :: x in rows <==> x in rows[..|rows| - 1] || x == last;
      var init := Without(rows[..|rows| - 1], k);
      if last.Key() == k then init else init + [last]
  }

  lemma MapUpdateRemove<K, V>(m: map<K, V>, a: K, v: V, k: K)
    ensures a != k ==> m[a := v] - {k} == (m - {k})[a := v]
    ensures a == k ==> m[a := v] - {k} == m - {k}
  {
  }

  lemma {:induction false} WithoutTable(rows: seq<PerfRow>, k: PerfKey)
    ensures Table(Without(rows, k)) == Table(rows) - {k}
  {
    if rows != [] {
      var last := rows[|rows| - 1];
      var init := rows[..|rows| - 1];
      WithoutTable(init, k);
      assert Table(rows) == Table(init)[last.Key() := last];
      if last.Key() != k {
        assert Without(rows, k) == Without(init, k) + [last];
        TableAppend(Without(init, k), last);
        MapUpdateRemove(Table(init), last.Key(), last, k);
      } else {
        assert Without(rows, k) == Without(init, k);
        MapUpdateRemove(Table(init), k, last, k);
      }
    }
  }

  lemma {:induction false} WithoutUnique(rows: seq<PerfRow>, k: PerfKey)
    requires UniqueKeys(rows)
    ensures UniqueKeys(Without(rows, k))
  {
    if rows != [] {
      var last := rows[|rows| - 1];
      var init := rows[..|rows| - 1];
      assert UniqueKeys(init);
      WithoutUnique(init, k);
      var w := Without(init, k);
      if last.Key() != k {
        forall x | x in w ensures x.Key() != last.Key() {
          var i :| 0 <= i < |init| && init[i] == x;
          assert rows[i] == x;
        }
        var r := w + [last];
        forall i, j | 0 <= i < j < |r| ensures r[i].Key() != r[j].Key() {
          if j == |w| {
            assert r[i] in w;
          } else {
            assert r[i] == w[i] && r[j] == w[j];
          }
        }
      }
    }
  }

  /** `INSERT OR REPLACE`: the row with the same key, if any, is deleted and
      the new row appended. */
  function Upsert(rows: seq<PerfRow>, row: PerfRow): (r: seq<PerfRow>)
    ensures forall x :: x in r <==> x == row || (x in rows && x.Key() != row.Key())
  {
    Without(rows, row.Key()) + [row]
  }

  lemma UpsertTable(rows: seq<PerfRow>, row: PerfRow)
    ensures Table(Upsert(rows, row)) == Table(rows)[row.Key() := row]
    ensures UniqueKeys(rows) ==> UniqueKeys(Upsert(rows, row))
  {
    WithoutTable(rows, row.Key());
    TableAppend(Without(rows, row.Key()), row);
    assert (Table(rows) - {row.Key()})[row.Key() := row] == Table(rows)[row.Key() := row];
    if UniqueKeys(rows) {
      WithoutUnique(rows, row.Key());
      var w := Without(rows, row.Key());
      var r := w + [row];
      forall i, j | 0 <= i < j < |r| ensures r[i].Key() != r[j].Key() {
        if j == |w| {
          assert r[i] in w;
        } else {
          assert r[i] == w[i] && r[j] == w[j];
        }
      }
    }
  }

  /** `_update_model_performance`'s loop, one upsert per evaluated model in
      order. */
  function UpsertAll(rows: seq<PerfRow>, models: seq<string>, u: PerfUpdate): seq<PerfRow> {
    if models == [] then rows
    else Upsert(UpsertAll(rows, models[..|models| - 1], u), u.RowFor(models[|models| - 1]))
  }

  /** The upserts add exactly the keys of the evaluated models and remove
      none. */
  lemma {:induction false} UpsertAllKeys(rows: seq<PerfRow>, models: seq<string>, u: PerfUpdate)
    ensures forall k :: k in Table(UpsertAll(rows, models, u)) <==> k in Table(rows) || u.Touches(k, models)
  {
    if models != [] {
      var init := models[..|models| - 1];
      var m := models[|models| - 1];
      assert forall x :: x in models <==> x in init || x == m;
      UpsertAllKeys(rows, init, u);
      UpsertTable(UpsertAll(rows, init, u), u.RowFor(m));
    }
  }

  /** After the upserts each evaluated model has the row this call wrote, a
      model listed twice included. */
  lemma {:induction false} UpsertAllWritten(rows: seq<PerfRow>, models: seq<string>, u: PerfUpdate)
    ensures forall m :: m in models ==>
              && PerfKey(m, u.consortiumId, u.iterationId) in Table(UpsertAll(rows, models, u))
              && Table(UpsertAll(rows, models, u))[PerfKey(m, u.consortiumId, u.iterationId)] == u.RowFor(m)
  {
    if models != [] {
      var init := models[..|models| - 1];
      var m := models[|models| - 1];
      assert forall x :: x in models <==> x in init || x == m;
      UpsertAllWritten(rows, init, u);
      UpsertTable(UpsertAll(rows, init, u), u.RowFor(m));
    }
  }

  /** Every key the call does not write keeps its row. */
  lemma {:induction false} UpsertAllKeepsKey(rows: seq<PerfRow>, models: seq<string>, u: PerfUpdate, k: PerfKey)
    requires k in Table(rows) && !u.Touches(k, models)
    ensures k in Table(UpsertAll(rows, models, u)) && Table(UpsertAll(rows, models, u))[k] == Table(rows)[k]
  {
    if models != [] {
      var init := models[..|models| - 1];
      var m := models[|models| - 1];
      assert m in models;
      assert k.model in init ==> k.model in models;
      UpsertAllKeepsKey(rows, init, u, k);
      UpsertTable(UpsertAll(rows, init, u), u.RowFor(m));
    }
  }

  lemma UpsertAllKeeps(rows: seq<PerfRow>, models: seq<string>, u: PerfUpdate)
    ensures forall k :: k in Table(rows) && !u.Touches(k, models) ==>
              k in Table(UpsertAll(rows, models, u)) && Table(UpsertAll(rows, models, u))[k] == Table(rows)[k]
  {
    forall k | k in Table(rows) && !u.Touches(k, models)
      ensures k in Table(UpsertAll(rows, models, u)) && Table(UpsertAll(rows, models, u))[k] == Table(rows)[k]
    {
      UpsertAllKeepsKey(rows, models, u, k);
    }
  }

  lemma {:induction false} UpsertAllUnique(rows: seq<PerfRow>, models: seq<string>, u: PerfUpdate)
    requires UniqueKeys(rows)
    ensures UniqueKeys(UpsertAll(rows, models, u))
  {
    if models != [] {
      UpsertAllUnique(rows, models[..|models| - 1], u);
      UpsertTable(UpsertAll(rows, models[..|models| - 1], u), u.RowFor(models[|models| - 1]));
    }
  }

  /** Last write wins: after two stores for the same consortium and
      iteration, a model both evaluated holds the second call's row, and a
      model only the first evaluated keeps the first call's row. */
  lemma LastWriteWins(rows: seq<PerfRow>, first: seq<string>, u1: PerfUpdate, second: seq<string>, u2: PerfUpdate, m: string)
    requires u1.consortiumId == u2.consortiumId && u1.iterationId == u2.iterationId
    requires m in first
    ensures var t := Table(UpsertAll(UpsertAll(rows, first, u1), second, u2));
            && PerfKey(m, u1.consortiumId, u1.iterationId) in t
            && t[PerfKey(m, u1.consortiumId, u1.iterationId)] == if m in second then u2.RowFor(m) else u1.RowFor(m)
  {
    UpsertAllWritten(rows, first, u1);
    UpsertAllWritten(UpsertAll(rows, first, u1), second, u2);
    UpsertAllKeeps(UpsertAll(rows, first, u1), second, u2);
  }

  /** Which statement of a `store_evaluation` call raised: 0 is the insert,
      `k` the upsert for the k-th evaluated model. */
  datatype StoreFailure = StatementFailed(statement: nat)

  /** `_update_model_performance` on the open transaction's copy of the
      table; `failAt` names the statement that raises, if any. */
  method UpdateModelPerformance(rows: seq<PerfRow>, models: seq<string>, u: PerfUpdate, failAt: Option<nat>)
    returns (ok: bool, r: seq<PerfRow>)
    ensures ok <==> !(failAt.Some? && 1 <= failAt.value <= |models|)
    ensures ok ==> r == UpsertAll(rows, models, u)
  {
    r, ok := rows, true;
    var i := 0;
    while i < |models| && ok
      invariant 0 <= i <= |models|
      invariant ok ==> r == UpsertAll(rows, models[..i], u) && !(failAt.Some? && 1 <= failAt.value <= i)
      invariant !ok ==> failAt == Some(i) && 1 <= i
    {
      if failAt == Some(i + 1) {
        ok := false;
      } else {
        assert models[..i + 1][..i] == models[..i];
        r := Upsert(r, u.RowFor(models[i]));
      }
      i := i + 1;
    }
    assert ok ==> models[..i] == models;
  }

  /** One line of the leaderboard. */
  datatype Standing = Standing(
    model: string,
    evaluationCount: nat,
    avgConfidence: real,
    totalTokens: int,
    avgTokensPerCall: real,
    avgDurationMs: real,
    firstSeen: string,
    lastSeen: string)

  /** `ORDER BY avg_confidence DESC, evaluation_count DESC`. */
  predicate RanksBefore(a: Standing, b: Standing) {
    a.avgConfidence > b.avgConfidence || (a.avgConfidence == b.avgConfidence && a.evaluationCount >= b.evaluationCount)
  }

  lemma RanksBeforeIsTotalPreorder()
    ensures IsTotalPreorder(RanksBefore)
  {
  }

  /** `WHERE timestamp >= ?`, applied only when `since` is truthy. */
  function Since(rows: seq<PerfRow>, since: Option<string>): (r: seq<PerfRow>)
    ensures forall x :: x in r <==> x in rows && (!Truthy(since) || StrLe(since.value, x.timestamp))
    ensures forall x :: multiset(r)[x] ==
              if !Truthy(since) || StrLe(since.value, x.timestamp) then multiset(rows)[x] else 0
  {
    if Truthy(since) then Filter(rows, (x: PerfRow) => StrLe(since.value, x.timestamp)) else rows
  }

  function ModelSet(rows: seq<PerfRow>): set<string> {
    set x | x in rows :: x.model
  }

  /** The `GROUP BY model` groups, each model once, in order of first
      appearance. */
  function Models(rows: seq<PerfRow>): (r: seq<string>)
    ensures Distinct(r)
    ensures forall m :: m in r <==> m in ModelSet(rows)
  {
    if rows == [] then []
    else
      var last := rows[|rows| - 1];
      assert forall x :: x in rows <==> x in rows[..|rows| - 1] || x == last;
      var init := Models(rows[..|rows| - 1]);
      if last.model in init then init else init + [last.model]
  }

  /** The rows of one group. */
  function RowsOf(rows: seq<PerfRow>, m: string): (r: seq<PerfRow>)
    ensures forall x :: x in r <==> x in rows && x.model == m
    ensures forall x :: multiset(r)[x] == if x.model == m then multiset(rows)[x] else 0
  {
    Filter(rows, (x: PerfRow) => x.model == m)
  }

  function SumConfidence(rows: seq<PerfRow>): real {
    if rows == [] then 0.0 else rows[0].confidence + SumConfidence(rows[1..])
  }

  function SumTokens(rows: seq<PerfRow>): int {
    if rows == [] then 0 else rows[0].tokenUsage + SumTokens(rows[1..])
  }

  function SumDuration(rows: seq<PerfRow>): int {
    if rows == [] then 0 else rows[0].durationMs + SumDuration(rows[1..])
  }

  /** `MIN(timestamp)`: a timestamp of the group no later than any other. */
  function Earliest(rows: seq<PerfRow>): (r: string)
    requires rows != []
    ensures exists i :: 0 <= i < |rows| && rows[i].timestamp == r
    ensures forall i :: 0 <= i < |rows| ==> StrLe(r, rows[i].timestamp)
  {
    if |rows| == 1 then
      assert StrLe(rows[0].timestamp, rows[0].timestamp) by { StrLeTotal(rows[0].timestamp, rows[0].timestamp); }
      rows[0].timestamp
    else
      var t := Earliest(rows[1..]);
      assert forall i :: 1 <= i < |rows| ==> rows[i] == rows[1..][i - 1];
      if StrLe(rows[0].timestamp, t) then
        assert StrLe(rows[0].timestamp, rows[0].timestamp) by { StrLeTotal(rows[0].timestamp, rows[0].timestamp); }
        assert forall i :: 1 <= i < |rows| ==> StrLe(rows[0].timestamp, rows[i].timestamp) by {
          forall i | 1 <= i < |rows| ensures StrLe(rows[0].timestamp, rows[i].timestamp) {
            StrLeTransitive(rows[0].timestamp, t, rows[i].timestamp);
          }
        }
        rows[0].timestamp
      else
        StrLeTotal(rows[0].timestamp, t);
        t
  }

  /** `MAX(timestamp)`: a timestamp of the group no earlier than any other. */
  function Latest(rows: seq<PerfRow>): (r: string)
    requires rows != []
    ensures exists i :: 0 <= i < |rows| && rows[i].timestamp == r
    ensures forall i :: 0 <= i < |rows| ==> StrLe(rows[i].timestamp, r)
  {
    if |rows| == 1 then
      assert StrLe(rows[0].timestamp, rows[0].timestamp) by { StrLeTotal(rows[0].timestamp, rows[0].timestamp); }
      rows[0].timestamp
    else
      var t := Latest(rows[1..]);
      assert forall i :: 1 <= i < |rows| ==> rows[i] == rows[1..][i - 1];
      if StrLe(t, rows[0].timestamp) then
        assert StrLe(rows[0].timestamp, rows[0].timestamp) by { StrLeTotal(rows[0].timestamp, rows[0].timestamp); }
        assert forall i :: 1 <= i < |rows| ==> StrLe(rows[i].timestamp, rows[0].timestamp) by {
          forall i | 1 <= i < |rows| ensures StrLe(rows[i].timestamp, rows[0].timestamp) {
            StrLeTransitive(rows[i].timestamp, t, rows[0].timestamp);
          }
        }
        rows[0].timestamp
      else
        StrLeTotal(rows[0].timestamp, t);
        t
  }

  /** The aggregates of one group: its row count, `AVG` as the `SUM` over
      that count, and its `MIN` and `MAX` timestamps. */
  function Aggregate(rows: seq<PerfRow>, m: string): (r: Standing)
    requires m in ModelSet(rows)
    ensures r.model == m
    ensures r.evaluationCount == |RowsOf(rows, m)| > 0
    ensures r.avgConfidence == SumConfidence(RowsOf(rows, m)) / r.evaluationCount as real
    ensures r.totalTokens == SumTokens(RowsOf(rows, m))
    ensures r.avgTokensPerCall == r.totalTokens as real / r.evaluationCount as real
    ensures r.avgDurationMs == SumDuration(RowsOf(rows, m)) as real / r.evaluationCount as real
  {
    var group := RowsOf(rows, m);
    var x :| x in rows && x.model == m;
    assert x in group;
    var n := |group| as real;
    var tokens := SumTokens(group);
    Standing(m, |group|, SumConfidence(group) / n, tokens, tokens as real / n, SumDuration(group) as real / n,
             Earliest(group), Latest(group))
  }

  /** A group's first and last timestamps bound every timestamp of the
      group and occur in it. */
  lemma AggregateSeen(rows: seq<PerfRow>, m: string)
    requires m in ModelSet(rows)
    ensures var r := Aggregate(rows, m);
            && (forall x :: x in rows && x.model == m ==> StrLe(r.firstSeen, x.timestamp) && StrLe(x.timestamp, r.lastSeen))
            && (exists x :: x in rows && x.model == m && x.timestamp == r.firstSeen)
            && (exists x :: x in rows && x.model == m && x.timestamp == r.lastSeen)
  {
    var group := RowsOf(rows, m);
    var r := Aggregate(rows, m);
    forall y | y in rows && y.model == m ensures StrLe(r.firstSeen, y.timestamp) && StrLe(y.timestamp, r.lastSeen) {
      assert y in group;
      var i :| 0 <= i < |group| && group[i] == y;
    }
    var i :| 0 <= i < |group| && group[i].timestamp == r.firstSeen;
    assert group[i] in group;
    var j :| 0 <= j < |group| && group[j].timestamp == r.lastSeen;
    assert group[j] in group;
  }

  /** First and last seen are the only timestamps of the model's rows that
      bound all of them from below and from above. */
  lemma AggregateSeenUnique(rows: seq<PerfRow>, m: string, y: PerfRow)
    requires m in ModelSet(rows) && y in rows && y.model == m
    ensures (forall x :: x in rows && x.model == m ==> StrLe(y.timestamp, x.timestamp)) ==>
              y.timestamp == Aggregate(rows, m).firstSeen
    ensures (forall x :: x in rows && x.model == m ==> StrLe(x.timestamp, y.timestamp)) ==>
              y.timestamp == Aggregate(rows, m).lastSeen
  {
    AggregateSeen(rows, m);
    var r := Aggregate(rows, m);
    if forall x :: x in rows && x.model == m ==> StrLe(y.timestamp, x.timestamp) {
      var x :| x in rows && x.model == m && x.timestamp == r.firstSeen;
      StrLeAntisymmetric(y.timestamp, r.firstSeen);
    }
    if forall x :: x in rows && x.model == m ==> StrLe(x.timestamp, y.timestamp) {
      var x :| x in rows && x.model == m && x.timestamp == r.lastSeen;
      StrLeAntisymmetric(y.timestamp, r.lastSeen);
    }
  }

  /** `LIMIT ?`: a negative limit means no limit. */
  function Take(s: seq<Standing>, limit: int): (r: seq<Standing>)
    ensures |r| == if 0 <= limit < |s| then limit else |s|
    ensures r == s[..|r|]
  {
    if 0 <= limit < |s| then s[..limit] else s
  }

  /** One aggregate per `GROUP BY model` group, in order of first
      appearance. */
  function Groups(rows: seq<PerfRow>): (r: seq<Standing>)
    ensures |r| == |Models(rows)|
    ensures forall i :: 0 <= i < |r| ==> r[i] == Aggregate(rows, Models(rows)[i])
  {
    var models := Models(rows);
    seq(|models|, i requires 0 <= i < |models| => Aggregate(rows, models[i]))
  }

  /** There are as many groups as models. */
  lemma GroupsCount(rows: seq<PerfRow>)
    ensures |Groups(rows)| == |ModelSet(rows)|
  {
    var models := Models(rows);
    DistinctCard(models);
    assert (set m | m in models) == ModelSet(rows);
  }

  lemma GroupsDistinct(rows: seq<PerfRow>)
    ensures Distinct(Groups(rows))
  {
    var models := Models(rows);
    var r := Groups(rows);
    forall i, j | 0 <= i < j < |r| ensures r[i] != r[j] {
      assert r[i].model == models[i] && r[j].model == models[j];
    }
  }

  /** Each group aggregates its own model, and every model has its group. */
  lemma GroupsMembers(rows: seq<PerfRow>)
    ensures forall x :: x in Groups(rows) ==> x.model in ModelSet(rows) && x == Aggregate(rows, x.model)
    ensures forall m :: m in ModelSet(rows) ==> Aggregate(rows, m) in Groups(rows)
  {
    var models := Models(rows);
    var r := Groups(rows);
    forall x | x in r ensures x.model in ModelSet(rows) && x == Aggregate(rows, x.model) {
      var i :| 0 <= i < |r| && r[i] == x;
      assert models[i] in models;
    }
    forall m | m in ModelSet(rows) ensures Aggregate(rows, m) in r {
      var i :| 0 <= i < |models| && models[i] == m;
      assert r[i] == Aggregate(rows, m);
    }
  }

  /** No model has two lines. */
  predicate UniqueModels(r: seq<Standing>) {
    forall i, j :: 0 <= i < j < |r| ==> r[i].model != r[j].model
  }

  function ModelsShown(r: seq<Standing>): set<string> {
    set x | x in r :: x.model
  }

  /** The first `get_leaderboard` query over the performance rows. */
  function Leaderboard(rows: seq<PerfRow>, limit: int, since: Option<string>): seq<Standing> {
    Take(Ranked(Since(rows, since)), limit)
  }

  /** The ranked groups, before the limit. */
  function Ranked(selected: seq<PerfRow>): seq<Standing> {
    SortBy(Groups(selected), RanksBefore)
  }

  /** Ranking the groups keeps each group exactly once, in ranking order. */
  lemma RankedGroups(selected: seq<PerfRow>)
    ensures |Ranked(selected)| == |ModelSet(selected)|
    ensures Distinct(Ranked(selected))
    ensures SortedBy(Ranked(selected), RanksBefore)
    ensures forall x :: x in Ranked(selected) ==> x.model in ModelSet(selected) && x == Aggregate(selected, x.model)
    ensures forall m :: m in ModelSet(selected) ==> Aggregate(selected, m) in Ranked(selected)
  {
    var g := Groups(selected);
    var s := SortBy(g, RanksBefore);
    GroupsCount(selected);
    GroupsDistinct(selected);
    GroupsMembers(selected);
    SortByDistinct(g, RanksBefore);
    RanksBeforeIsTotalPreorder();
    SortBySorted(g, RanksBefore);
    forall x ensures x in s <==> x in g {
      SortByMembers(g, RanksBefore, x);
    }
    assert |s| == |g| by {
      assert |multiset(s)| == |multiset(g)|;
    }
  }

  /** Lines that aggregate their own model's group are distinct exactly when
      their models are. */
  lemma AggregatesUniqueModels(selected: seq<PerfRow>, r: seq<Standing>)
    requires Distinct(r)
    requires forall x :: x in r ==> x.model in ModelSet(selected) && x == Aggregate(selected, x.model)
    ensures UniqueModels(r)
  {
    forall i, j | 0 <= i < j < |r| ensures r[i].model != r[j].model {
      assert r[i] in r && r[j] in r;
    }
  }

  /** A prefix of distinct ranked aggregates is distinct, ranked and made
      of aggregates. */
  lemma RankedPrefix(selected: seq<PerfRow>, s: seq<Standing>, n: nat)
    requires n <= |s| && Distinct(s) && SortedBy(s, RanksBefore)
    requires forall x :: x in s ==> x.model in ModelSet(selected) && x == Aggregate(selected, x.model)
    ensures forall x :: x in s[..n] ==> x.model in ModelSet(selected) && x == Aggregate(selected, x.model)
    ensures UniqueModels(s[..n])
    ensures SortedBy(s[..n], RanksBefore)
  {
    SortedPrefix(s, n, RanksBefore);
    assert forall x :: x in s[..n] ==> x in s;
    assert Distinct(s[..n]);
    AggregatesUniqueModels(selected, s[..n]);
  }

  /** Every line aggregates one group of the rows at or after `since`, no
      model has two lines, and the lines are in ranking order. */
  lemma LeaderboardLines(rows: seq<PerfRow>, limit: int, since: Option<string>)
    ensures forall x :: x in Leaderboard(rows, limit, since) ==>
              x.model in ModelSet(Since(rows, since)) && x == Aggregate(Since(rows, since), x.model)
    ensures UniqueModels(Leaderboard(rows, limit, since))
    ensures SortedBy(Leaderboard(rows, limit, since), RanksBefore)
  {
    var selected := Since(rows, since);
    var s := Ranked(selected);
    RankedGroups(selected);
    var r := Take(s, limit);
    RankedPrefix(selected, s, |r|);
  }

  /** Taking `limit` of the ranked groups keeps `limit` of them, or all of
      them, and only their models. */
  lemma TakeRanked(selected: seq<PerfRow>, s: seq<Standing>, limit: int)
    requires |s| == |ModelSet(selected)|
    requires forall x :: x in s ==> x.model in ModelSet(selected)
    requires forall m :: m in ModelSet(selected) ==> Aggregate(selected, m) in s
    ensures |Take(s, limit)| == if 0 <= limit < |ModelSet(selected)| then limit else |ModelSet(selected)|
    ensures ModelsShown(Take(s, limit)) <= ModelSet(selected)
    ensures !(0 <= limit < |ModelSet(selected)|) ==> ModelsShown(Take(s, limit)) == ModelSet(selected)
  {
    var r := Take(s, limit);
    assert forall x :: x in r ==> x in s;
    if !(0 <= limit < |ModelSet(selected)|) {
      forall m | m in ModelSet(selected) ensures m in ModelsShown(r) {
        assert Aggregate(selected, m) in r;
      }
    }
  }

  /** There are `limit` lines, or one per group when the limit is negative
      or not reached; in the latter case every group has its line. */
  lemma LeaderboardSize(rows: seq<PerfRow>, limit: int, since: Option<string>)
    ensures var n := |ModelSet(Since(rows, since))|;
            |Leaderboard(rows, limit, since)| == if 0 <= limit < n then limit else n
    ensures ModelsShown(Leaderboard(rows, limit, since)) <= ModelSet(Since(rows, since))
    ensures !(0 <= limit < |ModelSet(Since(rows, since))|) ==>
              ModelsShown(Leaderboard(rows, limit, since)) == ModelSet(Since(rows, since))
  {
    var selected := Since(rows, since);
    RankedGroups(selected);
    TakeRanked(selected, Ranked(selected), limit);
  }

  /** A group the limit leaves out ranks no higher than any line shown. */
  lemma LeaderboardCutoff(rows: seq<PerfRow>, limit: int, since: Option<string>, m: string, x: Standing)
    requires m in ModelSet(Since(rows, since)) && m !in ModelsShown(Leaderboard(rows, limit, since))
    requires x in Leaderboard(rows, limit, since)
    ensures RanksBefore(x, Aggregate(Since(rows, since), m))
  {
    var selected := Since(rows, since);
    var s := Ranked(selected);
    RankedGroups(selected);
    var r := Take(s, limit);
    SortedPrefix(s, |r|, RanksBefore);
    assert Aggregate(selected, m) !in r;
  }

  /** `EvaluationStore` over its two tables. */
  class EvaluationStore {
    var evaluations: seq<EvaluationRow>
    var performance: seq<PerfRow>
    var lastId: nat

    /** Evaluation ids increase with insertion and never exceed the
        AUTOINCREMENT counter; performance rows have unique keys. */
    ghost predicate Valid()
      reads this
    {
      && (forall i, j :: 0 <= i < j < |evaluations| ==> evaluations[i].id < evaluations[j].id)
      && (forall i :: 0 <= i < |evaluations| ==> evaluations[i].id <= lastId)
      && UniqueKeys(performance)
    }

    constructor ()
      ensures Valid()
      ensures evaluations == [] && performance == [] && lastId == 0
    {
      evaluations, performance, lastId := [], [], 0;
    }

    /** `store_evaluation` in file mode: the insert and the upserts run in
        one transaction that is committed only when none of them raises;
        otherwise nothing changes. */
    method StoreEvaluation(consortiumId: string, iterationId: int, promptText: string, arbiterModel: string,
                           evaluatedModels: seq<string>, decision: Decision, tokenUsage: map<string, int>,
                           durationMs: int, now: string, failAt: Option<nat>,
                           requestId: Option<string> := None, error: Option<string> := None)
      returns (r: Result<nat, StoreFailure>)
      requires Valid()
      modifies this
      ensures Valid()
      ensures r.Ok? <==> !(failAt.Some? && failAt.value <= |evaluatedModels|)
      ensures r.Err? ==>
                && r.error == StatementFailed(failAt.value)
                && evaluations == old(evaluations) && performance == old(performance) && lastId == old(lastId)
      ensures r.Ok? ==>
                && r.value == old(lastId) + 1 && lastId == r.value
                && (forall x :: x in old(evaluations) ==> x.id < r.value)
                && evaluations == old(evaluations) +
                     [NewEvaluation(r.value, consortiumId, iterationId, promptText, arbiterModel, evaluatedModels,
                                    decision, tokenUsage, durationMs, now, requestId, error)]
                && performance == UpsertAll(old(performance), evaluatedModels,
                                            PerfUpdate(consortiumId, iterationId, decision.confidence.GetOr(0.0),
                                                       tokenUsage, durationMs, now))
    {
      if failAt == Some(0) {
        r := Err(StatementFailed(0));
      } else {
        var id := lastId + 1;
        var row := NewEvaluation(id, consortiumId, iterationId, promptText, arbiterModel, evaluatedModels,
                                 decision, tokenUsage, durationMs, now, requestId, error);
        var u := PerfUpdate(consortiumId, iterationId, decision.confidence.GetOr(0.0), tokenUsage, durationMs, now);
        var ok, perf := UpdateModelPerformance(performance, evaluatedModels, u, failAt);
        if ok {
          UpsertAllUnique(performance, evaluatedModels, u);
          evaluations, performance, lastId := evaluations + [row], perf, id;
          r := Ok(id);
        } else {
          r := Err(StatementFailed(failAt.value));
        }
      }
    }

    /** The first `get_leaderboard`: one line per model among the rows at or
        after `since`, each line that model's aggregates, best average
        confidence first, at most `limit` lines unless the limit is negative.
        `modelFilter` is accepted and not used. */
    function GetLeaderboard(limit: int := 10, since: Option<string> := None, modelFilter: Option<string> := None)
      : (r: seq<Standing>)
      reads this
      ensures r == Leaderboard(performance, limit, since)
      ensures forall x :: x in r ==>
                x.model in ModelSet(Since(performance, since)) && x == Aggregate(Since(performance, since), x.model)
      ensures UniqueModels(r) && SortedBy(r, RanksBefore)
      ensures var n := |ModelSet(Since(performance, since))|;
              |r| == if 0 <= limit < n then limit else n
    {
      LeaderboardLines(performance, limit, since);
      LeaderboardSize(performance, limit, since);
      Leaderboard(performance, limit, since)
    }
  }
}
