# llm-consortium bookkeeping, modelled in Dafny

This project models the stateful bookkeeping of llm-consortium. The model
calls, the arbiter prompts and the command line are not part of it. It
covers four parts.

- **Correlation scopes** (`tracing.dfy`, module `Tracing`).
  - The four context variables `consortium_id_var`, `request_id_var`,
    `iteration_id_var` and `model_id_var` are `ContextVar` objects with
    `Set`/`Reset` and a token.
  - The four guards `consortium_context`, `iteration_context`,
    `request_context` and `model_context` are methods of a `Registry`. Each
    runs the caller's work between a set and a reset.
  - The caller's work is a `Work` term: pass (do nothing), raise, observe
    the context, set one of the module-level variables directly, sequence,
    try/except, try/finally, or a nested guard. `Exec` gives Python's
    meaning of such a term. The methods are proved against `Exec`, and the
    restoration properties are proved about `Exec` for every term.
  - `TracingContext` is a class whose invariant is "total tokens equals the
    sum of the per-model token counts".
- **Structured log records** (`logger.dfy`, module `Logger`). This is the
  field map and the level that `StructuredLogger` hands to the logging
  sink:
  - the context fields;
  - the fixed fields of each convenience call;
  - the caller's `**kwargs` over both;
  - previews cut to 100 or 200 characters;
  - the `TypeError` that Python raises when the unpacked keywords contain
    `message`.
- **The session store** (`conversations.dfy`, module `Conversations`).
  - `ConversationManager` holds the tables `consortium_sessions` and
    `model_responses` as two sequences of rows, each with its AUTOINCREMENT
    counter.
  - `ConsortiumResponse` is a class whose `__post_init__` fills empty
    fields.
- **The evaluation store** (`evaluations.dfy`, module `Evaluations`).
  - `EvaluationStore` holds the `evaluations` rows and the
    `model_performance` rows.
  - `INSERT OR REPLACE` on the primary key (model, consortium_id,
    iteration_id) deletes the old row and appends the new one. `Table`
    gives the keyed view of those rows.
  - The leaderboard query is modelled as filter, `GROUP BY model`, sort and
    `LIMIT`.
  - The transaction of `store_evaluation` commits only when every
    statement succeeds. A `failAt` parameter names the statement that
    raises, if any.

Two modules are shared by the others:
- `common.dfy` (`Common`): optional values, results, dictionary values,
  Python slicing and text order.
- `sorting.dfy` (`Sorting`): a generic filter and an insertion sort, with
  their permutation and order lemmas.

Clock readings, fresh UUIDs and SQL `datetime('now')` are parameters of the
operations that use them.

## Model

| member | source | states |
|---|---|---|
| Tracing.ContextVar.constructor | llm_consortium/tracing.py:14-25 | a new context variable holds its default, None |
| Tracing.ContextVar.Set | llm_consortium/tracing.py:14-25 | setting a context variable stores the value and returns a token that remembers the previous value |
| Tracing.ContextVar.Reset | llm_consortium/tracing.py:14-25 | resetting with a token brings back the value the variable had when the token was taken |
| Tracing.NewConsortiumId | llm_consortium/tracing.py:32 | a truthy supplied id is used as is; otherwise the id is "cons-" followed by 16 lower-case hex digits taken from the start of the fresh UUID (21 characters in all) |
| Tracing.NewRequestId | llm_consortium/tracing.py:112 | a truthy supplied id is used as is; otherwise the id is "req-" followed by the first 12 hex digits of the fresh UUID (16 characters in all) |
| Tracing.Enter | llm_consortium/tracing.py:86-125 | entering a guard changes only its own identifier; the other three keep their values |
| Tracing.Leave | llm_consortium/tracing.py:91-129 | leaving a guard puts its own identifier back to the pre-entry value and keeps the other identifiers as the body left them |
| Tracing.Apply | llm_consortium/tracing.py:14-25 | a direct set of one variable leaves the other three as they were |
| Tracing.Exec | llm_consortium/tracing.py:81-129 | the meaning every guard contract is stated against: a body returns or raises, the reads it makes and the context it leaves; a sequence stops at the first exception, `except` runs only on one, `finally` always runs and lets the first exception through, and a guard sets its identifier on entry and resets it on every exit (its properties are the lemmas below) |
| Tracing.ExecRestores | llm_consortium/tracing.py:81-129 | whatever the work does, and whether it ends normally or raises, every identifier it does not set directly (outside a nested guard of the same kind) is back at its pre-entry value afterwards |
| Tracing.NoWritesRestores | llm_consortium/tracing.py:81-129 | work that sets no variable directly leaves the whole context as it found it |
| Tracing.GuardResets | llm_consortium/tracing.py:91-129 | `reset(token)` puts the guard's own identifier back even after the body set it directly, while direct sets of other identifiers outlive the guard |
| Tracing.UnshadowedSeen | llm_consortium/tracing.py:81-129 | the reads outside nested guards of one kind are reads the work really makes |
| Tracing.UnshadowedAll | llm_consortium/tracing.py:81-129 | without a nested guard of a kind, every read is outside one |
| Tracing.UnshadowedConstant | llm_consortium/tracing.py:81-129 | every read outside nested guards of a kind sees the outer value of that identifier, unless the work sets it directly |
| Tracing.UnboundKindConstant | llm_consortium/tracing.py:14-25 | an identifier that no guard inside the work sets, and that the work does not set directly, has its outer value in every context the work reads |
| Tracing.GuardScope | llm_consortium/tracing.py:86-129 | inside a guard, every read not enclosed by a nested guard of the same kind sees the guard's value for its identifier, and every read not enclosed by a nested guard of another kind sees that identifier's outer value; both hold when the body does not set that identifier directly, and both are about reads the guard's work really makes |
| Tracing.AfterGuard | llm_consortium/tracing.py:89-129 | a read in a `finally` after the guard sees the guard's identifier at its pre-entry value, even if the body set it directly, and exactly the pre-entry context when the body sets no variable directly; the exception of the guarded work is the one that propagates |
| Tracing.NestedGuardsUnwind | llm_consortium/tracing.py:81-129 | nested guards unwind last-in first-out whether the body returns or raises: a read in a `finally` after the inner guard exits sees the inner identifier as the outer guard's context had it, when the outer one exits its identifier is back, and the body's exception propagates; when the body sets no variable directly, the whole outer context and then the whole original one are back |
| Tracing.Registry.constructor | llm_consortium/tracing.py:14-25 | the four variables are distinct objects and all start unset (None) |
| Tracing.Registry.Run | llm_consortium/tracing.py:81-129 | running work on the live variables gives the outcome, the reads and the final values of the four variables that `Exec` defines |
| Tracing.Registry.ConsortiumContext | llm_consortium/tracing.py:81-92 | yields a new TracingContext with the generated id, runs the body with only `consortium_id` set to that id, and on either exit resets `consortium_id` to its pre-entry value while the other variables keep what the body left |
| Tracing.Registry.IterationContext | llm_consortium/tracing.py:95-104 | runs the body with only `iteration_id` set to the given iteration and on either exit resets `iteration_id` to its pre-entry value while the other variables keep what the body left |
| Tracing.Registry.RequestContext | llm_consortium/tracing.py:107-117 | yields the supplied or generated request id, runs the body with only `request_id` set to it, and on either exit resets `request_id` to its pre-entry value while the other variables keep what the body left |
| Tracing.Registry.ModelContext | llm_consortium/tracing.py:120-129 | runs the body with only `model_id` set to the given model and on either exit resets `model_id` to its pre-entry value while the other variables keep what the body left |
| Tracing.SumRemove | llm_consortium/tracing.py:54-57 | the sum of the token map is one entry plus the sum of the rest, whichever entry is taken out |
| Tracing.SumAdd | llm_consortium/tracing.py:54-57 | adding t to one model's count, from 0 when the model is absent, adds exactly t to the sum of all counts |
| Tracing.TracingContext.constructor | llm_consortium/tracing.py:31-42 | a new context has the supplied or generated id, all counters at zero, no token usage and no errors, so the token-sum invariant holds |
| Tracing.TracingContext.GetContext | llm_consortium/tracing.py:44-52 | the dictionary has exactly five keys; `consortium_id` is the object's own id, not the context variable's, and the other identifiers are read from the variables |
| Tracing.TracingContext.AddTokens | llm_consortium/tracing.py:54-57 | raises this model's count by t (from 0 if absent) and the total by t; other models, the counters and the errors are unchanged; the total stays the sum of the counts |
| Tracing.TracingContext.IncrementModelCalls | llm_consortium/tracing.py:63-65 | raises the model-call counter by exactly one and changes no other metric |
| Tracing.TracingContext.IncrementArbiterCalls | llm_consortium/tracing.py:67-69 | raises the arbiter-call counter by exactly one and changes no other metric |
| Tracing.TracingContext.AddError | llm_consortium/tracing.py:71-78 | appends exactly one entry at the end with the error text, type name, context and time; earlier entries and every counter are unchanged |
| Logger.ContextFields | llm_consortium/logger.py:59-64 | exactly the four identifier keys, each read from the current context and None when unset |
| Logger.ExtraFields | llm_consortium/logger.py:57-69 | the keys are the four context keys plus every caller key; a caller value wins on a clash; context values fill the rest |
| Logger.GetExtra | llm_consortium/logger.py:57-69 | building the dictionary from the live variables and then updating it with the caller's fields gives exactly `ExtraFields` of the current context |
| Logger.Emit | llm_consortium/logger.py:71-85 | each of the four level methods emits at its own level; the keys are the four context keys plus the caller's; a caller value wins, and a context key the caller leaves alone holds the context's value |
| Logger.Preview | llm_consortium/logger.py:109-110 | a preview is a prefix of the text of at most n characters, the whole text when it is shorter, and "" when there is no text |
| Logger.Strs | llm_consortium/logger.py:135-137 | a list of strings is logged as a list of the same length with the same strings in order |
| Logger.Record | llm_consortium/logger.py:112-166 | a convenience call raises the "multiple values for argument 'message'" TypeError exactly when the caller's keywords contain `message`; otherwise the caller's keywords override the fixed fields, which override the context fields |
| Logger.ModelCallFixed | llm_consortium/logger.py:101-111 | the eight fixed fields of a model call: "model_error" exactly when the error is truthy, the model as `model_id`, 100-character previews |
| Logger.ModelCallRecord | llm_consortium/logger.py:87-118 | error level and "model_error" exactly when `error` is truthy, else info and "model_call"; `model_id` is the model called unless the keywords override it; the previews are the first 100 characters; `tokens`, `duration_ms` and `confidence` are the values passed; the keywords win over every fixed field |
| Logger.ArbiterFixed | llm_consortium/logger.py:132-138 | the six fixed fields of an arbiter decision, with the arbiter as `model_id` and a 200-character raw-response preview |
| Logger.ArbiterDecisionRecord | llm_consortium/logger.py:120-146 | always the info level with "arbiter_decision"; the raw-response preview is the first 200 characters of the raw response, or "" when there is none; `evaluated_models`, `confidence` and `refinement_areas` are the values passed; the keywords win over every fixed field |
| Logger.IterationStartFixed | llm_consortium/logger.py:150-155 | the fixed fields of an iteration start: the event type, the iteration and the first 100 characters of the prompt |
| Logger.IterationStartRecord | llm_consortium/logger.py:148-156 | info level with "iteration_start"; `iteration_id` is the given iteration over the context's; the prompt preview is its first 100 characters |
| Logger.IterationEndFixed | llm_consortium/logger.py:160-165 | the fixed fields of an iteration end: the event type, the iteration and the confidence |
| Logger.IterationEndRecord | llm_consortium/logger.py:158-166 | info level with "iteration_end"; `iteration_id` is the given iteration over the context's; the confidence is recorded |
| Logger.ModelCallInsideGuards | llm_consortium/logger.py:57-113 | a model call made inside a consortium guard and an iteration guard nested in it logs that guard's consortium id and iteration, the outer request id, and the model called as `model_id` |
| Conversations.ConsortiumResponse.constructor | llm_consortium/conversation_manager.py:18-32 | the dataclass keeps its given fields; an empty timestamp becomes the current time and an empty conversation id a fresh UUID |
| Conversations.ConsortiumResponse.PostInit | llm_consortium/conversation_manager.py:28-32 | fills an empty timestamp and an empty conversation id, keeps non-empty ones, and changes nothing else |
| Conversations.NewSession | llm_consortium/conversation_manager.py:84-91 | a new session row has the given prompt, strategy and models, the creation time, empty metadata and no completion time or result |
| Conversations.FindSession | llm_consortium/conversation_manager.py:176-184 | the row found has the session id asked for and is in the table; None exactly when no row has that id |
| Conversations.FindSessionAt | llm_consortium/conversation_manager.py:176-184 | with unique session ids, looking up a row's session id finds that very row |
| Conversations.AppendSession | llm_consortium/conversation_manager.py:80-93 | appending a row with a new session id and the next row id keeps the ids unique and increasing, and the lookup then finds that row |
| Conversations.AppendResponse | llm_consortium/conversation_manager.py:134-149 | appending a response with the next row id keeps the ids increasing; the new id exceeds every earlier one |
| Conversations.Completed | llm_consortium/conversation_manager.py:166-172 | completion sets the time and result; the metadata is replaced only when the new one is truthy (not None, not empty); every other column is unchanged |
| Conversations.CompleteTwice | llm_consortium/conversation_manager.py:164-174 | completing twice is allowed: the second call's time and result win, and its metadata too unless that is empty |
| Conversations.CompleteRows | llm_consortium/conversation_manager.py:174 | the update touches exactly the rows with this session id, and leaves every other row as it was |
| Conversations.CompleteRowsValid | llm_consortium/conversation_manager.py:164-174 | completing keeps the session ids unique and the row ids in order |
| Conversations.CompleteRowsLookup | llm_consortium/conversation_manager.py:174-184 | after completing, looking the session up gives the completed row, or still None |
| Conversations.Selected | llm_consortium/conversation_manager.py:153-158 | the `WHERE` of the query: the row belongs to the session and, when an iteration is given, to that iteration |
| Conversations.ByTimestamp | llm_consortium/conversation_manager.py:160 | the `ORDER BY timestamp` of the query: text order of the timestamps (a total preorder, next row) |
| Conversations.ByTimestampIsTotalPreorder | llm_consortium/conversation_manager.py:160 | `ORDER BY timestamp` on text is a total, transitive order |
| Conversations.ConversationManager.constructor | llm_consortium/conversation_manager.py:37-78 | both tables start empty with their counters at zero |
| Conversations.ConversationManager.CreateSession | llm_consortium/conversation_manager.py:80-93 | succeeds exactly when the fresh id is not taken, adds exactly one row (the new session), returns its id and makes it findable; on a taken id it fails with the UNIQUE error and changes nothing |
| Conversations.ConversationManager.StoreResponse | llm_consortium/conversation_manager.py:134-149 | appends exactly one row with the given fields and the current time, and returns its new id, greater than every earlier id; the session is not checked |
| Conversations.ConversationManager.GetSessionResponses | llm_consortium/conversation_manager.py:151-162 | exactly the stored rows of the session, restricted to the iteration when one is given (0 included), each as often as stored, in non-decreasing timestamp order |
| Conversations.ConversationManager.CompleteSession | llm_consortium/conversation_manager.py:164-174 | only rows with this session id are completed, the lookup then returns the completed row, and the responses are unchanged |
| Conversations.ConversationManager.GetSessionInfo | llm_consortium/conversation_manager.py:176-184 | the row with this session id, or None exactly when there is none |
| Evaluations.NewEvaluation | llm_consortium/evaluation_store.py:142-171 | the inserted row keeps a prefix of the prompt of at most 2000 characters, uses the decision's confidence or 0.0 and its refinement areas or [], and keeps every other argument |
| Evaluations.PerfUpdate.RowFor | llm_consortium/evaluation_store.py:200-220 | a model's row has the key (model, consortium, iteration), the model's entry of the token usage or 0, and the call's confidence, duration and time |
| Evaluations.Table | llm_consortium/evaluation_store.py:83 | the keyed view: every row's key is present, and each key maps to a row of the table with that key |
| Evaluations.TableAppend | llm_consortium/evaluation_store.py:204-218 | appending a row makes its key map to that row |
| Evaluations.Without | llm_consortium/evaluation_store.py:204 | the delete half of REPLACE keeps exactly the rows with another key |
| Evaluations.WithoutTable | llm_consortium/evaluation_store.py:204 | deleting a key's rows removes exactly that key from the keyed view |
| Evaluations.WithoutUnique | llm_consortium/evaluation_store.py:83 | deleting rows keeps the primary key unique |
| Evaluations.Upsert | llm_consortium/evaluation_store.py:204-212 | after INSERT OR REPLACE the table holds the new row and exactly the old rows with another key |
| Evaluations.UpsertTable | llm_consortium/evaluation_store.py:204-218 | INSERT OR REPLACE makes the key map to the new row, leaves every other key unchanged, and keeps the primary key unique |
| Evaluations.UpsertAll | llm_consortium/evaluation_store.py:200-220 | the loop over the evaluated models, one upsert per model in order (its effect is stated by the UpsertAll lemmas below) |
| Evaluations.UpsertAllKeys | llm_consortium/evaluation_store.py:200-220 | the upserts add exactly the keys of the evaluated models and remove none |
| Evaluations.UpsertAllWritten | llm_consortium/evaluation_store.py:200-220 | afterwards each evaluated model's key holds that model's row from this call |
| Evaluations.UpsertAllKeepsKey | llm_consortium/evaluation_store.py:200-220 | a key of another model, consortium or iteration keeps its row |
| Evaluations.UpsertAllKeeps | llm_consortium/evaluation_store.py:142-220 | performance rows with any other key are unchanged by the upserts |
| Evaluations.UpsertAllUnique | llm_consortium/evaluation_store.py:200-220 | one row per key survives the upserts, also when a model is repeated in the list |
| Evaluations.LastWriteWins | llm_consortium/evaluation_store.py:200-220 | after two stores for the same consortium and iteration, a model in both lists holds the second call's row, and a model only in the first keeps the first call's row |
| Evaluations.UpdateModelPerformance | llm_consortium/evaluation_store.py:189-220 | the loop succeeds exactly when no upsert raises, and then leaves the table as one upsert per evaluated model, in order |
| Evaluations.RanksBefore | llm_consortium/evaluation_store.py:246 | the ranking `ORDER BY avg_confidence DESC, evaluation_count DESC`: higher average confidence first, ties broken by more evaluations |
| Evaluations.RanksBeforeIsTotalPreorder | llm_consortium/evaluation_store.py:246 | `ORDER BY avg_confidence DESC, evaluation_count DESC` is a total, transitive order |
| Evaluations.Since | llm_consortium/evaluation_store.py:240-242 | with a truthy `since`, exactly the rows at or after it (as text), each as often as stored; otherwise every row |
| Evaluations.Models | llm_consortium/evaluation_store.py:243 | the groups: each model of the rows once, and only those models |
| Evaluations.RowsOf | llm_consortium/evaluation_store.py:243 | a group is exactly the rows of its model, each as often as stored |
| Evaluations.Earliest | llm_consortium/evaluation_store.py:233 | `MIN(timestamp)` occurs in the group and is no later than any of its timestamps |
| Evaluations.Latest | llm_consortium/evaluation_store.py:234 | `MAX(timestamp)` occurs in the group and is no earlier than any of its timestamps |
| Evaluations.Aggregate | llm_consortium/evaluation_store.py:226-234 | a line's count is its group's size (at least one); the averages are the group's sums over that count; the total tokens is the group's sum |
| Evaluations.AggregateSeen | llm_consortium/evaluation_store.py:233-234 | first and last seen bound every timestamp of the model's rows and are timestamps of those rows |
| Evaluations.AggregateSeenUnique | llm_consortium/evaluation_store.py:233-234 | first and last seen are the only timestamps of the model's rows that bound all of them from below and from above |
| Evaluations.Take | llm_consortium/evaluation_store.py:247 | `LIMIT`: the first `limit` lines, or all of them when the limit is negative or not reached |
| Evaluations.Groups | llm_consortium/evaluation_store.py:226-243 | one aggregate per distinct model |
| Evaluations.GroupsCount | llm_consortium/evaluation_store.py:243 | there are exactly as many groups as distinct models |
| Evaluations.GroupsMembers | llm_consortium/evaluation_store.py:226-243 | each group line aggregates its own model, and every model has its line |
| Evaluations.RankedGroups | llm_consortium/evaluation_store.py:243-245 | ranking keeps each model's line exactly once and puts the lines in ranking order |
| Evaluations.Ranked | llm_consortium/evaluation_store.py:245-246 | the groups of the selected rows sorted by the ranking (stated by RankedGroups) |
| Evaluations.Leaderboard | llm_consortium/evaluation_store.py:226-247 | the leaderboard query: rows since the given time, grouped by model, ranked, then limited (stated by the Leaderboard lemmas below) |
| Evaluations.LeaderboardLines | llm_consortium/evaluation_store.py:222-248 | every line aggregates one model's rows at or after `since`; no model has two lines; the lines are in ranking order |
| Evaluations.LeaderboardSize | llm_consortium/evaluation_store.py:222-248 | `limit` lines, or one per model when the limit is negative or not reached, in which case every model is shown |
| Evaluations.LeaderboardCutoff | llm_consortium/evaluation_store.py:244-246 | a model the limit leaves out ranks no higher than any line shown |
| Evaluations.EvaluationStore.constructor | llm_consortium/evaluation_store.py:17-85 | both tables start empty with the counter at zero |
| Evaluations.EvaluationStore.StoreEvaluation | llm_consortium/evaluation_store.py:119-187 | commits only when the insert and every upsert succeed: it then appends exactly one evaluation row, returns its new id (greater than every earlier id) and upserts one row per evaluated model; on a failure nothing changes |
| Evaluations.EvaluationStore.GetLeaderboard | llm_consortium/evaluation_store.py:222-259 | one line per model among the rows at or after `since`, each that model's aggregates, without repeats, best average confidence first (ties by count), at most `limit` lines unless the limit is negative |
| Common.Prefix | llm_consortium/logger.py:109-110 | Python's `s[:n]`: a prefix of at most n characters, the whole string when it is shorter |
| Common.OrElse | llm_consortium/tracing.py:31-32 | `x or default`: x when it is truthy, else the default |
| Common.StrLeTotal | llm_consortium/conversation_manager.py:160 | any two texts are ordered one way or the other |
| Common.StrLeTransitive | llm_consortium/conversation_manager.py:160 | text order is transitive |
| Common.StrLeAntisymmetric | llm_consortium/conversation_manager.py:160 | two texts ordered both ways are equal |
| Sorting.Filter | llm_consortium/conversation_manager.py:153-158 | `WHERE`: each selected row occurs as often as in the table, and no other row occurs |
| Sorting.SortBy | llm_consortium/conversation_manager.py:160 | the sorted rows are a permutation of the input |
| Sorting.InsertSorted | llm_consortium/conversation_manager.py:160 | inserting into a sorted sequence keeps it sorted |
| Sorting.SortBySorted | llm_consortium/conversation_manager.py:160 | the result of sorting is in order |
| Sorting.SortByDistinct | llm_consortium/evaluation_store.py:243-245 | sorting lines without repeats gives lines without repeats |
| Sorting.SortedPrefix | llm_consortium/evaluation_store.py:246 | a prefix of a sorted sequence is sorted and ranks before everything it leaves out |

## Left out

- `add_timing` and the `total_time` metric (llm_consortium/tracing.py:33, 36, 59-61) are left out: they are floating-point timing with `time.perf_counter`.
- The text of the log messages is left out, including its `:.2f` float formatting.
- The logging sink is left out: `setup_structured_logging`, the handlers, the formatter fallback and the `logging.Logger` calls. Only the record and the level are modelled.
- Keys that the standard `logging` module refuses in `extra` (such as `msg` or `args`) are not modelled. For those it raises `KeyError`. Only the clash on `message`, which fails earlier in Python's argument binding, is modelled.
- Tracing.ContextVar.Reset: does not model the errors of a misused token. Python raises `RuntimeError` for a token used twice and `ValueError` for a token from another context or another variable. The guards use each of their tokens once, in the context and on the variable that made it.
- Tracing.Exec: has no `return` or `break` that leaves a `with` block early. Such an exit runs the guard's `finally` just as an exception does, so its effect on the context is that of a `Raise` caught outside the guard.
- Per-task isolation of context variables and any concurrency are left out. The model is one sequential task.
- The in-memory/file split of `EvaluationStore` (llm_consortium/evaluation_store.py:17-46) is left out. In memory mode the tables are created on a throwaway connection, so that mode cannot work as written. The model follows file mode, with one transaction per call.
- The second `get_leaderboard` (llm_consortium/evaluation_store.py:264-296) and the methods after it are left out. Python keeps that later definition, which shadows the first. These methods query columns the schema does not have, through a `DatabaseConnection` that is never defined, so they cannot run. The module-level `__all__` and the import-time instance are left out too. The model's leaderboard is the first definition.
- Evaluations.EvaluationStore.GetLeaderboard: ignores `modelFilter`, as the first definition does. It computes no win rate.
- `get_or_create_conversation` and `send_prompt` are left out: they wrap the external `llm` library.
- Conversations.ConversationManager.CompleteSession: models the intended effect of the `sqlite_utils` call `update(session_id, ..., pk='session_id')`: the row with that session id is updated. The library's behaviour for an unknown id is not modelled. Here nothing changes.
- Conversations.ConversationManager.StoreResponse: does not model the foreign key to `consortium_sessions`. SQLite does not enforce it unless foreign keys are switched on, and the code does not switch them on.
- Evaluations.NewEvaluation: models the decision's confidence only as a number or absent. A non-numeric value, or an explicit None, is stored by SQLite as whatever it is.
- Evaluations.PerfKey: models `iteration_id` as an integer. SQLite treats NULLs in a primary key as distinct, and that case is not modelled.
- The `created_at` column default of `evaluations` is left out. Each call reads the clock once (`now`), where the source's insert and upserts each evaluate `datetime('now')`.
- Groups appear in first-appearance order, and lines that rank equal keep that order. SQL leaves the order of such ties unspecified, so any order the database picks also satisfies `LeaderboardLines` and `LeaderboardCutoff`.
- JSON serialisation (`json.dumps` of model lists, decisions, metadata and token usage) is kept as the value it serialises.
- Fresh UUIDs, `datetime.now()`, `datetime.utcnow()` and SQL `datetime('now')` are parameters. Only the shape of a generated id is constrained.
- Evaluations.Aggregate: computes averages exactly on reals. SQL `AVG` uses floating-point arithmetic.
- Evaluations.EvaluationStore.StoreEvaluation: does not model SQLite's 64-bit integers. `token_usage`, `duration_ms` and `iteration_id` are unbounded integers here. In the source, binding a value outside the signed 64-bit range raises `OverflowError`.
- Evaluations.Aggregate: does not model the 64-bit limit of `SUM(token_usage)`. SQLite raises "integer overflow" when that sum leaves the signed 64-bit range, while `SumTokens` is unbounded.
