/** Structured log records (llm_consortium/logger.py): which fields and which
    level each call of `StructuredLogger` hands to the logging sink. The sink
    itself, and the text of the message, are not part of the model. */
module Logger {
  import opened Common
  import Tracing

  datatype Level = Debug | Info | Warning | Error

  /** What reaches the sink: the level and the `extra` fields. */
  datatype LogRecord = LogRecord(level: Level, fields: Fields)

  /** The error a Python call raises when the keyword arguments it unpacks
      into `info(message, **kwargs)` or `error(message, **kwargs)` already
      contain `message`: "got multiple values for argument 'message'". */
  const MessageClash := "TypeError: got multiple values for argument 'message'"

  const ContextKeys: set<string> := {"consortium_id", "request_id", "iteration_id", "model_id"}

  /** The four identifiers of the current context, None where unset. */
  function ContextFields(ctx: Tracing.Snapshot): (f: Fields)
    ensures f.Keys == ContextKeys
    ensures f["consortium_id"] == OptStr(ctx.consortiumId) && f["request_id"] == OptStr(ctx.requestId)
    ensures f["iteration_id"] == OptInt(ctx.iterationId) && f["model_id"] == OptStr(ctx.modelId)
  {
    map[
      "consortium_id" := OptStr(ctx.consortiumId),
      "request_id" := OptStr(ctx.requestId),
      "iteration_id" := OptInt(ctx.iterationId),
      "model_id" := OptStr(ctx.modelId)]
  }

  /** The fields `_get_extra(extra)` builds: always the four context keys, and
      every caller key, the caller's value winning on a clash. */
  function ExtraFields(ctx: Tracing.Snapshot, extra: Fields): (f: Fields)
    ensures f.Keys == ContextKeys + extra.Keys
    ensures forall k :: k in extra ==> f[k] == extra[k]
    ensures forall k :: k in ContextKeys && k !in extra ==> f[k] == ContextFields(ctx)[k]
  {
    if extra == map[] then ContextFields(ctx) else ContextFields(ctx) + extra
  }

  /** `_get_extra` as the source runs it: build the context dictionary from the
      live variables, then `update` it with the caller's fields. */
  method GetExtra(reg: Tracing.Registry, extra: Fields) returns (fields: Fields)
    ensures fields == ExtraFields(reg.Snap(), extra)
  {
    fields := map[
      "consortium_id" := OptStr(reg.consortium.value),
      "request_id" := OptStr(reg.request.value),
      "iteration_id" := OptInt(reg.iteration.value),
      "model_id" := OptStr(reg.model.value)];
    if extra != map[] {
      fields := fields + extra;
    }
  }

  /** `debug`, `info`, `warning` and `error`: the given level, and the
      context fields under the caller's. A Python caller cannot pass
      `self` or `message` as a keyword, since both are named parameters. */
  function Emit(level: Level, ctx: Tracing.Snapshot, kwargs: Fields): (r: LogRecord)
    requires "self" !in kwargs && "message" !in kwargs
    ensures r.level == level
    ensures r.fields.Keys == ContextKeys + kwargs.Keys
    ensures forall k :: k in kwargs ==> r.fields[k] == kwargs[k]
    ensures forall k :: k in ContextKeys && k !in kwargs ==> r.fields[k] == ContextFields(ctx)[k]
  {
    LogRecord(level, ExtraFields(ctx, kwargs))
  }

  /** `text[:n] if text else ""`: a preview of at most `n` characters. */
  function Preview(text: Option<string>, n: nat): (r: string)
    ensures |r| <= n
    ensures text.None? ==> r == ""
    ensures text.Some? ==> r <= text.value && |r| == if |text.value| <= n then |text.value| else n
  {
    if Truthy(text) then Prefix(text.value, n) else ""
  }

  /** A Python list of strings. */
  function Strs(xs: seq<string>): (v: Value)
    ensures v.List? && |v.items| == |xs|
    ensures forall i :: 0 <= i < |xs| ==> v.items[i] == Str(xs[i])
  {
    List(seq(|xs|, i requires 0 <= i < |xs| => Str(xs[i])))
  }

  /** A convenience call: its fixed fields, then `**kwargs` over them, passed
      as keywords to `info` or `error`; the call raises when `kwargs` holds
      `message`, which the named parameter already takes. */
  function Record(level: Level, ctx: Tracing.Snapshot, fixed: Fields, kwargs: Fields): (r: Result<LogRecord, string>)
    requires "self" !in fixed && "message" !in fixed && "self" !in kwargs
    ensures r.Err? <==> "message" in kwargs
    ensures r.Err? ==> r.error == MessageClash
    ensures r.Ok? ==> r.value.level == level
    ensures r.Ok? ==> r.value.fields.Keys == ContextKeys + fixed.Keys + kwargs.Keys
    ensures r.Ok? ==> forall k :: k in kwargs ==> r.value.fields[k] == kwargs[k]
    ensures r.Ok? ==> forall k :: k in fixed && k !in kwargs ==> r.value.fields[k] == fixed[k]
    ensures r.Ok? ==> forall k :: k in ContextKeys && k !in fixed && k !in kwargs ==>
              r.value.fields[k] == ContextFields(ctx)[k]
  {
    var extra := fixed + kwargs;
    if "message" in extra then Err(MessageClash)
    else Ok(Emit(level, ctx, extra))
  }

  // ---------------------------------------------------------------------
  // log_model_call

  /** The named parameters of `log_model_call`: no `**kwargs` key can be one. */
  const ModelCallParams: set<string> :=
    {"self", "model", "prompt", "response", "tokens", "duration_ms", "confidence", "error"}

  const ModelCallKeys: set<string> :=
    {"event_type", "model_id", "duration_ms", "tokens", "confidence", "prompt_preview", "response_preview", "error"}

  /** The fixed fields of `log_model_call`, before its `**kwargs`. */
  function ModelCallFixed(
    model: string, prompt: Option<string>, response: Option<string>, tokens: int,
    durationMs: real, confidence: real, error: Option<string>): (f: Fields)
    ensures f.Keys == ModelCallKeys
    ensures f["event_type"] == Str(if Truthy(error) then "model_error" else "model_call")
    ensures f["model_id"] == Str(model) && f["error"] == OptStr(error)
    ensures f["prompt_preview"] == Str(Preview(prompt, 100)) && f["response_preview"] == Str(Preview(response, 100))
    ensures f["tokens"] == Int(tokens) && f["duration_ms"] == Num(durationMs) && f["confidence"] == Num(confidence)
  {
    map[
      "event_type" := Str(if Truthy(error) then "model_error" else "model_call"),
      "model_id" := Str(model),
      "duration_ms" := Num(durationMs),
      "tokens" := Int(tokens),
      "confidence" := Num(confidence),
      "prompt_preview" := Str(Preview(prompt, 100)),
      "response_preview" := Str(Preview(response, 100)),
      "error" := OptStr(error)]
  }

  /** `log_model_call`: the error level with `event_type` "model_error"
      exactly when `error` is truthy, else the info level with "model_call";
      the record's `model_id` is the model called, over the context's, and
      the caller's keyword arguments override every fixed field. */
  function ModelCallRecord(
    ctx: Tracing.Snapshot, model: string, prompt: Option<string>, response: Option<string>,
    tokens: int, durationMs: real, confidence: real, error: Option<string>, kwargs: Fields)
    : (r: Result<LogRecord, string>)
    requires kwargs.Keys !! ModelCallParams
    ensures r.Err? <==> "message" in kwargs
    ensures r.Ok? ==> r.value.level == if Truthy(error) then Error else Info
    ensures r.Ok? ==> r.value.fields.Keys == ContextKeys + ModelCallKeys + kwargs.Keys
    ensures r.Ok? ==> forall k :: k in kwargs ==> r.value.fields[k] == kwargs[k]
    ensures r.Ok? ==> forall k :: k in ContextKeys && k !in ModelCallKeys && k !in kwargs ==>
              r.value.fields[k] == ContextFields(ctx)[k]
    ensures r.Ok? && "event_type" !in kwargs ==>
              r.value.fields["event_type"] == Str(if Truthy(error) then "model_error" else "model_call")
    ensures r.Ok? && "model_id" !in kwargs ==> r.value.fields["model_id"] == Str(model)
    ensures r.Ok? && "prompt_preview" !in kwargs ==> r.value.fields["prompt_preview"] == Str(Preview(prompt, 100))
    ensures r.Ok? && "response_preview" !in kwargs ==>
              r.value.fields["response_preview"] == Str(Preview(response, 100))
    ensures r.Ok? && "error" !in kwargs ==> r.value.fields["error"] == OptStr(error)
    ensures r.Ok? && "tokens" !in kwargs ==> r.value.fields["tokens"] == Int(tokens)
    ensures r.Ok? && "duration_ms" !in kwargs ==> r.value.fields["duration_ms"] == Num(durationMs)
    ensures r.Ok? && "confidence" !in kwargs ==> r.value.fields["confidence"] == Num(confidence)
  {
    Record(if Truthy(error) then Error else Info, ctx,
           ModelCallFixed(model, prompt, response, tokens, durationMs, confidence, error), kwargs)
  }

  // ---------------------------------------------------------------------
  // log_arbiter_decision

  const ArbiterParams: set<string> :=
    {"self", "arbiter_model", "evaluated_models", "confidence", "refinement_areas", "raw_response"}

  const ArbiterKeys: set<string> :=
    {"event_type", "model_id", "evaluated_models", "confidence", "refinement_areas", "raw_response_preview"}

  /** `log_arbiter_decision`: always the info level with `event_type`
      "arbiter_decision"; the raw response preview has at most 200
      characters and is empty when there is no raw response. */
  function ArbiterDecisionRecord(
    ctx: Tracing.Snapshot, arbiterModel: string, evaluatedModels: seq<string>, confidence: real,
    refinementAreas: seq<string>, rawResponse: Option<string>, kwargs: Fields)
    : (r: Result<LogRecord, string>)
    requires kwargs.Keys !! ArbiterParams
    ensures r.Err? <==> "message" in kwargs
    ensures r.Ok? ==> r.value.level == Info
    ensures r.Ok? ==> r.value.fields.Keys == ContextKeys + ArbiterKeys + kwargs.Keys
    ensures r.Ok? ==> forall k :: k in kwargs ==> r.value.fields[k] == kwargs[k]
    ensures r.Ok? ==> forall k :: k in ContextKeys && k !in ArbiterKeys && k !in kwargs ==>
              r.value.fields[k] == ContextFields(ctx)[k]
    ensures r.Ok? && "event_type" !in kwargs ==> r.value.fields["event_type"] == Str("arbiter_decision")
    ensures r.Ok? && "model_id" !in kwargs ==> r.value.fields["model_id"] == Str(arbiterModel)
    ensures r.Ok? && "raw_response_preview" !in kwargs ==>
              && r.value.fields["raw_response_preview"].Str?
              && |r.value.fields["raw_response_preview"].s| <= 200
              && (rawResponse.None? ==> r.value.fields["raw_response_preview"] == Str(""))
              && (rawResponse.Some? ==> r.value.fields["raw_response_preview"] == Str(Prefix(rawResponse.value, 200)))
    ensures r.Ok? && "evaluated_models" !in kwargs ==> r.value.fields["evaluated_models"] == Strs(evaluatedModels)
    ensures r.Ok? && "confidence" !in kwargs ==> r.value.fields["confidence"] == Num(confidence)
    ensures r.Ok? && "refinement_areas" !in kwargs ==> r.value.fields["refinement_areas"] == Strs(refinementAreas)
  {
    Record(Info, ctx, ArbiterFixed(arbiterModel, evaluatedModels, confidence, refinementAreas, rawResponse), kwargs)
  }

  /** The fixed fields of `log_arbiter_decision`, before its `**kwargs`. */
  function ArbiterFixed(
    arbiterModel: string, evaluatedModels: seq<string>, confidence: real,
    refinementAreas: seq<string>, rawResponse: Option<string>): (f: Fields)
    ensures f.Keys == ArbiterKeys
    ensures f["event_type"] == Str("arbiter_decision") && f["model_id"] == Str(arbiterModel)
    ensures f["raw_response_preview"] == Str(Preview(rawResponse, 200))
    ensures f["evaluated_models"] == Strs(evaluatedModels) && f["refinement_areas"] == Strs(refinementAreas)
    ensures f["confidence"] == Num(confidence)
  {
    map[
      "event_type" := Str("arbiter_decision"),
      "model_id" := Str(arbiterModel),
      "evaluated_models" := Strs(evaluatedModels),
      "confidence" := Num(confidence),
      "refinement_areas" := Strs(refinementAreas),
      "raw_response_preview" := Str(Preview(rawResponse, 200))]
  }

  // ---------------------------------------------------------------------
  // log_iteration_start and log_iteration_end

  const IterationStartKeys: set<string> := {"event_type", "iteration_id", "prompt_preview"}
  const IterationEndKeys: set<string> := {"event_type", "iteration_id", "confidence"}

  /** `log_iteration_start`: `event_type` "iteration_start", the given
      iteration over the context's, and the first 100 characters of the prompt. */
  function IterationStartRecord(ctx: Tracing.Snapshot, iteration: int, prompt: string, kwargs: Fields)
    : (r: Result<LogRecord, string>)
    requires kwargs.Keys !! {"self", "iteration", "prompt"}
    ensures r.Err? <==> "message" in kwargs
    ensures r.Ok? ==> r.value.level == Info
    ensures r.Ok? ==> r.value.fields.Keys == ContextKeys + IterationStartKeys + kwargs.Keys
    ensures r.Ok? ==> forall k :: k in kwargs ==> r.value.fields[k] == kwargs[k]
    ensures r.Ok? ==> forall k :: k in ContextKeys && k !in IterationStartKeys && k !in kwargs ==>
              r.value.fields[k] == ContextFields(ctx)[k]
    ensures r.Ok? && "event_type" !in kwargs ==> r.value.fields["event_type"] == Str("iteration_start")
    ensures r.Ok? && "iteration_id" !in kwargs ==> r.value.fields["iteration_id"] == Int(iteration)
    ensures r.Ok? && "prompt_preview" !in kwargs ==> r.value.fields["prompt_preview"] == Str(Prefix(prompt, 100))
  {
    Record(Info, ctx, IterationStartFixed(iteration, prompt), kwargs)
  }

  function IterationStartFixed(iteration: int, prompt: string): (f: Fields)
    ensures f.Keys == IterationStartKeys
    ensures f["event_type"] == Str("iteration_start") && f["iteration_id"] == Int(iteration)
    ensures f["prompt_preview"] == Str(Prefix(prompt, 100))
  {
    map[
      "event_type" := Str("iteration_start"),
      "iteration_id" := Int(iteration),
      "prompt_preview" := Str(Prefix(prompt, 100))]
  }

  /** `log_iteration_end`: `event_type` "iteration_end", the given iteration
      over the context's, and the confidence. */
  function IterationEndRecord(ctx: Tracing.Snapshot, iteration: int, confidence: real, kwargs: Fields)
    : (r: Result<LogRecord, string>)
    requires kwargs.Keys !! {"self", "iteration", "confidence"}
    ensures r.Err? <==> "message" in kwargs
    ensures r.Ok? ==> r.value.level == Info
    ensures r.Ok? ==> r.value.fields.Keys == ContextKeys + IterationEndKeys + kwargs.Keys
    ensures r.Ok? ==> forall k :: k in kwargs ==> r.value.fields[k] == kwargs[k]
    ensures r.Ok? ==> forall k :: k in ContextKeys && k !in IterationEndKeys && k !in kwargs ==>
              r.value.fields[k] == ContextFields(ctx)[k]
    ensures r.Ok? && "event_type" !in kwargs ==> r.value.fields["event_type"] == Str("iteration_end")
    ensures r.Ok? && "iteration_id" !in kwargs ==> r.value.fields["iteration_id"] == Int(iteration)
    ensures r.Ok? && "confidence" !in kwargs ==> r.value.fields["confidence"] == Num(confidence)
  {
    Record(Info, ctx, IterationEndFixed(iteration, confidence), kwargs)
  }

  function IterationEndFixed(iteration: int, confidence: real): (f: Fields)
    ensures f.Keys == IterationEndKeys
    ensures f["event_type"] == Str("iteration_end") && f["iteration_id"] == Int(iteration)
    ensures f["confidence"] == Num(confidence)
  {
    map[
      "event_type" := Str("iteration_end"),
      "iteration_id" := Int(iteration),
      "confidence" := Num(confidence)]
  }

  /** Every record a logging call makes carries the identifiers of the
      context it was made in, except where the call's own fields override
      them: here, a model call made inside a consortium guard and an
      iteration guard nested in it. */
  lemma ModelCallInsideGuards(
    s: Tracing.Snapshot, id: Option<string>, freshHex: string, iteration: int, model: string, tokens: int,
    durationMs: real, error: Option<string>)
    ensures var ctx := Tracing.Enter(Tracing.IterationGuard(iteration), Tracing.Enter(Tracing.ConsortiumGuard(id, freshHex), s));
            var r := ModelCallRecord(ctx, model, None, None, tokens, durationMs, 0.0, error, map[]);
            && r.Ok?
            && r.value.fields["consortium_id"] == Str(Tracing.NewConsortiumId(id, freshHex))
            && r.value.fields["iteration_id"] == Int(iteration)
            && r.value.fields["request_id"] == OptStr(s.requestId)
            && r.value.fields["model_id"] == Str(model)
            && r.value.fields["prompt_preview"] == Str("")
  {
    assert "consortium_id" !in ModelCallKeys && "request_id" !in ModelCallKeys;
    assert "iteration_id" !in ModelCallKeys;
  }
}
