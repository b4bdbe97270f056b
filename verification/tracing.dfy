/** Correlation context and per-run metrics (llm_consortium/tracing.py).

    The four module-level context variables become the four variables of a
    `Registry`. Each scope guard sets one variable, runs the caller's work and
    resets the variable with the token it took on entry, also when the work
    raises. The caller's work is described by a `Work` term (nested guards,
    reads of the context, raising and catching), so that the guards can be
    proved correct for every piece of work a caller can run inside them. */
module Tracing {
  import opened Common

  // ---------------------------------------------------------------------
  // Context variables

  /** What `ContextVar.set` hands back: the value to go back to on `reset`. */
  datatype Token<T> = Token(previous: Option<T>)

  /** A `contextvars.ContextVar` whose default is None, seen from one task. */
  class ContextVar<T> {
    var value: Option<T>

    constructor ()
      ensures value == None
    {
      value := None;
    }

    method Set(v: T) returns (token: Token<T>)
      modifies this
      ensures value == Some(v)
      ensures token == Token(old(value))
    {
      token := Token(value);
      value := Some(v);
    }

    method Reset(token: Token<T>)
      modifies this
      ensures value == token.previous
    {
      value := token.previous;
    }
  }

  /** The values of the four identifiers at one moment. */
  datatype Snapshot = Snapshot(
    consortiumId: Option<string>,
    requestId: Option<string>,
    iterationId: Option<int>,
    modelId: Option<string>)

  const Unset := Snapshot(None, None, None, None)

  datatype Kind = ConsortiumKind | RequestKind | IterationKind | ModelKind

  /** `a` and `b` hold the same value for the identifier `k`. */
  predicate Agree(a: Snapshot, b: Snapshot, k: Kind) {
    match k
    case ConsortiumKind => a.consortiumId == b.consortiumId
    case RequestKind => a.requestId == b.requestId
    case IterationKind => a.iterationId == b.iterationId
    case ModelKind => a.modelId == b.modelId
  }

  // ---------------------------------------------------------------------
  // Generated identifiers

  /** `consortium_id or f"cons-{uuid.uuid4().hex[:16]}"`, with the hex digits
      of the fresh UUID passed in. */
  function NewConsortiumId(id: Option<string>, freshHex: string): (r: string)
    ensures Truthy(id) ==> r == id.value
    ensures !Truthy(id) && |freshHex| == 32 && IsLowerHex(freshHex) ==>
              |r| == 21 && r[..5] == "cons-" && IsLowerHex(r[5..]) && r[5..] <= freshHex
  {
    OrElse(id, "cons-" + Prefix(freshHex, 16))
  }

  /** `request_id or f"req-{uuid.uuid4().hex[:12]}"`. */
  function NewRequestId(id: Option<string>, freshHex: string): (r: string)
    ensures Truthy(id) ==> r == id.value
    ensures !Truthy(id) && |freshHex| == 32 && IsLowerHex(freshHex) ==>
              |r| == 16 && r[..4] == "req-" && IsLowerHex(r[4..]) && r[4..] <= freshHex
  {
    OrElse(id, "req-" + Prefix(freshHex, 12))
  }

  // ---------------------------------------------------------------------
  // Guards and the caller's work

  /** One of the four scope guards with its arguments. */
  datatype Guard =
    | ConsortiumGuard(id: Option<string>, consortiumHex: string)
    | IterationGuard(iteration: int)
    | RequestGuard(requestId: Option<string>, requestHex: string)
    | ModelGuard(modelId: string)

  function KindOf(g: Guard): Kind {
    match g
    case ConsortiumGuard(_, _) => ConsortiumKind
    case IterationGuard(_) => IterationKind
    case RequestGuard(_, _) => RequestKind
    case ModelGuard(_) => ModelKind
  }

  /** The context inside the guard: its one variable set, the rest as before. */
  function Enter(g: Guard, s: Snapshot): (inside: Snapshot)
    ensures forall k :: k != KindOf(g) ==> Agree(inside, s, k)
  {
    match g
    case ConsortiumGuard(id, hex) => s.(consortiumId := Some(NewConsortiumId(id, hex)))
    case IterationGuard(i) => s.(iterationId := Some(i))
    case RequestGuard(id, hex) => s.(requestId := Some(NewRequestId(id, hex)))
    case ModelGuard(m) => s.(modelId := Some(m))
  }

  /** Leaving the guard: its variable is reset with the token taken when the
      context was `outer`; the other variables keep the values the body left. */
  function Leave(g: Guard, inner: Snapshot, outer: Snapshot): (r: Snapshot)
    ensures Agree(r, outer, KindOf(g))
    ensures forall k :: k != KindOf(g) ==> Agree(r, inner, k)
  {
    match g
    case ConsortiumGuard(_, _) => inner.(consortiumId := outer.consortiumId)
    case IterationGuard(_) => inner.(iterationId := outer.iterationId)
    case RequestGuard(_, _) => inner.(requestId := outer.requestId)
    case ModelGuard(_) => inner.(modelId := outer.modelId)
  }

  /** A direct `set` of one of the module-level variables, whose token the
      caller drops, so nothing resets it. */
  datatype Assignment =
    | SetConsortium(consortiumId: string)
    | SetRequest(requestId: string)
    | SetIteration(iteration: int)
    | SetModel(modelId: string)

  function Target(a: Assignment): Kind {
    match a
    case SetConsortium(_) => ConsortiumKind
    case SetRequest(_) => RequestKind
    case SetIteration(_) => IterationKind
    case SetModel(_) => ModelKind
  }

  function Apply(a: Assignment, s: Snapshot): (r: Snapshot)
    ensures forall k :: k != Target(a) ==> Agree(r, s, k)
  {
    match a
    case SetConsortium(v) => s.(consortiumId := Some(v))
    case SetRequest(v) => s.(requestId := Some(v))
    case SetIteration(v) => s.(iterationId := Some(v))
    case SetModel(v) => s.(modelId := Some(v))
  }

  datatype Outcome = Normal | Raised(error: string)

  /** What a caller runs: inside a `with` block, or as the whole program. */
  datatype Work =
    | Pass                                // does nothing and finishes normally
    | Raise(error: string)                // raises
    | Observe                             // reads the four identifiers
    | Assign(assignment: Assignment)      // sets a variable directly
    | Then(first: Work, next: Work)       // `next` runs unless `first` raised
    | Catch(body: Work, handler: Work)    // try / except
    | Finally(body: Work, cleanup: Work)  // try / finally
    | Scoped(guard: Guard, body: Work)    // with <guard>: body

  /** The kinds of identifier some guard inside `w` sets. */
  function Binds(w: Work): set<Kind> {
    match w
    case Pass => {}
    case Raise(_) => {}
    case Observe => {}
    case Assign(_) => {}
    case Then(a, b) => Binds(a) + Binds(b)
    case Catch(a, b) => Binds(a) + Binds(b)
    case Finally(a, b) => Binds(a) + Binds(b)
    case Scoped(g, body) => {KindOf(g)} + Binds(body)
  }

  /** `w` sets the identifier `k` directly somewhere that no guard of kind
      `k` inside `w` encloses (such a guard's reset would undo the set). */
  predicate Writes(w: Work, k: Kind) {
    match w
    case Pass => false
    case Raise(_) => false
    case Observe => false
    case Assign(a) => Target(a) == k
    case Then(a, b) => Writes(a, k) || Writes(b, k)
    case Catch(a, b) => Writes(a, k) || Writes(b, k)
    case Finally(a, b) => Writes(a, k) || Writes(b, k)
    case Scoped(g, body) => KindOf(g) != k && Writes(body, k)
  }

  /** The outcome of running some work, the contexts its reads saw, and the
      context it left behind. */
  datatype Trace = Trace(outcome: Outcome, seen: seq<Snapshot>, final: Snapshot)

  /** Python's semantics of the work, with `finally` resetting each guard's
      variable on both exits, and an exception in a `finally` block replacing
      the one in flight. */
  function Exec(w: Work, s: Snapshot): Trace {
    match w
    case Pass => Trace(Normal, [], s)
    case Raise(e) => Trace(Raised(e), [], s)
    case Observe => Trace(Normal, [s], s)
    case Assign(a) => Trace(Normal, [], Apply(a, s))
    case Then(a, b) =>
      var ta := Exec(a, s);
      if ta.outcome.Raised? then ta
      else
        var tb := Exec(b, ta.final);
        Trace(tb.outcome, ta.seen + tb.seen, tb.final)
    case Catch(a, h) =>
      var ta := Exec(a, s);
      if ta.outcome.Normal? then ta
      else
        var th := Exec(h, ta.final);
        Trace(th.outcome, ta.seen + th.seen, th.final)
    case Finally(a, c) =>
      var ta := Exec(a, s);
      var tc := Exec(c, ta.final);
      Trace(if tc.outcome.Raised? then tc.outcome else ta.outcome, ta.seen + tc.seen, tc.final)
    case Scoped(g, body) =>
      var tb := Exec(body, Enter(g, s));
      Trace(tb.outcome, tb.seen, Leave(g, tb.final, s))
  }

  /** The reads of `w` that no guard of kind `k` inside `w` encloses, in the
      order `w` makes them. */
  function Unshadowed(w: Work, s: Snapshot, k: Kind): seq<Snapshot> {
    match w
    case Pass => []
    case Raise(_) => []
    case Observe => [s]
    case Assign(_) => []
    case Then(a, b) =>
      var ta := Exec(a, s);
      if ta.outcome.Raised? then Unshadowed(a, s, k)
      else Unshadowed(a, s, k) + Unshadowed(b, ta.final, k)
    case Catch(a, h) =>
      var ta := Exec(a, s);
      if ta.outcome.Normal? then Unshadowed(a, s, k)
      else Unshadowed(a, s, k) + Unshadowed(h, ta.final, k)
    case Finally(a, c) =>
      Unshadowed(a, s, k) + Unshadowed(c, Exec(a, s).final, k)
    case Scoped(g, body) =>
      if KindOf(g) == k then [] else Unshadowed(body, Enter(g, s), k)
  }

  /** Snapshots that agree on every identifier are equal. */
  lemma AgreeEverywhere(a: Snapshot, b: Snapshot)
    requires forall k :: Agree(a, b, k)
    ensures a == b
  {
    assert Agree(a, b, ConsortiumKind) && Agree(a, b, RequestKind);
    assert Agree(a, b, IterationKind) && Agree(a, b, ModelKind);
  }

  /** No work leaks a guard's setting: whatever it does and however it ends,
      every identifier it does not set directly is back at the value it had
      before. */
  lemma {:induction false} ExecRestores(w: Work, s: Snapshot)
    ensures forall k :: !Writes(w, k) ==> Agree(Exec(w, s).final, s, k)
  {
    match w
    case Pass =>
    case Raise(_) =>
    case Observe =>
    case Assign(_) =>
    case Then(a, b) =>
      ExecRestores(a, s);
      ExecRestores(b, Exec(a, s).final);
    case Catch(a, h) =>
      ExecRestores(a, s);
      ExecRestores(h, Exec(a, s).final);
    case Finally(a, c) =>
      ExecRestores(a, s);
      ExecRestores(c, Exec(a, s).final);
    case Scoped(g, body) =>
      ExecRestores(body, Enter(g, s));
  }

  /** Work that sets no variable directly leaves the whole context as it
      found it. */
  lemma NoWritesRestores(w: Work, s: Snapshot)
    requires forall k :: !Writes(w, k)
    ensures Exec(w, s).final == s
  {
    ExecRestores(w, s);
    AgreeEverywhere(Exec(w, s).final, s);
  }

  /** What `reset(token)` guarantees: the guard's own identifier is back at
      its pre-entry value even when the body set it directly, while direct
      sets of the other identifiers outlive the guard. */
  lemma GuardResets(g: Guard, body: Work, s: Snapshot)
    ensures Agree(Exec(Scoped(g, body), s).final, s, KindOf(g))
    ensures forall k :: k != KindOf(g) ==> Agree(Exec(Scoped(g, body), s).final, Exec(body, Enter(g, s)).final, k)
  {
  }

  /** The reads outside nested guards of kind `k` are reads that `w` makes. */
  lemma {:induction false} UnshadowedSeen(w: Work, s: Snapshot, k: Kind)
    ensures forall t :: t in Unshadowed(w, s, k) ==> t in Exec(w, s).seen
  {
    match w
    case Pass =>
    case Raise(_) =>
    case Observe =>
    case Assign(_) =>
    case Then(a, b) =>
      UnshadowedSeen(a, s, k);
      UnshadowedSeen(b, Exec(a, s).final, k);
    case Catch(a, h) =>
      UnshadowedSeen(a, s, k);
      UnshadowedSeen(h, Exec(a, s).final, k);
    case Finally(a, c) =>
      UnshadowedSeen(a, s, k);
      UnshadowedSeen(c, Exec(a, s).final, k);
    case Scoped(g, body) =>
      if KindOf(g) != k {
        UnshadowedSeen(body, Enter(g, s), k);
      }
  }

  /** Without a nested guard of kind `k`, every read is outside one. */
  lemma {:induction false} UnshadowedAll(w: Work, s: Snapshot, k: Kind)
    requires k !in Binds(w)
    ensures Unshadowed(w, s, k) == Exec(w, s).seen
  {
    match w
    case Pass =>
    case Raise(_) =>
    case Observe =>
    case Assign(_) =>
    case Then(a, b) =>
      UnshadowedAll(a, s, k);
      UnshadowedAll(b, Exec(a, s).final, k);
    case Catch(a, h) =>
      UnshadowedAll(a, s, k);
      UnshadowedAll(h, Exec(a, s).final, k);
    case Finally(a, c) =>
      UnshadowedAll(a, s, k);
      UnshadowedAll(c, Exec(a, s).final, k);
    case Scoped(g, body) =>
      UnshadowedAll(body, Enter(g, s), k);
  }

  /** Every read of `w` outside nested guards of kind `k` sees the outer
      value of `k`, unless `w` sets `k` directly. */
  lemma {:induction false} UnshadowedConstant(w: Work, s: Snapshot, k: Kind)
    requires !Writes(w, k)
    ensures forall t :: t in Unshadowed(w, s, k) ==> Agree(t, s, k)
  {
    match w
    case Pass =>
    case Raise(_) =>
    case Observe =>
    case Assign(_) =>
    case Then(a, b) =>
      UnshadowedConstant(a, s, k);
      ExecRestores(a, s);
      UnshadowedConstant(b, Exec(a, s).final, k);
    case Catch(a, h) =>
      UnshadowedConstant(a, s, k);
      ExecRestores(a, s);
      UnshadowedConstant(h, Exec(a, s).final, k);
    case Finally(a, c) =>
      UnshadowedConstant(a, s, k);
      ExecRestores(a, s);
      UnshadowedConstant(c, Exec(a, s).final, k);
    case Scoped(g, body) =>
      if KindOf(g) != k {
        UnshadowedConstant(body, Enter(g, s), k);
      }
  }

  /** An identifier that no guard in `w` sets, and that `w` does not set
      directly, has the same value in every context that `w` reads. */
  lemma UnboundKindConstant(w: Work, s: Snapshot, k: Kind)
    requires k !in Binds(w) && !Writes(w, k)
    ensures forall t :: t in Exec(w, s).seen ==> Agree(t, s, k)
  {
    UnshadowedAll(w, s, k);
    UnshadowedConstant(w, s, k);
  }

  /** Inside a guard, every read outside nested guards of the same kind sees
      the guard's value for its identifier, and every read outside nested
      guards of another kind sees that identifier's outer value, as long as
      the body does not set the identifier directly. */
  lemma GuardScope(g: Guard, body: Work, s: Snapshot)
    ensures forall t :: t in Unshadowed(body, Enter(g, s), KindOf(g)) && !Writes(body, KindOf(g)) ==>
              t in Exec(Scoped(g, body), s).seen && Agree(t, Enter(g, s), KindOf(g))
    ensures forall t, k :: t in Unshadowed(body, Enter(g, s), k) && k != KindOf(g) && !Writes(body, k) ==>
              t in Exec(Scoped(g, body), s).seen && Agree(t, s, k)
  {
    forall k | !Writes(body, k)
      ensures forall t :: t in Unshadowed(body, Enter(g, s), k) ==>
                t in Exec(Scoped(g, body), s).seen && Agree(t, Enter(g, s), k)
    {
      UnshadowedConstant(body, Enter(g, s), k);
      UnshadowedSeen(body, Enter(g, s), k);
    }
  }

  /** After a guard exits, normally or by an exception, a read in a `finally`
      block sees the guard's identifier at its pre-entry value, and exactly
      the pre-entry context when the body sets no variable directly; the
      guard's exception is the one that propagates. */
  lemma AfterGuard(g: Guard, body: Work, s: Snapshot)
    ensures var t := Exec(Finally(Scoped(g, body), Observe), s);
            && t.seen == Exec(body, Enter(g, s)).seen + [Exec(Scoped(g, body), s).final]
            && Agree(t.seen[|t.seen| - 1], s, KindOf(g))
            && t.outcome == Exec(body, Enter(g, s)).outcome
    ensures (forall k :: !Writes(body, k)) ==>
              Exec(Finally(Scoped(g, body), Observe), s).seen == Exec(body, Enter(g, s)).seen + [s]
  {
    if forall k :: !Writes(body, k) {
      assert forall k :: !Writes(Scoped(g, body), k);
      NoWritesRestores(Scoped(g, body), s);
    }
  }

  /** Nested guards unwind last-in first-out, whether the body returns or
      raises: a read in a `finally` block after the inner guard exits sees
      the inner guard's identifier as the outer guard's context had it, once
      the outer one exits its identifier is back, and the body's exception
      is the one that propagates; when the body sets no variable directly,
      the whole outer context and then the original one are back. */
  lemma NestedGuardsUnwind(outer: Guard, inner: Guard, body: Work, s: Snapshot)
    ensures var t := Exec(Scoped(outer, Finally(Scoped(inner, body), Observe)), s);
            var afterInner := Exec(Scoped(inner, body), Enter(outer, s)).final;
            && t.outcome == Exec(body, Enter(inner, Enter(outer, s))).outcome
            && t.seen == Exec(body, Enter(inner, Enter(outer, s))).seen + [afterInner]
            && Agree(afterInner, Enter(outer, s), KindOf(inner))
            && Agree(t.final, s, KindOf(outer))
    ensures (forall k :: !Writes(body, k)) ==>
              var t := Exec(Scoped(outer, Finally(Scoped(inner, body), Observe)), s);
              && t.seen == Exec(body, Enter(inner, Enter(outer, s))).seen + [Enter(outer, s)]
              && t.final == s
  {
    var mid := Enter(outer, s);
    var ti := Exec(Scoped(inner, body), mid);
    var rest := Finally(Scoped(inner, body), Observe);
    assert Exec(rest, mid) == Trace(ti.outcome, ti.seen + [ti.final], ti.final);
    GuardResets(inner, body, mid);
    if forall k :: !Writes(body, k) {
      forall k ensures !Writes(Scoped(inner, body), k) && !Writes(Scoped(outer, rest), k) {
        assert !Writes(body, k);
        assert !Writes(Scoped(inner, body), k);
        assert !Writes(rest, k);
      }
      NoWritesRestores(Scoped(inner, body), mid);
      NoWritesRestores(Scoped(outer, rest), s);
    }
  }

  // ---------------------------------------------------------------------
  // The registry and the four guards

  /** The four context variables `consortium_id_var`, `request_id_var`,
      `iteration_id_var` and `model_id_var`. */
  class Registry {
    const consortium: ContextVar<string>
    const request: ContextVar<string>
    const iteration: ContextVar<int>
    const model: ContextVar<string>

    /** The variables are independent: no two are the same object. */
    ghost predicate Valid() {
      consortium != request && consortium != model && request != model
    }

    constructor ()
      ensures Valid() && Snap() == Unset
      ensures fresh(consortium) && fresh(request) && fresh(iteration) && fresh(model)
    {
      consortium := new ContextVar<string>();
      request := new ContextVar<string>();
      iteration := new ContextVar<int>();
      model := new ContextVar<string>();
    }

    function Snap(): Snapshot
      reads consortium, request, iteration, model
    {
      Snapshot(consortium.value, request.value, iteration.value, model.value)
    }

    /** Runs the caller's work against the live variables. */
    method Run(w: Work) returns (outcome: Outcome, seen: seq<Snapshot>)
      requires Valid()
      modifies consortium, request, iteration, model
      ensures outcome == Exec(w, old(Snap())).outcome
      ensures seen == Exec(w, old(Snap())).seen
      ensures Snap() == Exec(w, old(Snap())).final
      decreases w, 0
    {
      match w
      case Pass =>
        outcome, seen := Normal, [];
      case Raise(e) =>
        outcome, seen := Raised(e), [];
      case Observe =>
        outcome, seen := Normal, [Snap()];
      case Assign(a) =>
        match a {
          case SetConsortium(v) =>
            var token := consortium.Set(v);
          case SetRequest(v) =>
            var token := request.Set(v);
          case SetIteration(v) =>
            var token := iteration.Set(v);
          case SetModel(v) =>
            var token := model.Set(v);
        }
        outcome, seen := Normal, [];
      case Then(a, b) =>
        outcome, seen := Run(a);
        if outcome.Normal? {
          var more;
          outcome, more := Run(b);
          seen := seen + more;
        }
      case Catch(a, h) =>
        outcome, seen := Run(a);
        if outcome.Raised? {
          var more;
          outcome, more := Run(h);
          seen := seen + more;
        }
      case Finally(a, c) =>
        var first;
        first, seen := Run(a);
        var last, more := Run(c);
        seen := seen + more;
        outcome := if last.Raised? then last else first;
      case Scoped(g, body) =>
        match g
        case ConsortiumGuard(id, hex) =>
          var ctx;
          ctx, outcome, seen := ConsortiumContext(id, hex, body);
        case IterationGuard(i) =>
          outcome, seen := IterationContext(i, body);
        case RequestGuard(id, hex) =>
          var requestId;
          requestId, outcome, seen := RequestContext(id, hex, body);
        case ModelGuard(m) =>
          outcome, seen := ModelContext(m, body);
    }

    /** `with consortium_context(consortium_id) as ctx: body` */
    method ConsortiumContext(id: Option<string>, freshHex: string, body: Work)
      returns (ctx: TracingContext, outcome: Outcome, seen: seq<Snapshot>)
      requires Valid()
      modifies consortium, request, iteration, model
      ensures fresh(ctx) && ctx.Valid() && ctx.IsNew()
      ensures ctx.consortiumId == NewConsortiumId(id, freshHex)
      ensures outcome == Exec(body, old(Snap()).(consortiumId := Some(ctx.consortiumId))).outcome
      ensures seen == Exec(body, old(Snap()).(consortiumId := Some(ctx.consortiumId))).seen
      ensures Snap() == Exec(body, old(Snap()).(consortiumId := Some(ctx.consortiumId))).final
                          .(consortiumId := old(Snap()).consortiumId)
      decreases body, 1
    {
      ctx := new TracingContext(id, freshHex);
      var token := consortium.Set(ctx.consortiumId);
      outcome, seen := Run(body);
      consortium.Reset(token);
    }

    /** `with iteration_context(iteration): body` */
    method IterationContext(i: int, body: Work) returns (outcome: Outcome, seen: seq<Snapshot>)
      requires Valid()
      modifies consortium, request, iteration, model
      ensures outcome == Exec(body, old(Snap()).(iterationId := Some(i))).outcome
      ensures seen == Exec(body, old(Snap()).(iterationId := Some(i))).seen
      ensures Snap() == Exec(body, old(Snap()).(iterationId := Some(i))).final.(iterationId := old(Snap()).iterationId)
      decreases body, 1
    {
      var token := iteration.Set(i);
      outcome, seen := Run(body);
      iteration.Reset(token);
    }

    /** `with request_context(request_id) as req_id: body` */
    method RequestContext(id: Option<string>, freshHex: string, body: Work)
      returns (requestId: string, outcome: Outcome, seen: seq<Snapshot>)
      requires Valid()
      modifies consortium, request, iteration, model
      ensures requestId == NewRequestId(id, freshHex)
      ensures outcome == Exec(body, old(Snap()).(requestId := Some(requestId))).outcome
      ensures seen == Exec(body, old(Snap()).(requestId := Some(requestId))).seen
      ensures Snap() == Exec(body, old(Snap()).(requestId := Some(requestId))).final.(requestId := old(Snap()).requestId)
      decreases body, 1
    {
      requestId := NewRequestId(id, freshHex);
      var token := request.Set(requestId);
      outcome, seen := Run(body);
      request.Reset(token);
    }

    /** `with model_context(model_id): body` */
    method ModelContext(m: string, body: Work) returns (outcome: Outcome, seen: seq<Snapshot>)
      requires Valid()
      modifies consortium, request, iteration, model
      ensures outcome == Exec(body, old(Snap()).(modelId := Some(m))).outcome
      ensures seen == Exec(body, old(Snap()).(modelId := Some(m))).seen
      ensures Snap() == Exec(body, old(Snap()).(modelId := Some(m))).final.(modelId := old(Snap()).modelId)
      decreases body, 1
    {
      var token := model.Set(m);
      outcome, seen := Run(body);
      model.Reset(token);
    }
  }

  // ---------------------------------------------------------------------
  // The metrics accumulator

  /** One entry of `TracingContext.errors`. */
  datatype ErrorRecord = ErrorRecord(error: string, typeName: string, context: Fields, timestamp: string)

  /** The sum of the values of a map. */
  ghost function Sum(m: map<string, int>): int
    decreases m.Keys
  {
    if m == map[] then 0
    else
      var k :| k in m;
      m[k] + Sum(m - {k})
  }

  /** `token_usage.get(model, 0)` */
  function Usage(m: map<string, int>, model: string): int {
    if model in m then m[model] else 0
  }

  lemma {:induction false} SumRemove(m: map<string, int>, k: string)
    requires k in m
    ensures Sum(m) == m[k] + Sum(m - {k})
    decreases m.Keys
  {
    var j :| j in m && Sum(m) == m[j] + Sum(m - {j});
    if j != k {
      SumRemove(m - {j}, k);
      SumRemove(m - {k}, j);
      assert m - {j} - {k} == m - {k} - {j};
    }
  }

  /** Adding `t` to one entry adds `t` to the sum, whether or not the entry
      was there before. */
  lemma SumAdd(m: map<string, int>, k: string, t: int)
    ensures Sum(m[k := Usage(m, k) + t]) == Sum(m) + t
  {
    var m' := m[k := Usage(m, k) + t];
    SumRemove(m', k);
    if k in m {
      SumRemove(m, k);
      assert m' - {k} == m - {k};
    } else {
      assert m' - {k} == m;
    }
  }

  /** `TracingContext`: the metrics of one consortium run. `Valid()` is its
      invariant: the token total is the sum of the per-model token counts. */
  class TracingContext {
    const consortiumId: string
    var totalTokens: int
    var modelCalls: nat
    var arbiterCalls: nat
    var iterationCount: nat
    var tokenUsage: map<string, int>
    var errors: seq<ErrorRecord>

    ghost predicate Valid()
      reads this
    {
      totalTokens == Sum(tokenUsage)
    }

    /** All counters at zero, no token usage and no errors. */
    ghost predicate IsNew()
      reads this
    {
      && totalTokens == 0 && modelCalls == 0 && arbiterCalls == 0 && iterationCount == 0
      && tokenUsage == map[] && errors == []
    }

    constructor (id: Option<string>, freshHex: string)
      ensures Valid() && IsNew()
      ensures consortiumId == NewConsortiumId(id, freshHex)
    {
      consortiumId := NewConsortiumId(id, freshHex);
      totalTokens, modelCalls, arbiterCalls, iterationCount := 0, 0, 0, 0;
      tokenUsage := map[];
      errors := [];
    }

    /** The context dictionary: the run's own id (not the context variable's),
        the other three identifiers as the registry holds them, and the time. */
    function GetContext(reg: Registry, timestamp: string): (ctx: Fields)
      reads reg.request, reg.iteration, reg.model
      ensures ctx.Keys == {"consortium_id", "request_id", "iteration_id", "model_id", "timestamp"}
      ensures ctx["consortium_id"] == Str(consortiumId)
      ensures ctx["request_id"] == OptStr(reg.request.value)
      ensures ctx["iteration_id"] == OptInt(reg.iteration.value)
      ensures ctx["model_id"] == OptStr(reg.model.value)
      ensures ctx["timestamp"] == Str(timestamp)
    {
      map[
        "consortium_id" := Str(consortiumId),
        "request_id" := OptStr(reg.request.value),
        "iteration_id" := OptInt(reg.iteration.value),
        "model_id" := OptStr(reg.model.value),
        "timestamp" := Str(timestamp)]
    }

    method AddTokens(model: string, tokens: int)
      requires Valid()
      modifies this
      ensures Valid()
      ensures tokenUsage == old(tokenUsage)[model := Usage(old(tokenUsage), model) + tokens]
      ensures totalTokens == old(totalTokens) + tokens
      ensures modelCalls == old(modelCalls) && arbiterCalls == old(arbiterCalls)
      ensures iterationCount == old(iterationCount) && errors == old(errors)
    {
      SumAdd(tokenUsage, model, tokens);
      tokenUsage := tokenUsage[model := Usage(tokenUsage, model) + tokens];
      totalTokens := totalTokens + tokens;
    }

    method IncrementModelCalls()
      requires Valid()
      modifies this
      ensures Valid()
      ensures modelCalls == old(modelCalls) + 1
      ensures arbiterCalls == old(arbiterCalls) && iterationCount == old(iterationCount)
      ensures totalTokens == old(totalTokens) && tokenUsage == old(tokenUsage) && errors == old(errors)
    {
      modelCalls := modelCalls + 1;
    }

    method IncrementArbiterCalls()
      requires Valid()
      modifies this
      ensures Valid()
      ensures arbiterCalls == old(arbiterCalls) + 1
      ensures modelCalls == old(modelCalls) && iterationCount == old(iterationCount)
      ensures totalTokens == old(totalTokens) && tokenUsage == old(tokenUsage) && errors == old(errors)
    {
      arbiterCalls := arbiterCalls + 1;
    }

    /** Records `str(error)`, `type(error).__name__`, the context and the time. */
    method AddError(error: string, typeName: string, context: Fields, timestamp: string)
      requires Valid()
      modifies this
      ensures Valid()
      ensures errors == old(errors) + [ErrorRecord(error, typeName, context, timestamp)]
      ensures modelCalls == old(modelCalls) && arbiterCalls == old(arbiterCalls)
      ensures iterationCount == old(iterationCount)
      ensures totalTokens == old(totalTokens) && tokenUsage == old(tokenUsage)
    {
      errors := errors + [ErrorRecord(error, typeName, context, timestamp)];
    }
  }
}
