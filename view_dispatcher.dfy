/** `ViewDispatcher`: a dispatcher that folds each dispatched event into the
    view it maps to, through a view storage. */
module ViewDispatcher {
  import opened Wrappers
  import opened Context
  import opened Aggregate
  import opened ViewStore
  import Errors

  /** The two `Storage` calls the dispatcher makes, over the storage's state
      `S`: `find_by_id(parent_id, id, context)` reads it, and
      `save(entity, context)` gives the next state or an error. */
  datatype ViewStorage<!S, !V> = ViewStorage(
    findById: (S, Option<string>, string, CqrsContext) -> Result<Option<V>, Errors.CqrsError>,
    save: (S, V, CqrsContext) -> Result<S, Errors.CqrsError>)

  /** One event: look up its view under the aggregate id, fall back to the
      default, and save what `update` returns, if anything. */
  function Step<S, Ev, V>(storage: ViewStorage<S, V>, kind: ViewKind<Ev, V>, s: S, id: string,
                          e: Envelope<Ev>, ctx: CqrsContext): Result<S, Errors.CqrsError>
  {
    match storage.findById(s, Some(id), kind.viewId(e), ctx)
    case Failure(err) => Failure(err)
    case Success(found) =>
      var prev := if found.Some? then found.value else kind.default;
      match kind.update(prev, e)
      case None => Success(s)
      case Some(next) => storage.save(s, next, ctx)
  }

  /** `dispatch`: the events in order; the first storage error stops the run
      and is returned, with the state the earlier events left. */
  function DispatchSpec<S, Ev, V>(storage: ViewStorage<S, V>, kind: ViewKind<Ev, V>, s: S, id: string,
                                  events: seq<Envelope<Ev>>, ctx: CqrsContext): (Outcome<Errors.CqrsError>, S)
    decreases |events|
  {
    if |events| == 0 then (Pass, s)
    else
      match Step(storage, kind, s, id, events[0], ctx)
      case Failure(err) => (Fail(err), s)
      case Success(s1) => DispatchSpec(storage, kind, s1, id, events[1..], ctx)
  }

  /** The lookup is `find_by_id(Some(aggregate_id), view_id(e))`; a lookup
      error is returned at once; otherwise the view is saved exactly when
      `update` of the found view (or the default) returns one, and the saved
      value is that result. */
  lemma StepOutcome<S, Ev, V>(storage: ViewStorage<S, V>, kind: ViewKind<Ev, V>, s: S, id: string,
                              e: Envelope<Ev>, ctx: CqrsContext)
    ensures var found := storage.findById(s, Some(id), kind.viewId(e), ctx);
      var r := Step(storage, kind, s, id, e, ctx);
      && (found.Failure? ==> r == Failure(found.error))
      && (found.Success? ==>
            var prev := if found.value.Some? then found.value.value else kind.default;
            && (kind.update(prev, e).None? ==> r == Success(s))
            && (kind.update(prev, e).Some? ==> r == storage.save(s, kind.update(prev, e).value, ctx)))
  {
  }

  /** Dispatching `xs + ys` is dispatching `xs`, then, if that passed,
      dispatching `ys` from where it left the storage. */
  lemma {:induction false} DispatchConcat<S, Ev, V>(storage: ViewStorage<S, V>, kind: ViewKind<Ev, V>, s: S,
                                                    id: string, xs: seq<Envelope<Ev>>, ys: seq<Envelope<Ev>>,
                                                    ctx: CqrsContext)
    ensures var first := DispatchSpec(storage, kind, s, id, xs, ctx);
      DispatchSpec(storage, kind, s, id, xs + ys, ctx) ==
        if first.0.Fail? then first else DispatchSpec(storage, kind, first.1, id, ys, ctx)
    decreases |xs|
  {
    if |xs| == 0 {
      assert xs + ys == ys;
    } else {
      assert (xs + ys)[0] == xs[0];
      assert (xs + ys)[1..] == xs[1..] + ys;
      match Step(storage, kind, s, id, xs[0], ctx)
      case Failure(err) =>
      case Success(s1) => DispatchConcat(storage, kind, s1, id, xs[1..], ys, ctx);
    }
  }

  /** A storage whose calls never fail makes `dispatch` pass. */
  lemma {:induction false} ReliableStoragePasses<S(!new), Ev, V(!new)>(storage: ViewStorage<S, V>,
                                                                       kind: ViewKind<Ev, V>, s: S, id: string,
                                                                       events: seq<Envelope<Ev>>, ctx: CqrsContext)
    requires forall t: S, p: Option<string>, k: string :: storage.findById(t, p, k, ctx).Success?
    requires forall t: S, v: V :: storage.save(t, v, ctx).Success?
    ensures DispatchSpec(storage, kind, s, id, events, ctx).0 == Pass
    decreases |events|
  {
    if |events| > 0 {
      var s1 := Step(storage, kind, s, id, events[0], ctx);
      assert s1.Success?;
      ReliableStoragePasses(storage, kind, s1.value, id, events[1..], ctx);
    }
  }

  /** The run fails at event `i`: the events before it all went through, its
      step failed, and the run returns that error and the state before it. */
  ghost predicate FailsAt<S, Ev, V>(storage: ViewStorage<S, V>, kind: ViewKind<Ev, V>, s: S, id: string,
                                    events: seq<Envelope<Ev>>, ctx: CqrsContext, i: nat)
    requires i < |events|
  {
    var before := DispatchSpec(storage, kind, s, id, events[..i], ctx);
    && before.0 == Pass
    && Step(storage, kind, before.1, id, events[i], ctx).Failure?
    && DispatchSpec(storage, kind, s, id, events, ctx) ==
         (Fail(Step(storage, kind, before.1, id, events[i], ctx).error), before.1)
  }

  /** A failed dispatch failed on some event, every earlier event having
      gone through: the error is the error of that event's step. */
  lemma {:induction false} FailureHasCause<S, Ev, V>(storage: ViewStorage<S, V>, kind: ViewKind<Ev, V>, s: S,
                                                     id: string, events: seq<Envelope<Ev>>, ctx: CqrsContext)
    requires DispatchSpec(storage, kind, s, id, events, ctx).0.Fail?
    ensures exists i :: 0 <= i < |events| && FailsAt(storage, kind, s, id, events, ctx, i)
    decreases |events|
  {
    assert events[..0] == [];
    match Step(storage, kind, s, id, events[0], ctx)
    case Failure(err) =>
      assert DispatchSpec(storage, kind, s, id, events[..0], ctx) == (Pass, s);
      assert FailsAt(storage, kind, s, id, events, ctx, 0);
    case Success(s1) =>
      FailureHasCause(storage, kind, s1, id, events[1..], ctx);
      var j :| 0 <= j < |events[1..]| && FailsAt(storage, kind, s1, id, events[1..], ctx, j);
      var head := [events[0]];
      assert events[..j + 1] == head + events[1..][..j];
      assert head[1..] == [] && head[0] == events[0];
      assert DispatchSpec(storage, kind, s, id, head, ctx) == (Pass, s1);
      DispatchConcat(storage, kind, s, id, head, events[1..][..j], ctx);
      assert DispatchSpec(storage, kind, s, id, events[..j + 1], ctx) ==
        DispatchSpec(storage, kind, s1, id, events[1..][..j], ctx);
      assert events[1..][j] == events[j + 1];
      assert FailsAt(storage, kind, s, id, events, ctx, j + 1);
  }

  /** `dispatch`: the loop over the events. */
  method Dispatch<S, Ev, V>(storage: ViewStorage<S, V>, kind: ViewKind<Ev, V>, s: S, id: string,
                            events: seq<Envelope<Ev>>, ctx: CqrsContext)
    returns (r: Outcome<Errors.CqrsError>, s': S)
    ensures (r, s') == DispatchSpec(storage, kind, s, id, events, ctx)
  {
    s' := s;
    var i := 0;
    while i < |events|
      invariant 0 <= i <= |events|
      invariant DispatchSpec(storage, kind, s, id, events, ctx) == DispatchSpec(storage, kind, s', id, events[i..], ctx)
    {
      var event := events[i];
      assert events[i..][0] == event && events[i..][1..] == events[i + 1..];
      var viewId := kind.viewId(event);
      var found := storage.findById(s', Some(id), viewId, ctx);
      if found.Failure? {
        return Fail(found.error), s';
      }
      var prev := if found.value.Some? then found.value.value else kind.default;
      var next := kind.update(prev, event);
      if next.Some? {
        var saved := storage.save(s', next.value, ctx);
        if saved.Failure? {
          return Fail(saved.error), s';
        }
        s' := saved.value;
      }
      i := i + 1;
    }
    r := Pass;
  }

  /** A storage over a plain map of views, found by id and saved under the
      entity's own id (`HasId::id`); it never fails. */
  function MapStorage<V>(idOf: V -> string): ViewStorage<map<string, V>, V>
  {
    ViewStorage(
      (m: map<string, V>, parent: Option<string>, k: string, ctx: CqrsContext) =>
        Success(if k in m then Some(m[k]) else None),
      (m: map<string, V>, v: V, ctx: CqrsContext) => Success(m[idOf(v) := v]))
  }

  /** Over a map storage, for a view whose `update` always gives a view saved
      under the event's view id, the dispatcher and the in-memory view store
      leave the same views. */
  lemma {:induction false} DispatchAgreesWithViewStore<Ev(!new), V(!new)>(kind: ViewKind<Ev, V>, idOf: V -> string,
                                                                        m: map<string, V>, id: string,
                                                                        events: seq<Envelope<Ev>>, ctx: CqrsContext)
    requires forall v: V, e: Envelope<Ev> :: kind.update(v, e).Some? && idOf(kind.update(v, e).value) == kind.viewId(e)
    ensures DispatchSpec(MapStorage(idOf), kind, m, id, events, ctx) == (Pass, UpdatedAll(kind, m, events))
    decreases |events|
  {
    if |events| > 0 {
      var e := events[0];
      var next := kind.update(Previous(kind, m, e), e).value;
      assert Step(MapStorage(idOf), kind, m, id, e, ctx) == Success(m[idOf(next) := next]);
      DispatchAgreesWithViewStore(kind, idOf, UpdatedViews(kind, m, e), id, events[1..], ctx);
    }
  }
}
