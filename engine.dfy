/** `CqrsCommandEngine`: runs a create or update command through the event
    store and then hands the committed envelopes to every registered
    dispatcher. What a dispatcher does lives outside the engine; the engine
    keeps the sequence of `dispatch` calls it made and the errors it passed to
    its `error_handler`, and takes what each dispatcher reports as an input. */
module Engine {
  import opened Wrappers
  import opened Context
  import opened Aggregate
  import opened EsInMemory
  import opened EsImpl
  import opened EventStore
  import opened EngineSpec
  import Errors

  /** One `dispatcher.dispatch(aggregate_id, events, context)` call. */
  datatype DispatchCall<Ev> = DispatchCall(
    dispatcher: Dispatcher,
    aggregateId: string,
    events: seq<Envelope<Ev>>,
    context: CqrsContext)

  /** The calls `handle_events` makes: every dispatcher once, in order. */
  function Calls<Ev>(ds: seq<Dispatcher>, id: string, events: seq<Envelope<Ev>>, ctx: CqrsContext)
    : (r: seq<DispatchCall<Ev>>)
    ensures |r| == |ds|
    ensures forall i :: 0 <= i < |ds| ==> r[i] == DispatchCall(ds[i], id, events, ctx)
  {
    seq(|ds|, i requires 0 <= i < |ds| => DispatchCall(ds[i], id, events, ctx))
  }

  /** The errors `handle_events` passes to the error handler, in dispatcher order. */
  function Failures<Ev>(outcome: DispatchOutcome<Ev>, ds: seq<Dispatcher>, id: string,
                        events: seq<Envelope<Ev>>, ctx: CqrsContext): seq<Errors.CqrsError>
  {
    if |ds| == 0 then []
    else
      Failures(outcome, ds[..|ds| - 1], id, events, ctx) +
        match outcome(ds[|ds| - 1], id, events, ctx)
        case Pass => []
        case Fail(e) => [e]
  }

  /** An error reaches the error handler exactly when some dispatcher reported
      it; a failing dispatcher does not stop the later ones. */
  lemma {:induction false} FailuresReported<Ev>(outcome: DispatchOutcome<Ev>, ds: seq<Dispatcher>, id: string,
                                               events: seq<Envelope<Ev>>, ctx: CqrsContext)
    ensures |Failures(outcome, ds, id, events, ctx)| <= |ds|
    ensures forall e :: e in Failures(outcome, ds, id, events, ctx) <==>
      exists i :: 0 <= i < |ds| && outcome(ds[i], id, events, ctx) == Fail(e)
  {
    if |ds| > 0 {
      var init := ds[..|ds| - 1];
      FailuresReported(outcome, init, id, events, ctx);
      forall e ensures e in Failures(outcome, ds, id, events, ctx) <==>
        exists i :: 0 <= i < |ds| && outcome(ds[i], id, events, ctx) == Fail(e)
      {
        if e in Failures(outcome, ds, id, events, ctx) {
          if e in Failures(outcome, init, id, events, ctx) {
            var i :| 0 <= i < |init| && outcome(init[i], id, events, ctx) == Fail(e);
            assert ds[i] == init[i];
          } else {
            assert outcome(ds[|ds| - 1], id, events, ctx) == Fail(e);
          }
        }
        if exists i :: 0 <= i < |ds| && outcome(ds[i], id, events, ctx) == Fail(e) {
          var i :| 0 <= i < |ds| && outcome(ds[i], id, events, ctx) == Fail(e);
          if i < |ds| - 1 {
            assert init[i] == ds[i];
          }
        }
      }
    }
  }

  /** When every dispatcher succeeds the error handler is never called. */
  lemma {:induction false} AllPassNoFailures<Ev>(outcome: DispatchOutcome<Ev>, ds: seq<Dispatcher>, id: string,
                                                events: seq<Envelope<Ev>>, ctx: CqrsContext)
    requires forall i :: 0 <= i < |ds| ==> outcome(ds[i], id, events, ctx) == Pass
    ensures Failures(outcome, ds, id, events, ctx) == []
  {
    if |ds| > 0 {
      var init := ds[..|ds| - 1];
      assert forall i :: 0 <= i < |init| ==> init[i] == ds[i];
      AllPassNoFailures(outcome, init, id, events, ctx);
    }
  }

  /** The `for event in events { aggregate.apply(event)? }` loop. */
  method ApplyEvents<A, Ev, Err>(kind: AggregateKind<A, Ev, Err>, aggregate: A, events: seq<Ev>)
    returns (r: Result<A, Err>)
    ensures r == ApplyAll(kind, aggregate, events)
  {
    var a := aggregate;
    var i := 0;
    while i < |events|
      invariant 0 <= i <= |events|
      invariant ApplyAll(kind, aggregate, events) == ApplyAll(kind, a, events[i..])
    {
      assert events[i..][0] == events[i] && events[i..][1..] == events[i + 1..];
      var applied := kind.apply(a, events[i]);
      if applied.Failure? {
        return Failure(applied.error);
      }
      a := applied.value;
      i := i + 1;
    }
    r := Success(a);
  }

  class CqrsCommandEngine<A, Ev, Err, C, U> {
    const store: EventStoreImpl<A, Ev>
    const kind: AggregateKind<A, Ev, Err>
    const handler: CommandHandler<A, Ev, Err, C, U>
    var dispatchers: seq<Dispatcher>
    /** The `dispatch` calls made so far. */
    var calls: seq<DispatchCall<Ev>>
    /** The errors passed to `error_handler` so far. */
    var handled: seq<Errors.CqrsError>

    /** `CqrsCommandEngine::new`. */
    constructor (store: EventStoreImpl<A, Ev>, kind: AggregateKind<A, Ev, Err>,
                 handler: CommandHandler<A, Ev, Err, C, U>, dispatchers: seq<Dispatcher>)
      ensures this.store == store && this.kind == kind && this.handler == handler
      ensures this.dispatchers == dispatchers && calls == [] && handled == []
    {
      this.store := store;
      this.kind := kind;
      this.handler := handler;
      this.dispatchers := dispatchers;
      calls := [];
      handled := [];
    }

    /** `append_dispatcher`: the new dispatcher goes last. */
    method AppendDispatcher(d: Dispatcher)
      modifies this
      ensures dispatchers == old(dispatchers) + [d]
      ensures calls == old(calls) && handled == old(handled)
    {
      dispatchers := dispatchers + [d];
    }

    /** `handle_events`: every dispatcher in turn; a failure goes to the error
        handler and the loop goes on. */
    method HandleEvents(id: string, events: seq<Envelope<Ev>>, ctx: CqrsContext, outcome: DispatchOutcome<Ev>)
      modifies this
      ensures dispatchers == old(dispatchers)
      ensures calls == old(calls) + Calls(dispatchers, id, events, ctx)
      ensures handled == old(handled) + Failures(outcome, dispatchers, id, events, ctx)
    {
      var i := 0;
      while i < |dispatchers|
        invariant 0 <= i <= |dispatchers| && dispatchers == old(dispatchers)
        invariant calls == old(calls) + Calls(dispatchers[..i], id, events, ctx)
        invariant handled == old(handled) + Failures(outcome, dispatchers[..i], id, events, ctx)
      {
        var d := dispatchers[i];
        assert dispatchers[..i + 1][..i] == dispatchers[..i];
        assert Calls(dispatchers[..i + 1], id, events, ctx) ==
          Calls(dispatchers[..i], id, events, ctx) + [DispatchCall(d, id, events, ctx)];
        calls := calls + [DispatchCall(d, id, events, ctx)];
        var result := outcome(d, id, events, ctx);
        if result.Fail? {
          handled := handled + [result.error];
        }
        i := i + 1;
      }
      assert dispatchers[..i] == dispatchers;
    }

    /** What `handle_events` is given after a commit: nothing when no event was
        committed. */
    ghost function Notified(id: string, envelopes: seq<Envelope<Ev>>, ctx: CqrsContext): seq<DispatchCall<Ev>>
      reads this
    {
      if |envelopes| == 0 then [] else Calls(dispatchers, id, envelopes, ctx)
    }

    ghost function Reported(id: string, envelopes: seq<Envelope<Ev>>, ctx: CqrsContext,
                            outcome: DispatchOutcome<Ev>): seq<Errors.CqrsError>
      reads this
    {
      if |envelopes| == 0 then [] else Failures(outcome, dispatchers, id, envelopes, ctx)
    }

    /** `commit`, then `handle_events` on the committed envelopes unless there
        are none: the shared tail of `process` and `execute_update_with_metadata`. */
    method CommitAndDispatch(id: string, events: seq<Ev>, applied: A, metadata: map<string, string>,
                             version: nat, ctx: CqrsContext, rng: Entropy, outcome: DispatchOutcome<Ev>)
      returns (r: Result<seq<Envelope<Ev>>, Errors.CqrsError>)
      modifies this, store.persist
      ensures dispatchers == old(dispatchers)
      ensures var spec := CommitSpec(kind, old(store.persist.State()), events, applied, metadata, version, ctx, rng);
        && (spec.Failure? ==> r == Failure(spec.error) && store.persist.State() == old(store.persist.State())
                              && calls == old(calls) && handled == old(handled))
        && (spec.Success? ==> r == Success(spec.value.0) && store.persist.State() == spec.value.1
                              && calls == old(calls) + Notified(id, spec.value.0, ctx)
                              && handled == old(handled) + Reported(id, spec.value.0, ctx, outcome))
    {
      r := store.Commit(kind, events, applied, metadata, version, ctx, rng);
      if r.Failure? || |r.value| == 0 {
        return;
      }
      HandleEvents(id, r.value, ctx, outcome);
    }

    /** `process`: apply the events to the initialized aggregate, commit them,
        dispatch the committed envelopes. */
    method Process(id: string, aggregate: A, version: nat, events: seq<Ev>, metadata: map<string, string>,
                   ctx: CqrsContext, rng: Entropy, outcome: DispatchOutcome<Ev>)
      returns (r: Outcome<Errors.CqrsError>)
      modifies this, store.persist
      ensures dispatchers == old(dispatchers)
      ensures var applied := ApplyAll(kind, aggregate, events);
        && (applied.Failure? ==> r == Fail(UserErrorOf(kind, applied.error))
                                 && store.persist.State() == old(store.persist.State())
                                 && calls == old(calls) && handled == old(handled))
        && (applied.Success? ==>
              var spec := CommitSpec(kind, old(store.persist.State()), events, applied.value, metadata, version, ctx, rng);
              && (spec.Failure? ==> r == Fail(spec.error) && store.persist.State() == old(store.persist.State())
                                    && calls == old(calls) && handled == old(handled))
              && (spec.Success? ==> r == Pass && store.persist.State() == spec.value.1
                                    && calls == old(calls) + Notified(id, spec.value.0, ctx)
                                    && handled == old(handled) + Reported(id, spec.value.0, ctx, outcome)))
    {
      var applied := ApplyEvents(kind, aggregate, events);
      if applied.Failure? {
        return Fail(UserErrorOf(kind, applied.error));
      }
      var committed := CommitAndDispatch(id, events, applied.value, metadata, version, ctx, rng, outcome);
      if committed.Failure? {
        return Fail(committed.error);
      }
      r := Pass;
    }

    /** `execute_create_with_metadata`: a fresh id from the context, then
        initialize, `handle_create`, `process`; the result is the new id. */
    method ExecuteCreateWithMetadata(command: C, metadata: map<string, string>, ctx: CqrsContext,
                                     rng: Entropy, outcome: DispatchOutcome<Ev>)
      returns (r: Result<string, Errors.CqrsError>)
      modifies this, store.persist
      ensures dispatchers == old(dispatchers)
      ensures var spec := CreateSpec(kind, handler, old(store.persist.State()), command, metadata, ctx, rng);
        var id := NextUuid(ctx, rng(0));
        && (spec.Failure? ==> r == Failure(spec.error) && store.persist.State() == old(store.persist.State())
                              && calls == old(calls) && handled == old(handled))
        && (spec.Success? ==> r == Success(id) && store.persist.State() == spec.value.state
                              && calls == old(calls) + Notified(id, spec.value.envelopes, ctx)
                              && handled == old(handled) + Reported(id, spec.value.envelopes, ctx, outcome))
    {
      var id := NextUuid(ctx, rng(0));
      var initialized := InitializeAggregate(store, kind, id);
      if initialized.Failure? {
        return Failure(initialized.error);
      }
      var (aggregate, version) := initialized.value;
      var events := handler.handleCreate(aggregate, command, ctx, rng(1));
      if events.Failure? {
        return Failure(UserErrorOf(kind, events.error));
      }
      var processed := Process(id, aggregate, version, events.value, metadata, ctx, Shift(rng, 2), outcome);
      if processed.Fail? {
        return Failure(processed.error);
      }
      r := Success(id);
    }

    /** `execute_create`: no metadata. */
    method ExecuteCreate(command: C, ctx: CqrsContext, rng: Entropy, outcome: DispatchOutcome<Ev>)
      returns (r: Result<string, Errors.CqrsError>)
      modifies this, store.persist
      ensures dispatchers == old(dispatchers)
      ensures var spec := CreateSpec(kind, handler, old(store.persist.State()), command, map[], ctx, rng);
        var id := NextUuid(ctx, rng(0));
        && (spec.Failure? ==> r == Failure(spec.error) && store.persist.State() == old(store.persist.State())
                              && calls == old(calls) && handled == old(handled))
        && (spec.Success? ==> r == Success(id) && store.persist.State() == spec.value.state
                              && calls == old(calls) + Notified(id, spec.value.envelopes, ctx)
                              && handled == old(handled) + Reported(id, spec.value.envelopes, ctx, outcome))
    {
      r := ExecuteCreateWithMetadata(command, map[], ctx, rng, outcome);
    }

    /** `execute_update_with_metadata`: load, `handle_update`, apply, commit,
        dispatch. */
    method ExecuteUpdateWithMetadata(id: string, command: U, metadata: map<string, string>, ctx: CqrsContext,
                                     rng: Entropy, outcome: DispatchOutcome<Ev>)
      returns (r: Outcome<Errors.CqrsError>)
      modifies this, store.persist
      ensures dispatchers == old(dispatchers)
      ensures var spec := UpdateSpec(kind, handler, old(store.persist.State()), id, command, metadata, ctx, rng);
        && (spec.Failure? ==> r == Fail(spec.error) && store.persist.State() == old(store.persist.State())
                              && calls == old(calls) && handled == old(handled))
        && (spec.Success? ==> r == Pass && store.persist.State() == spec.value.state
                              && calls == old(calls) + Notified(id, spec.value.envelopes, ctx)
                              && handled == old(handled) + Reported(id, spec.value.envelopes, ctx, outcome))
    {
      var loaded := LoadAggregate(store, kind, id);
      if loaded.Failure? {
        return Fail(loaded.error);
      }
      var (aggregate, version) := loaded.value;
      var events := handler.handleUpdate(aggregate, command, ctx, rng(0));
      if events.Failure? {
        return Fail(UserErrorOf(kind, events.error));
      }
      var applied := ApplyEvents(kind, aggregate, events.value);
      if applied.Failure? {
        return Fail(UserErrorOf(kind, applied.error));
      }
      var committed := CommitAndDispatch(id, events.value, applied.value, metadata, version, ctx, Shift(rng, 1), outcome);
      if committed.Failure? {
        return Fail(committed.error);
      }
      r := Pass;
    }

    /** `execute_update`: no metadata. */
    method ExecuteUpdate(id: string, command: U, ctx: CqrsContext, rng: Entropy, outcome: DispatchOutcome<Ev>)
      returns (r: Outcome<Errors.CqrsError>)
      modifies this, store.persist
      ensures dispatchers == old(dispatchers)
      ensures var spec := UpdateSpec(kind, handler, old(store.persist.State()), id, command, map[], ctx, rng);
        && (spec.Failure? ==> r == Fail(spec.error) && store.persist.State() == old(store.persist.State())
                              && calls == old(calls) && handled == old(handled))
        && (spec.Success? ==> r == Pass && store.persist.State() == spec.value.state
                              && calls == old(calls) + Notified(id, spec.value.envelopes, ctx)
                              && handled == old(handled) + Reported(id, spec.value.envelopes, ctx, outcome))
    {
      r := ExecuteUpdateWithMetadata(id, command, map[], ctx, rng, outcome);
    }
  }
}
