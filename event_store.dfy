/** The default methods of the `EventStore` trait: `initialize_aggregate`
    (refuse an id that already has a snapshot) and `load_aggregate` (the
    snapshot, then a replay of every stored event newer than it). */
module EventStore {
  import opened Wrappers
  import opened Aggregate
  import opened EsInMemory
  import opened EsImpl
  import Errors
  import Context

  /** `initialize_aggregate` given the stored snapshot of the id. */
  function InitializeSpec<A, Ev, Err>(kind: AggregateKind<A, Ev, Err>, snapshot: Option<Snapshot<A>>, id: string)
    : Result<(A, nat), Errors.CqrsError>
  {
    if snapshot.Some? then Failure(UserErrorOf(kind, kind.error(409, "Aggregate already exists")))
    else Success((kind.withAggregateId(kind.default, id), 0))
  }

  /** `load_aggregate` given the stored snapshot and the stored journal of the id. */
  function LoadSpec<A, Ev, Err>(kind: AggregateKind<A, Ev, Err>, snapshot: Option<Snapshot<A>>, stream: seq<Envelope<Ev>>)
    : Result<(A, nat), Errors.CqrsError>
  {
    if snapshot.None? then Failure(UserErrorOf(kind, kind.error(404, "Aggregate not found")))
    else
      var replay := EventsAfter(stream, snapshot.value.version);
      match ApplyAll(kind, snapshot.value.state, Payloads(replay))
      case Failure(e) => Failure(UserErrorOf(kind, e))
      case Success(a) => Success((a, if |replay| == 0 then snapshot.value.version else replay[|replay| - 1].version))
  }

  /** `initialize_aggregate` fails with the aggregate's CONFLICT error exactly
      when a snapshot exists; otherwise it gives the default state carrying
      the id, at version 0. */
  lemma InitializeOutcome<A, Ev, Err>(kind: AggregateKind<A, Ev, Err>, snapshot: Option<Snapshot<A>>, id: string)
    ensures var r := InitializeSpec(kind, snapshot, id);
      && (r.Failure? <==> snapshot.Some?)
      && (r.Failure? ==> r.error == UserErrorOf(kind, kind.error(409, "Aggregate already exists")))
      && (r.Success? ==> r.value.0 == kind.withAggregateId(kind.default, id) && r.value.1 == 0)
  {
  }

  /** Without a snapshot `load_aggregate` fails with the aggregate's NOT_FOUND
      error; a failing `apply` during replay fails it with that error. */
  lemma LoadFailures<A, Ev, Err>(kind: AggregateKind<A, Ev, Err>, snapshot: Option<Snapshot<A>>, stream: seq<Envelope<Ev>>)
    ensures snapshot.None? ==>
      LoadSpec(kind, snapshot, stream) == Failure(UserErrorOf(kind, kind.error(404, "Aggregate not found")))
    ensures snapshot.Some? ==>
      var r := ApplyAll(kind, snapshot.value.state, Payloads(EventsAfter(stream, snapshot.value.version)));
      r.Failure? ==> LoadSpec(kind, snapshot, stream) == Failure(UserErrorOf(kind, r.error))
  {
  }

  /** On a contiguous journal at least as long as the snapshot version, a load
      replays exactly the tail after the snapshot and returns the journal
      length (the snapshot version when there is no tail). */
  lemma LoadReplaysTail<A, Ev, Err>(kind: AggregateKind<A, Ev, Err>, snap: Snapshot<A>, stream: seq<Envelope<Ev>>)
    requires Contiguous(stream) && snap.version <= |stream|
    requires ApplyAll(kind, snap.state, Payloads(stream[snap.version..])).Success?
    ensures LoadSpec(kind, Some(snap), stream) ==
      Success((ApplyAll(kind, snap.state, Payloads(stream[snap.version..])).value, |stream|))
  {
    EventsAfterContiguous(stream, snap.version);
  }

  /** A snapshot at the journal's length replays nothing: the load returns
      the snapshot state and version. */
  lemma LoadUpToDate<A, Ev, Err>(kind: AggregateKind<A, Ev, Err>, snap: Snapshot<A>, stream: seq<Envelope<Ev>>)
    requires Contiguous(stream) && snap.version == |stream|
    ensures LoadSpec(kind, Some(snap), stream) == Success((snap.state, snap.version))
  {
    EventsAfterContiguous(stream, snap.version);
    assert stream[snap.version..] == [];
  }

  /** After a commit at the journal's length, a load gives back exactly the
      committed state at the new length. */
  lemma LoadAfterCommit<A, Ev, Err>(kind: AggregateKind<A, Ev, Err>, st: StoreState<A, Ev>, events: seq<Ev>,
                                    aggregate: A, metadata: map<string, string>, version: nat,
                                    ctx: Context.CqrsContext, rng: Entropy)
    requires Contiguous(Stream(st.journal, kind.aggregateId(aggregate)))
    requires version == |Stream(st.journal, kind.aggregateId(aggregate))|
    ensures var r := CommitSpec(kind, st, events, aggregate, metadata, version, ctx, rng);
      var key := kind.aggregateId(aggregate);
      && r.Success?
      && LoadSpec(kind, SnapshotOf(r.value.1, key), Stream(r.value.1.journal, key)) ==
           Success((aggregate, version + |events|))
  {
    var key := kind.aggregateId(aggregate);
    CommitLeavesSnapshot(kind, st, events, aggregate, metadata, version, ctx, rng);
    var st' := CommitSpec(kind, st, events, aggregate, metadata, version, ctx, rng).value.1;
    LoadUpToDate(kind, Snapshot(key, aggregate, version + |events|), Stream(st'.journal, key));
  }

  /** A commit at the length of a contiguous journal succeeds and leaves a
      snapshot at the new length of a journal that is still contiguous. */
  lemma CommitLeavesSnapshot<A, Ev, Err>(kind: AggregateKind<A, Ev, Err>, st: StoreState<A, Ev>, events: seq<Ev>,
                                         aggregate: A, metadata: map<string, string>, version: nat,
                                         ctx: Context.CqrsContext, rng: Entropy)
    requires Contiguous(Stream(st.journal, kind.aggregateId(aggregate)))
    requires version == |Stream(st.journal, kind.aggregateId(aggregate))|
    ensures var r := CommitSpec(kind, st, events, aggregate, metadata, version, ctx, rng);
      var key := kind.aggregateId(aggregate);
      && r.Success?
      && SnapshotOf(r.value.1, key) == Some(Snapshot(key, aggregate, version + |events|))
      && |Stream(r.value.1.journal, key)| == version + |events|
      && Contiguous(Stream(r.value.1.journal, key))
  {
    var key := kind.aggregateId(aggregate);
    LatestOfContiguous(Stream(st.journal, key));
    CommitVersionCheck(kind, st, events, aggregate, metadata, version, ctx, rng);
    CommitState(kind, st, events, aggregate, metadata, version, ctx, rng, key);
    CommitEnvelopes(kind, st, events, aggregate, metadata, version, ctx, rng);
    CommitKeepsContiguous(kind, st, events, aggregate, metadata, version, ctx, rng);
  }

  /** `initialize_aggregate`. */
  method InitializeAggregate<A, Ev, Err>(store: EventStoreImpl<A, Ev>, kind: AggregateKind<A, Ev, Err>, id: string)
    returns (r: Result<(A, nat), Errors.CqrsError>)
    ensures r == InitializeSpec(kind, SnapshotOf(store.persist.State(), id), id)
  {
    var maybeSnapshot := store.LoadSnapshot(id);
    if maybeSnapshot.Some? {
      return Failure(UserErrorOf(kind, kind.error(409, "Aggregate already exists")));
    }
    r := Success((kind.withAggregateId(kind.default, id), 0));
  }

  /** `load_aggregate`: the snapshot, then `apply` on each newer event. */
  method LoadAggregate<A, Ev, Err>(store: EventStoreImpl<A, Ev>, kind: AggregateKind<A, Ev, Err>, id: string)
    returns (r: Result<(A, nat), Errors.CqrsError>)
    ensures r == LoadSpec(kind, SnapshotOf(store.persist.State(), id), Stream(store.persist.journal, id))
  {
    var maybeSnapshot := store.LoadSnapshot(id);
    if maybeSnapshot.None? {
      return Failure(UserErrorOf(kind, kind.error(404, "Aggregate not found")));
    }
    var snapshot := maybeSnapshot.value;
    var agg := snapshot.state;
    var version := snapshot.version;
    var latestVersion := version;
    var eventStream := store.LoadEventsFromVersion(id, version);
    ghost var all := Payloads(eventStream);
    var i := 0;
    while i < |eventStream|
      invariant 0 <= i <= |eventStream|
      invariant ApplyAll(kind, snapshot.state, all) == ApplyAll(kind, agg, all[i..])
      invariant latestVersion == if i == 0 then version else eventStream[i - 1].version
    {
      var event := eventStream[i];
      assert all[i..][0] == event.payload && all[i..][1..] == all[i + 1..];
      var applied := kind.apply(agg, event.payload);
      if applied.Failure? {
        return Failure(UserErrorOf(kind, applied.error));
      }
      agg := applied.value;
      latestVersion := event.version;
      i := i + 1;
    }
    r := Success((agg, latestVersion));
  }
}
