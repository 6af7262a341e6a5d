/** `EventStoreImpl`: the event store over a storage backend (here the
    in-memory one). Loads delegate to the storage; `commit` is the optimistic
    concurrency check, the numbering of the new envelopes, and the writes of
    the events and of the snapshot, taken as one atomic step. */
module EsImpl {
  import opened Wrappers
  import opened Context
  import opened Aggregate
  import opened EsInMemory
  import Errors

  /** The envelopes `commit` builds: for the i-th event a fresh UUID from the
      i-th draw, the aggregate's id, version `version + i + 1`, the payload,
      the metadata and the context's clock reading. */
  function BuildEnvelopes<Ev>(events: seq<Ev>, id: string, metadata: map<string, string>, version: nat,
                              ctx: CqrsContext, rng: Entropy): seq<Envelope<Ev>>
  {
    seq(|events|, i requires 0 <= i < |events| =>
      Envelope(NextUuid(ctx, rng(i)), id, version + i + 1, events[i], metadata, ctx.now))
  }

  /** One commit as a single step over the storage: the envelopes it returns
      and the storage it leaves, or the version conflict. */
  function CommitSpec<A, Ev, Err>(kind: AggregateKind<A, Ev, Err>, st: StoreState<A, Ev>, events: seq<Ev>,
                                  aggregate: A, metadata: map<string, string>, version: nat,
                                  ctx: CqrsContext, rng: Entropy): Result<(seq<Envelope<Ev>>, StoreState<A, Ev>), Errors.CqrsError>
  {
    var key := kind.aggregateId(aggregate);
    if version != LatestVersion(Stream(st.journal, key)) then Failure(Errors.ConcurrencyErrorOf())
    else
      var envelopes := BuildEnvelopes(events, key, metadata, version, ctx, rng);
      Success((envelopes, StoreState(st.snapshot[key := Snapshot(key, aggregate, version + |envelopes|)],
                                     Appended(st.journal, envelopes))))
  }

  /** `commit` fails exactly when `version` is not the latest stored version
      (0 for an empty journal), and then with the concurrency error. */
  lemma CommitVersionCheck<A, Ev, Err>(kind: AggregateKind<A, Ev, Err>, st: StoreState<A, Ev>, events: seq<Ev>,
                                       aggregate: A, metadata: map<string, string>, version: nat,
                                       ctx: CqrsContext, rng: Entropy)
    ensures var r := CommitSpec(kind, st, events, aggregate, metadata, version, ctx, rng);
      && (r.Failure? <==> version != LatestVersion(Stream(st.journal, kind.aggregateId(aggregate))))
      && (r.Failure? ==> r.error == Errors.ConcurrencyErrorOf())
  {
  }

  /** The i-th new envelope carries version `version+i+1`, the aggregate's id,
      the metadata, the clock reading and the i-th payload, in order. */
  lemma CommitEnvelopes<A, Ev, Err>(kind: AggregateKind<A, Ev, Err>, st: StoreState<A, Ev>, events: seq<Ev>,
                                    aggregate: A, metadata: map<string, string>, version: nat,
                                    ctx: CqrsContext, rng: Entropy)
    requires CommitSpec(kind, st, events, aggregate, metadata, version, ctx, rng).Success?
    ensures var envs := CommitSpec(kind, st, events, aggregate, metadata, version, ctx, rng).value.0;
      && |envs| == |events|
      && Payloads(envs) == events
      && forall i :: 0 <= i < |envs| ==>
           && envs[i].version == version + i + 1
           && envs[i].aggregateId == kind.aggregateId(aggregate)
           && envs[i].metadata == metadata
           && envs[i].at == ctx.now
           && |envs[i].eventId| == 36
  {
    var envs := CommitSpec(kind, st, events, aggregate, metadata, version, ctx, rng).value.0;
    forall i | 0 <= i < |envs| ensures |envs[i].eventId| == 36 {
      NextUuidLength(ctx, rng(i));
    }
  }

  /** After a commit the snapshot of the aggregate holds the given state at
      `version + |events|`, the returned envelopes follow its old journal, and
      every other snapshot and journal is unchanged. */
  lemma CommitState<A, Ev, Err>(kind: AggregateKind<A, Ev, Err>, st: StoreState<A, Ev>, events: seq<Ev>,
                                aggregate: A, metadata: map<string, string>, version: nat,
                                ctx: CqrsContext, rng: Entropy, other: string)
    requires CommitSpec(kind, st, events, aggregate, metadata, version, ctx, rng).Success?
    ensures var key := kind.aggregateId(aggregate);
      var (envs, st') := CommitSpec(kind, st, events, aggregate, metadata, version, ctx, rng).value;
      && st'.snapshot == st.snapshot[key := Snapshot(key, aggregate, version + |events|)]
      && Stream(st'.journal, key) == Stream(st.journal, key) + envs
      && (other != key ==> Stream(st'.journal, other) == Stream(st.journal, other))
      && (other != key && other in st'.journal <==> other != key && other in st.journal)
  {
    var key := kind.aggregateId(aggregate);
    var (envs, st') := CommitSpec(kind, st, events, aggregate, metadata, version, ctx, rng).value;
    AppendedStream(st.journal, envs, key);
    AppendedStream(st.journal, envs, other);
    if |envs| == 0 {
      assert Stream(st.journal, key) + envs == Stream(st.journal, key);
    }
  }

  /** A journal written only through `commit` keeps versions `1..N`. */
  lemma CommitKeepsContiguous<A, Ev, Err>(kind: AggregateKind<A, Ev, Err>, st: StoreState<A, Ev>, events: seq<Ev>,
                                          aggregate: A, metadata: map<string, string>, version: nat,
                                          ctx: CqrsContext, rng: Entropy)
    requires Contiguous(Stream(st.journal, kind.aggregateId(aggregate)))
    requires CommitSpec(kind, st, events, aggregate, metadata, version, ctx, rng).Success?
    ensures var st' := CommitSpec(kind, st, events, aggregate, metadata, version, ctx, rng).value.1;
      Contiguous(Stream(st'.journal, kind.aggregateId(aggregate)))
  {
    var key := kind.aggregateId(aggregate);
    var s := Stream(st.journal, key);
    var envs := CommitSpec(kind, st, events, aggregate, metadata, version, ctx, rng).value.0;
    LatestOfContiguous(s);
    CommitState(kind, st, events, aggregate, metadata, version, ctx, rng, key);
    ContiguousAppend(s, envs);
  }

  /** Optimistic concurrency: once a commit of at least one event at `version`
      succeeded, any other commit for the same aggregate at that same version
      is rejected and stores nothing. */
  lemma CommitExclusive<A, Ev, Err>(kind: AggregateKind<A, Ev, Err>, st: StoreState<A, Ev>,
                                    events: seq<Ev>, aggregate: A, events2: seq<Ev>, aggregate2: A,
                                    metadata: map<string, string>, metadata2: map<string, string>, version: nat,
                                    ctx: CqrsContext, ctx2: CqrsContext, rng: Entropy, rng2: Entropy)
    requires |events| > 0
    requires kind.aggregateId(aggregate2) == kind.aggregateId(aggregate)
    requires CommitSpec(kind, st, events, aggregate, metadata, version, ctx, rng).Success?
    ensures var st' := CommitSpec(kind, st, events, aggregate, metadata, version, ctx, rng).value.1;
      CommitSpec(kind, st', events2, aggregate2, metadata2, version, ctx2, rng2) == Failure(Errors.ConcurrencyErrorOf())
  {
    var key := kind.aggregateId(aggregate);
    var (envs, st') := CommitSpec(kind, st, events, aggregate, metadata, version, ctx, rng).value;
    CommitState(kind, st, events, aggregate, metadata, version, ctx, rng, key);
    var s' := Stream(st'.journal, key);
    assert s'[|s'| - 1] == envs[|envs| - 1];
    assert LatestVersion(s') == version + |events|;
  }

  /** With fixed random bytes every envelope of a commit gets the same event
      id, the UUID of those bytes. */
  lemma CommitFixedBytesRepeatIds<A, Ev, Err>(kind: AggregateKind<A, Ev, Err>, st: StoreState<A, Ev>, events: seq<Ev>,
                                              aggregate: A, metadata: map<string, string>, version: nat,
                                              ctx: CqrsContext, rng: Entropy)
    requires ctx.randBytes.Some?
    requires CommitSpec(kind, st, events, aggregate, metadata, version, ctx, rng).Success?
    ensures var envs := CommitSpec(kind, st, events, aggregate, metadata, version, ctx, rng).value.0;
      forall i :: 0 <= i < |envs| ==> envs[i].eventId == UuidString(ctx.randBytes.value)
  {
    var envs := CommitSpec(kind, st, events, aggregate, metadata, version, ctx, rng).value.0;
    forall i | 0 <= i < |envs| ensures envs[i].eventId == UuidString(ctx.randBytes.value) {
      assert ctx.randBytes.GetOr(rng(i)) == ctx.randBytes.value;
    }
  }

  class EventStoreImpl<A, Ev> {
    const persist: InMemoryPersist<A, Ev>

    /** `EventStoreImpl::new`. */
    constructor (persist: InMemoryPersist<A, Ev>)
      ensures this.persist == persist
    {
      this.persist := persist;
    }

    /** `load_snapshot` delegates to `fetch_snapshot`. */
    method LoadSnapshot(id: string) returns (r: Option<Snapshot<A>>)
      ensures r == SnapshotOf(persist.State(), id)
    {
      r := persist.FetchSnapshot(id);
    }

    /** `load_events_from_version` delegates to `fetch_events_from_version`. */
    method LoadEventsFromVersion(id: string, version: nat) returns (r: seq<Envelope<Ev>>)
      ensures r == EventsAfter(Stream(persist.journal, id), version)
    {
      r := persist.FetchEventsFromVersion(id, version);
    }

    /** `load_events` delegates to `fetch_all_events`. */
    method LoadEvents(id: string) returns (r: seq<Envelope<Ev>>)
      ensures r == Stream(persist.journal, id)
    {
      r := persist.FetchAllEvents(id);
    }

    /** `commit`: read the latest event, reject a stale version, build the
        envelopes, save them, save the snapshot, return the envelopes. */
    method Commit<Err>(kind: AggregateKind<A, Ev, Err>, events: seq<Ev>, aggregate: A,
                       metadata: map<string, string>, version: nat, ctx: CqrsContext, rng: Entropy)
      returns (r: Result<seq<Envelope<Ev>>, Errors.CqrsError>)
      modifies persist
      ensures var spec := CommitSpec(kind, old(persist.State()), events, aggregate, metadata, version, ctx, rng);
        && (spec.Failure? ==> r == Failure(spec.error) && persist.State() == old(persist.State()))
        && (spec.Success? ==> r == Success(spec.value.0) && persist.State() == spec.value.1)
    {
      ghost var spec := CommitSpec(kind, persist.State(), events, aggregate, metadata, version, ctx, rng);
      ghost var key := kind.aggregateId(aggregate);
      var latestEvent := persist.FetchLatestEvent(kind, aggregate);
      var latestVersion := if latestEvent.Some? then latestEvent.value.version else 0;
      assert latestVersion == LatestVersion(Stream(persist.journal, key));
      if version != latestVersion {
        return Failure(Errors.ConcurrencyErrorOf());
      }
      var envelopes := BuildEnvelopes(events, kind.aggregateId(aggregate), metadata, version, ctx, rng);
      assert spec.value.0 == envelopes;
      persist.SaveEvents(envelopes);
      var nextLatestVersion := version + |envelopes|;
      persist.SaveSnapshot(kind, aggregate, nextLatestVersion);
      assert persist.State() == spec.value.1;
      r := Success(envelopes);
    }
  }
}
