/** The write-side pipelines of `CqrsCommandEngine` as functions of the
    storage before the command: create (initialize, handle, apply, commit)
    and update (load, handle, apply, commit). Either one gives an error and
    leaves the storage as it was, or gives the committed envelopes and the
    storage after the commit. */
module EngineSpec {
  import opened Wrappers
  import opened Context
  import opened Aggregate
  import opened EsInMemory
  import opened EsImpl
  import opened EventStore
  import Errors

  datatype Committed<A, Ev> = Committed(envelopes: seq<Envelope<Ev>>, state: StoreState<A, Ev>)

  /** `execute_create_with_metadata`: the new id is the first draw's UUID,
      the handler gets the second draw, the envelopes the following ones. */
  function CreateSpec<A, Ev, Err, C, U>(kind: AggregateKind<A, Ev, Err>, handler: CommandHandler<A, Ev, Err, C, U>,
                                        st: StoreState<A, Ev>, command: C, metadata: map<string, string>,
                                        ctx: CqrsContext, rng: Entropy): Result<Committed<A, Ev>, Errors.CqrsError>
  {
    var id := NextUuid(ctx, rng(0));
    match InitializeSpec(kind, SnapshotOf(st, id), id)
    case Failure(e) => Failure(e)
    case Success((aggregate, version)) =>
      match handler.handleCreate(aggregate, command, ctx, rng(1))
      case Failure(e) => Failure(UserErrorOf(kind, e))
      case Success(events) =>
        match ApplyAll(kind, aggregate, events)
        case Failure(e) => Failure(UserErrorOf(kind, e))
        case Success(applied) =>
          match CommitSpec(kind, st, events, applied, metadata, version, ctx, Shift(rng, 2))
          case Failure(e) => Failure(e)
          case Success((envelopes, st')) => Success(Committed(envelopes, st'))
  }

  /** `execute_update_with_metadata`: the handler gets the first draw, the
      envelopes the following ones. */
  function UpdateSpec<A, Ev, Err, C, U>(kind: AggregateKind<A, Ev, Err>, handler: CommandHandler<A, Ev, Err, C, U>,
                                        st: StoreState<A, Ev>, id: string, command: U, metadata: map<string, string>,
                                        ctx: CqrsContext, rng: Entropy): Result<Committed<A, Ev>, Errors.CqrsError>
  {
    match LoadSpec(kind, SnapshotOf(st, id), Stream(st.journal, id))
    case Failure(e) => Failure(e)
    case Success((aggregate, version)) =>
      match handler.handleUpdate(aggregate, command, ctx, rng(0))
      case Failure(e) => Failure(UserErrorOf(kind, e))
      case Success(events) =>
        match ApplyAll(kind, aggregate, events)
        case Failure(e) => Failure(UserErrorOf(kind, e))
        case Success(applied) =>
          match CommitSpec(kind, st, events, applied, metadata, version, ctx, Shift(rng, 1))
          case Failure(e) => Failure(e)
          case Success((envelopes, st')) => Success(Committed(envelopes, st'))
  }

  /** What a storage written only by the engine looks like: every journal has
      a snapshot; every snapshot is stored under its own id, sits at the length
      of a contiguous journal of that id, and holds the state that replaying
      the whole journal on the fresh aggregate gives. */
  ghost predicate Consistent<A(!new), Ev(!new), Err>(kind: AggregateKind<A, Ev, Err>, st: StoreState<A, Ev>)
  {
    && (forall id :: id in st.journal ==> id in st.snapshot)
    && (forall id :: id in st.snapshot ==> SnapshotMatches(kind, st, id))
  }

  ghost predicate SnapshotMatches<A, Ev, Err>(kind: AggregateKind<A, Ev, Err>, st: StoreState<A, Ev>, id: string)
    requires id in st.snapshot
  {
    var snap := st.snapshot[id];
    var s := Stream(st.journal, id);
    && snap.aggregateId == id
    && Contiguous(s)
    && snap.version == |s|
    && kind.aggregateId(snap.state) == id
    && ApplyAll(kind, kind.withAggregateId(kind.default, id), Payloads(s)) == Success(snap.state)
  }

  /** The empty storage is consistent. */
  lemma EmptyConsistent<A(!new), Ev(!new), Err>(kind: AggregateKind<A, Ev, Err>)
    ensures Consistent(kind, StoreState(map[], map[]))
  {
  }

  /** On a consistent storage an existing aggregate loads as its snapshot. */
  lemma LoadConsistent<A(!new), Ev(!new), Err>(kind: AggregateKind<A, Ev, Err>, st: StoreState<A, Ev>, id: string)
    requires Consistent(kind, st) && id in st.snapshot
    ensures LoadSpec(kind, SnapshotOf(st, id), Stream(st.journal, id)) ==
      Success((st.snapshot[id].state, st.snapshot[id].version))
  {
    assert SnapshotMatches(kind, st, id);
    LoadUpToDate(kind, st.snapshot[id], Stream(st.journal, id));
  }

  /** The new snapshot of `id` matches when the committed state is the replay
      of the old journal followed by the new events. */
  lemma {:induction false} CommitMatches<A(!new), Ev(!new), Err>(
      kind: AggregateKind<A, Ev, Err>, st: StoreState<A, Ev>, id: string,
      a: A, events: seq<Ev>, metadata: map<string, string>, ctx: CqrsContext, rng: Entropy)
    requires KeepsIdentity(kind) && Consistent(kind, st)
    requires id !in st.journal || id in st.snapshot
    requires kind.aggregateId(a) == id
    requires ApplyAll(kind, kind.withAggregateId(kind.default, id), Payloads(Stream(st.journal, id))) == Success(a)
    requires Contiguous(Stream(st.journal, id))
    requires ApplyAll(kind, a, events).Success?
    requires var applied := ApplyAll(kind, a, events).value;
      CommitSpec(kind, st, events, applied, metadata, |Stream(st.journal, id)|, ctx, rng).Success?
    ensures var applied := ApplyAll(kind, a, events).value;
      Consistent(kind, CommitSpec(kind, st, events, applied, metadata, |Stream(st.journal, id)|, ctx, rng).value.1)
  {
    var applied := ApplyAll(kind, a, events).value;
    var version := |Stream(st.journal, id)|;
    ApplyAllKeepsIdentity(kind, a, events);
    assert kind.aggregateId(applied) == id;
    var (envs, st') := CommitSpec(kind, st, events, applied, metadata, version, ctx, rng).value;
    CommitState(kind, st, events, applied, metadata, version, ctx, rng, id);
    CommitEnvelopes(kind, st, events, applied, metadata, version, ctx, rng);
    CommitKeepsContiguous(kind, st, events, applied, metadata, version, ctx, rng);
    var s := Stream(st.journal, id);
    var s' := Stream(st'.journal, id);
    assert s' == s + envs;
    PayloadsConcat(s, envs);
    ApplyAllConcat(kind, kind.withAggregateId(kind.default, id), Payloads(s), Payloads(envs));
    assert SnapshotMatches(kind, st', id);
    forall other | other in st'.journal ensures other in st'.snapshot {
      if other != id {
        CommitState(kind, st, events, applied, metadata, version, ctx, rng, other);
      }
    }
    forall other | other in st'.snapshot ensures SnapshotMatches(kind, st', other) {
      if other != id {
        CommitState(kind, st, events, applied, metadata, version, ctx, rng, other);
        assert SnapshotMatches(kind, st, other);
      }
    }
  }

  /** A successful create keeps the storage consistent. */
  lemma CreateKeepsConsistent<A(!new), Ev(!new), Err, C, U>(
      kind: AggregateKind<A, Ev, Err>, handler: CommandHandler<A, Ev, Err, C, U>, st: StoreState<A, Ev>,
      command: C, metadata: map<string, string>, ctx: CqrsContext, rng: Entropy)
    requires KeepsIdentity(kind) && Consistent(kind, st)
    requires CreateSpec(kind, handler, st, command, metadata, ctx, rng).Success?
    ensures Consistent(kind, CreateSpec(kind, handler, st, command, metadata, ctx, rng).value.state)
  {
    var id := NextUuid(ctx, rng(0));
    var a := kind.withAggregateId(kind.default, id);
    var events := handler.handleCreate(a, command, ctx, rng(1)).value;
    assert id !in st.journal;
    assert Stream(st.journal, id) == [];
    assert Payloads(Stream(st.journal, id)) == [];
    CommitMatches(kind, st, id, a, events, metadata, ctx, Shift(rng, 2));
  }

  /** A successful update keeps the storage consistent. */
  lemma UpdateKeepsConsistent<A(!new), Ev(!new), Err, C, U>(
      kind: AggregateKind<A, Ev, Err>, handler: CommandHandler<A, Ev, Err, C, U>, st: StoreState<A, Ev>,
      id: string, command: U, metadata: map<string, string>, ctx: CqrsContext, rng: Entropy)
    requires KeepsIdentity(kind) && Consistent(kind, st)
    requires UpdateSpec(kind, handler, st, id, command, metadata, ctx, rng).Success?
    ensures Consistent(kind, UpdateSpec(kind, handler, st, id, command, metadata, ctx, rng).value.state)
  {
    LoadConsistent(kind, st, id);
    assert SnapshotMatches(kind, st, id);
    var a := st.snapshot[id].state;
    var events := handler.handleUpdate(a, command, ctx, rng(0)).value;
    CommitMatches(kind, st, id, a, events, metadata, ctx, Shift(rng, 1));
  }

  /** Create refuses an id that already has a snapshot, with the aggregate's
      CONFLICT error; an update of an id without one fails with its NOT_FOUND
      error. Neither writes anything. */
  lemma MissingOrExisting<A, Ev, Err, C, U>(
      kind: AggregateKind<A, Ev, Err>, handler: CommandHandler<A, Ev, Err, C, U>, st: StoreState<A, Ev>,
      id: string, create: C, update: U, metadata: map<string, string>, ctx: CqrsContext, rng: Entropy)
    ensures NextUuid(ctx, rng(0)) in st.snapshot ==>
      CreateSpec(kind, handler, st, create, metadata, ctx, rng) ==
        Failure(UserErrorOf(kind, kind.error(409, "Aggregate already exists")))
    ensures id !in st.snapshot ==>
      UpdateSpec(kind, handler, st, id, update, metadata, ctx, rng) ==
        Failure(UserErrorOf(kind, kind.error(404, "Aggregate not found")))
  {
  }

  /** On a consistent storage, a create whose handler and replay succeed is
      never rejected as a version conflict: the fresh id has no journal. */
  lemma CreateCommits<A(!new), Ev(!new), Err, C, U>(
      kind: AggregateKind<A, Ev, Err>, handler: CommandHandler<A, Ev, Err, C, U>, st: StoreState<A, Ev>,
      command: C, metadata: map<string, string>, ctx: CqrsContext, rng: Entropy)
    requires KeepsIdentity(kind) && Consistent(kind, st)
    requires NextUuid(ctx, rng(0)) !in st.snapshot
    requires var a := kind.withAggregateId(kind.default, NextUuid(ctx, rng(0)));
      var events := handler.handleCreate(a, command, ctx, rng(1));
      events.Success? && ApplyAll(kind, a, events.value).Success?
    ensures var id := NextUuid(ctx, rng(0));
      var a := kind.withAggregateId(kind.default, id);
      var events := handler.handleCreate(a, command, ctx, rng(1)).value;
      var r := CreateSpec(kind, handler, st, command, metadata, ctx, rng);
      && r.Success?
      && Stream(r.value.state.journal, id) == r.value.envelopes
      && Payloads(r.value.envelopes) == events
      && r.value.state.snapshot[id] == Snapshot(id, ApplyAll(kind, a, events).value, |events|)
  {
    var id := NextUuid(ctx, rng(0));
    var a := kind.withAggregateId(kind.default, id);
    var events := handler.handleCreate(a, command, ctx, rng(1)).value;
    var applied := ApplyAll(kind, a, events).value;
    ApplyAllKeepsIdentity(kind, a, events);
    assert id !in st.journal;
    assert Stream(st.journal, id) == [];
    CommitState(kind, st, events, applied, metadata, 0, ctx, Shift(rng, 2), id);
    CommitEnvelopes(kind, st, events, applied, metadata, 0, ctx, Shift(rng, 2));
  }

  /** An update on a consistent storage commits at the loaded version: the
      new events follow the journal and the snapshot moves to the applied
      state at the new length. */
  lemma UpdateCommits<A(!new), Ev(!new), Err, C, U>(
      kind: AggregateKind<A, Ev, Err>, handler: CommandHandler<A, Ev, Err, C, U>, st: StoreState<A, Ev>,
      id: string, command: U, metadata: map<string, string>, ctx: CqrsContext, rng: Entropy)
    requires KeepsIdentity(kind) && Consistent(kind, st)
    requires id in st.snapshot
    requires var a := st.snapshot[id].state;
      var events := handler.handleUpdate(a, command, ctx, rng(0));
      events.Success? && ApplyAll(kind, a, events.value).Success?
    ensures var a := st.snapshot[id].state;
      var events := handler.handleUpdate(a, command, ctx, rng(0)).value;
      var r := UpdateSpec(kind, handler, st, id, command, metadata, ctx, rng);
      && r.Success?
      && Stream(r.value.state.journal, id) == Stream(st.journal, id) + r.value.envelopes
      && Payloads(r.value.envelopes) == events
      && r.value.state.snapshot[id] ==
           Snapshot(id, ApplyAll(kind, a, events).value, |Stream(st.journal, id)| + |events|)
  {
    LoadConsistent(kind, st, id);
    assert SnapshotMatches(kind, st, id);
    var a := st.snapshot[id].state;
    var events := handler.handleUpdate(a, command, ctx, rng(0)).value;
    var applied := ApplyAll(kind, a, events).value;
    ApplyAllKeepsIdentity(kind, a, events);
    var n := |Stream(st.journal, id)|;
    LatestOfContiguous(Stream(st.journal, id));
    var c := CommitSpec(kind, st, events, applied, metadata, n, ctx, Shift(rng, 1));
    assert c.Success?;
    assert UpdateSpec(kind, handler, st, id, command, metadata, ctx, rng) == Success(Committed(c.value.0, c.value.1));
    CommitState(kind, st, events, applied, metadata, n, ctx, Shift(rng, 1), id);
    CommitEnvelopes(kind, st, events, applied, metadata, n, ctx, Shift(rng, 1));
  }

  /** Once the snapshot has loaded, an update is the commit, at the loaded
      version, of what the handler and `apply` produce. */
  lemma {:induction false} UpdateIsCommit<A, Ev, Err, C, U>(
      kind: AggregateKind<A, Ev, Err>, handler: CommandHandler<A, Ev, Err, C, U>, st: StoreState<A, Ev>,
      id: string, command: U, metadata: map<string, string>, ctx: CqrsContext, rng: Entropy,
      events: seq<Ev>, applied: A)
    requires id in st.snapshot && Contiguous(Stream(st.journal, id))
    requires st.snapshot[id].version == |Stream(st.journal, id)|
    requires handler.handleUpdate(st.snapshot[id].state, command, ctx, rng(0)) == Success(events)
    requires ApplyAll(kind, st.snapshot[id].state, events) == Success(applied)
    ensures var c := CommitSpec(kind, st, events, applied, metadata, |Stream(st.journal, id)|, ctx, Shift(rng, 1));
      && (c.Failure? ==> UpdateSpec(kind, handler, st, id, command, metadata, ctx, rng) == Failure(c.error))
      && (c.Success? ==> UpdateSpec(kind, handler, st, id, command, metadata, ctx, rng) == Success(Committed(c.value.0, c.value.1)))
  {
    LoadUpToDate(kind, st.snapshot[id], Stream(st.journal, id));
  }

  /** With fixed random bytes every create draws the same id, so a second
      create after a successful one is refused as already existing. */
  lemma FixedBytesCreateTwice<A(!new), Ev(!new), Err, C, U>(
      kind: AggregateKind<A, Ev, Err>, handler: CommandHandler<A, Ev, Err, C, U>, st: StoreState<A, Ev>,
      first: C, second: C, metadata: map<string, string>, metadata2: map<string, string>,
      ctx: CqrsContext, rng: Entropy, rng2: Entropy)
    requires KeepsIdentity(kind)
    requires ctx.randBytes.Some?
    requires CreateSpec(kind, handler, st, first, metadata, ctx, rng).Success?
    ensures var st' := CreateSpec(kind, handler, st, first, metadata, ctx, rng).value.state;
      CreateSpec(kind, handler, st', second, metadata2, ctx, rng2) ==
        Failure(UserErrorOf(kind, kind.error(409, "Aggregate already exists")))
  {
    var id := NextUuid(ctx, rng(0));
    assert NextUuid(ctx, rng2(0)) == id;
    var a := kind.withAggregateId(kind.default, id);
    var events := handler.handleCreate(a, first, ctx, rng(1)).value;
    var applied := ApplyAll(kind, a, events).value;
    ApplyAllKeepsIdentity(kind, a, events);
    CommitState(kind, st, events, applied, metadata, 0, ctx, Shift(rng, 2), id);
  }
}
