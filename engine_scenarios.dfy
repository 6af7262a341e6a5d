/** The engine's own scenarios on the test aggregate, over the in-memory
    store: create `toto`, then increment it, then increment it again. */
module EngineScenarios {
  import opened Wrappers
  import opened Context
  import opened Aggregate
  import opened EsInMemory
  import opened EsImpl
  import opened EngineSpec
  import opened Engine
  import opened Testing

  /** The storage after creating an aggregate named `name`. */
  lemma CreateNamed(st: StoreState<TestAggregate, TestEvent>, name: string, ctx: CqrsContext, rng: Entropy)
    requires Consistent(TestKind(), st) && NextUuid(ctx, rng(0)) !in st.snapshot
    ensures var id := NextUuid(ctx, rng(0));
      var r := CreateSpec(TestKind(), TestHandler(), st, Initialize(name), map[], ctx, rng);
      && r.Success?
      && Consistent(TestKind(), r.value.state)
      && Payloads(Stream(r.value.state.journal, id)) == [Created(name)]
      && id in r.value.state.snapshot
      && r.value.state.snapshot[id].state == TestAggregate(id, 0, name)
  {
    TestKeepsIdentity();
    var id := NextUuid(ctx, rng(0));
    var a := TestKind().withAggregateId(TestKind().default, id);
    assert ApplyAll(TestKind(), a, [Created(name)]) == Success(TestAggregate(id, 0, name)) by {
      assert [Created(name)][1..] == [];
    }
    CreateCommits(TestKind(), TestHandler(), st, Initialize(name), map[], ctx, rng);
    CreateKeepsConsistent(TestKind(), TestHandler(), st, Initialize(name), map[], ctx, rng);
  }

  /** The storage after one increment of an existing aggregate. */
  lemma IncrementOnce(st: StoreState<TestAggregate, TestEvent>, id: string, ctx: CqrsContext, rng: Entropy)
    requires Consistent(TestKind(), st) && id in st.snapshot
    ensures var r := UpdateSpec(TestKind(), TestHandler(), st, id, Increment, map[], ctx, rng);
      var s := st.snapshot[id].state;
      && r.Success?
      && Consistent(TestKind(), r.value.state)
      && Payloads(Stream(r.value.state.journal, id)) == Payloads(Stream(st.journal, id)) + [Incremented]
      && id in r.value.state.snapshot
      && r.value.state.snapshot[id].state == s.(counter := Wrap(s.counter + 1))
  {
    TestKeepsIdentity();
    var s := st.snapshot[id].state;
    assert ApplyAll(TestKind(), s, [Incremented]) == Success(s.(counter := Wrap(s.counter + 1))) by {
      assert [Incremented][1..] == [];
    }
    UpdateCommits(TestKind(), TestHandler(), st, id, Increment, map[], ctx, rng);
    UpdateKeepsConsistent(TestKind(), TestHandler(), st, id, Increment, map[], ctx, rng);
    var r := UpdateSpec(TestKind(), TestHandler(), st, id, Increment, map[], ctx, rng);
    PayloadsConcat(Stream(st.journal, id), r.value.envelopes);
  }

  /** Create an aggregate on a consistent storage, then increment it twice:
      every step succeeds and the journal of the new id holds the three events. */
  lemma CreateThenTwoIncrements(st0: StoreState<TestAggregate, TestEvent>, name: string,
                                ctx: CqrsContext, rng1: Entropy, rng2: Entropy, rng3: Entropy)
    requires Consistent(TestKind(), st0) && NextUuid(ctx, rng1(0)) !in st0.snapshot
    ensures var id := NextUuid(ctx, rng1(0));
      var c := CreateSpec(TestKind(), TestHandler(), st0, Initialize(name), map[], ctx, rng1);
      && c.Success?
      && var u1 := UpdateSpec(TestKind(), TestHandler(), c.value.state, id, Increment, map[], ctx, rng2);
      && u1.Success?
      && var u2 := UpdateSpec(TestKind(), TestHandler(), u1.value.state, id, Increment, map[], ctx, rng3);
      && u2.Success?
      && Payloads(Stream(u2.value.state.journal, id)) == [Created(name)] + [Incremented] + [Incremented]
  {
    var id := NextUuid(ctx, rng1(0));
    var c := CreateSpec(TestKind(), TestHandler(), st0, Initialize(name), map[], ctx, rng1);
    assert c.Success? && Consistent(TestKind(), c.value.state) && id in c.value.state.snapshot
      && Payloads(Stream(c.value.state.journal, id)) == [Created(name)] by {
      CreateNamed(st0, name, ctx, rng1);
    }
    var st1 := c.value.state;
    var u1 := UpdateSpec(TestKind(), TestHandler(), st1, id, Increment, map[], ctx, rng2);
    assert u1.Success? && Consistent(TestKind(), u1.value.state) && id in u1.value.state.snapshot
      && Payloads(Stream(u1.value.state.journal, id)) == [Created(name)] + [Incremented] by {
      IncrementOnce(st1, id, ctx, rng2);
    }
    var st2 := u1.value.state;
    var u2 := UpdateSpec(TestKind(), TestHandler(), st2, id, Increment, map[], ctx, rng3);
    assert u2.Success? && Payloads(Stream(u2.value.state.journal, id)) == [Created(name)] + [Incremented] + [Incremented] by {
      IncrementOnce(st2, id, ctx, rng3);
    }
  }

  /** Create, then two increments, with no dispatcher: the new id is a
      36-character UUID and its journal holds `Created("toto")`, `Incremented`,
      `Incremented`. */
  method MultipleUpdates(now: int, rng1: Entropy, rng2: Entropy, rng3: Entropy,
                         outcome: DispatchOutcome<TestEvent>)
    returns (id: string, events: seq<Envelope<TestEvent>>)
    ensures |id| == 36
    ensures Payloads(events) == [Created("toto")] + [Incremented] + [Incremented]
  {
    var persist := new InMemoryPersist<TestAggregate, TestEvent>();
    var store := new EventStoreImpl(persist);
    var engine := new CqrsCommandEngine(store, TestKind(), TestHandler(), []);
    var ctx := New(None, now);
    EmptyConsistent(TestKind());
    CreateThenTwoIncrements(persist.State(), "toto", ctx, rng1, rng2, rng3);
    NextUuidLength(ctx, rng1(0));

    var created := engine.ExecuteCreate(Initialize("toto"), ctx, rng1, outcome);
    id := created.value;
    var first := engine.ExecuteUpdate(id, Increment, ctx, rng2, outcome);
    var second := engine.ExecuteUpdate(id, Increment, ctx, rng3, outcome);
    events := store.LoadEvents(id);
  }
}
