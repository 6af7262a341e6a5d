/** The read side on the test view: the view store's own scenario, and the
    one place where the view store and the view dispatcher over a map
    disagree. */
module ViewScenarios {
  import opened Wrappers
  import opened Context
  import opened Aggregate
  import opened ViewStore
  import opened ViewDispatcher
  import opened Testing

  /** Two name events on `agg1` leave one view, with the second name and
      version 2; `clear` removes it. */
  method TwoUpdatesThenClear(at1: int, at2: int)
    returns (first: Option<TestView>, second: Option<TestView>, all: map<string, TestView>, cleared: Option<TestView>)
    ensures first == Some(TestView("agg1", "Test 1", 1))
    ensures second == Some(TestView("agg1", "Test 1 Updated", 2))
    ensures all.Keys == {"agg1"}
    ensures cleared == None
  {
    var store := new InMemoryViewStore(TestViewKind());
    var created := Envelope("event1", "agg1", 1, Created("Test 1"), map[], at1);
    var r1 := store.UpdateView(created);
    first := store.GetView("agg1");
    var updated := Envelope("event2", "agg1", 2, Updated("Test 1 Updated"), map[], at2);
    var r2 := store.UpdateView(updated);
    second := store.GetView("agg1");
    all := store.GetAllViews();
    store.Clear();
    cleared := store.GetView("agg1");
  }

  /** A counter event on a missing view: the view store keeps the default
      it inserted, the view dispatcher saves nothing. */
  lemma CounterEventOnMissingView(ctx: CqrsContext, at: int)
    ensures var e := Envelope("event1", "agg1", 1, Incremented, map[], at);
      && UpdatedViews(TestViewKind(), map[], e) == map["agg1" := TestView("", "", 0)]
      && DispatchSpec(MapStorage((v: TestView) => v.id), TestViewKind(), map[], "agg1", [e], ctx) == (Pass, map[])
  {
    var e := Envelope("event1", "agg1", 1, Incremented, map[], at);
    assert [e][1..] == [];
  }
}
