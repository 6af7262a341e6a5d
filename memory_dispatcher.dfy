/** `InMemoryDispatcher`: a dispatcher that keeps, per aggregate id, every
    envelope it was handed, in the order it was handed them. */
module MemoryDispatcher {
  import opened Wrappers
  import opened Context
  import opened Aggregate
  import Errors

  /** What `get_events` reads from the map: the list of the id, empty when
      the id was never dispatched to. */
  function EventsOf<Ev>(m: map<string, seq<Envelope<Ev>>>, id: string): (r: seq<Envelope<Ev>>)
    ensures id in m ==> r == m[id]
    ensures id !in m ==> r == []
  {
    if id in m then m[id] else []
  }

  /** The map after `dispatch(id, events)`: the events appended to the list
      of `id`, which is created when absent. */
  function Dispatched<Ev>(m: map<string, seq<Envelope<Ev>>>, id: string, events: seq<Envelope<Ev>>)
    : map<string, seq<Envelope<Ev>>>
  {
    m[id := EventsOf(m, id) + events]
  }

  /** `dispatch` appends to the list of its id, creates that key, and leaves
      every other list as it was. */
  lemma DispatchedLaws<Ev>(m: map<string, seq<Envelope<Ev>>>, id: string, events: seq<Envelope<Ev>>, other: string)
    ensures Dispatched(m, id, events).Keys == m.Keys + {id}
    ensures EventsOf(Dispatched(m, id, events), id) == EventsOf(m, id) + events
    ensures other != id ==> EventsOf(Dispatched(m, id, events), other) == EventsOf(m, other)
  {
  }

  /** Two dispatches to one id are one dispatch of both batches, in order. */
  lemma DispatchedTwice<Ev>(m: map<string, seq<Envelope<Ev>>>, id: string, xs: seq<Envelope<Ev>>, ys: seq<Envelope<Ev>>)
    ensures Dispatched(Dispatched(m, id, xs), id, ys) == Dispatched(m, id, xs + ys)
  {
    assert EventsOf(m, id) + xs + ys == EventsOf(m, id) + (xs + ys);
  }

  /** Dispatching nothing creates the (empty) list of the id and changes no
      other list. */
  lemma DispatchedNothing<Ev>(m: map<string, seq<Envelope<Ev>>>, id: string)
    ensures Dispatched(m, id, []) == m[id := EventsOf(m, id)]
    ensures forall k :: EventsOf(Dispatched(m, id, []), k) == EventsOf(m, k)
  {
    assert EventsOf(m, id) + [] == EventsOf(m, id);
  }

  class InMemoryDispatcher<Ev> {
    /** The shared `HashMap<String, Vec<EventEnvelope>>`. */
    var events: map<string, seq<Envelope<Ev>>>

    /** `new`: no events. */
    constructor ()
      ensures events == map[]
    {
      events := map[];
    }

    /** `get_events`: the list of the id, or an empty list. */
    method GetEvents(id: string) returns (r: seq<Envelope<Ev>>)
      ensures id in events ==> r == events[id]
      ensures id !in events ==> r == []
    {
      r := if id in events then events[id] else [];
    }

    /** `get_all_events`: the whole map. */
    method GetAllEvents() returns (r: map<string, seq<Envelope<Ev>>>)
      ensures r == events
    {
      r := events;
    }

    /** `clear`: every list is gone. */
    method Clear()
      modifies this
      ensures events == map[]
      ensures forall id :: EventsOf(events, id) == []
    {
      events := map[];
    }

    /** `dispatch`: `entry(id).or_default()`, then one `push` per envelope.
        It never fails. */
    method Dispatch(id: string, batch: seq<Envelope<Ev>>, ctx: CqrsContext) returns (r: Outcome<Errors.CqrsError>)
      modifies this
      ensures events == Dispatched(old(events), id, batch)
      ensures r == Pass
    {
      if id !in events {
        events := events[id := []];
      }
      assert EventsOf(old(events), id) + batch[..0] == EventsOf(old(events), id);
      var i := 0;
      while i < |batch|
        invariant 0 <= i <= |batch|
        invariant id in events && events[id] == EventsOf(old(events), id) + batch[..i]
        invariant events == old(events)[id := events[id]]
      {
        assert batch[..i + 1] == batch[..i] + [batch[i]];
        events := events[id := events[id] + [batch[i]]];
        i := i + 1;
      }
      assert batch[..|batch|] == batch;
      r := Pass;
    }
  }

  /** The dispatcher's own scenario: two envelopes dispatched to `agg1` come
      back in order, the map has that one key, and `clear` empties it. */
  method DispatchTwoThenClear<Ev>(ctx: CqrsContext, first: Envelope<Ev>, second: Envelope<Ev>)
    returns (stored: seq<Envelope<Ev>>, all: map<string, seq<Envelope<Ev>>>, cleared: seq<Envelope<Ev>>)
    ensures stored == [first, second]
    ensures all.Keys == {"agg1"}
    ensures cleared == []
  {
    var dispatcher := new InMemoryDispatcher<Ev>();
    var outcome := dispatcher.Dispatch("agg1", [first, second], ctx);
    stored := dispatcher.GetEvents("agg1");
    all := dispatcher.GetAllEvents();
    dispatcher.Clear();
    cleared := dispatcher.GetEvents("agg1");
  }
}
