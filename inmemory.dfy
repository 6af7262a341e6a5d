/** `InMemoryPersist`: the in-memory event-store storage, a snapshot map and
    a journal map from aggregate id to its list of envelopes. The session
    lock of `start_session` only makes a commit atomic; here a commit is one
    step, so the session is left out and storage calls act on the maps. */
module EsInMemory {
  import opened Wrappers
  import opened Aggregate

  /** The two maps the storage holds. */
  datatype StoreState<A, Ev> = StoreState(
    snapshot: map<string, Snapshot<A>>,
    journal: map<string, seq<Envelope<Ev>>>)

  /** `journal.get(id).cloned().unwrap_or_default()`. */
  function Stream<Ev>(journal: map<string, seq<Envelope<Ev>>>, id: string): seq<Envelope<Ev>>
  {
    if id in journal then journal[id] else []
  }

  function SnapshotOf<A, Ev>(st: StoreState<A, Ev>, id: string): Option<Snapshot<A>>
  {
    if id in st.snapshot then Some(st.snapshot[id]) else None
  }

  /** `events.last().cloned()`. */
  function Last<Ev>(s: seq<Envelope<Ev>>): Option<Envelope<Ev>>
  {
    if |s| == 0 then None else Some(s[|s| - 1])
  }

  /** The version of the last stored event, 0 when there is none. */
  function LatestVersion<Ev>(s: seq<Envelope<Ev>>): nat
  {
    if |s| == 0 then 0 else s[|s| - 1].version
  }

  /** The stored events with a version above `v`, in stored order. */
  function EventsAfter<Ev>(s: seq<Envelope<Ev>>, v: nat): seq<Envelope<Ev>>
  {
    if |s| == 0 then []
    else EventsAfter(s[..|s| - 1], v) + (if s[|s| - 1].version > v then [s[|s| - 1]] else [])
  }

  /** What `save_events` leaves in the journal: nothing changes for an empty
      list, otherwise the events go, in order, after the journal of the first
      event's aggregate. */
  function Appended<Ev>(journal: map<string, seq<Envelope<Ev>>>, events: seq<Envelope<Ev>>): map<string, seq<Envelope<Ev>>>
  {
    if |events| == 0 then journal
    else journal[events[0].aggregateId := Stream(journal, events[0].aggregateId) + events]
  }

  /** Versions `1..N` with no gap and no repetition. */
  ghost predicate Contiguous<Ev>(s: seq<Envelope<Ev>>)
  {
    forall i :: 0 <= i < |s| ==> s[i].version == i + 1
  }

  /** An envelope is kept exactly when it is stored and newer than `v`. */
  lemma {:induction false} EventsAfterMembers<Ev>(s: seq<Envelope<Ev>>, v: nat)
    ensures forall e :: e in EventsAfter(s, v) <==> e in s && e.version > v
  {
    if |s| > 0 {
      EventsAfterMembers(s[..|s| - 1], v);
      assert s == s[..|s| - 1] + [s[|s| - 1]];
    }
  }

  /** The filter keeps stored order: on a contiguous journal it is the suffix
      after position `v`. */
  lemma {:induction false} EventsAfterContiguous<Ev>(s: seq<Envelope<Ev>>, v: nat)
    requires Contiguous(s) && v <= |s|
    ensures EventsAfter(s, v) == s[v..]
  {
    if |s| > 0 {
      var init := s[..|s| - 1];
      assert Contiguous(init) by {
        forall i | 0 <= i < |init| ensures init[i].version == i + 1 {
          assert init[i] == s[i];
        }
      }
      if v == |s| {
        EventsAfterNone(s, v);
      } else {
        EventsAfterContiguous(init, v);
        assert s[v..] == init[v..] + [s[|s| - 1]];
      }
    }
  }

  /** Nothing is newer than a version every stored event is at or below. */
  lemma {:induction false} EventsAfterNone<Ev>(s: seq<Envelope<Ev>>, v: nat)
    requires forall i :: 0 <= i < |s| ==> s[i].version <= v
    ensures EventsAfter(s, v) == []
  {
    if |s| > 0 {
      EventsAfterNone(s[..|s| - 1], v);
    }
  }

  /** In a contiguous journal the latest version is the length. */
  lemma LatestOfContiguous<Ev>(s: seq<Envelope<Ev>>)
    requires Contiguous(s)
    ensures LatestVersion(s) == |s|
  {
  }

  /** Appending envelopes numbered `|s|+1, |s|+2, …` keeps a journal contiguous. */
  lemma ContiguousAppend<Ev>(s: seq<Envelope<Ev>>, t: seq<Envelope<Ev>>)
    requires Contiguous(s)
    requires forall i :: 0 <= i < |t| ==> t[i].version == |s| + i + 1
    ensures Contiguous(s + t)
  {
    forall i | 0 <= i < |s + t| ensures (s + t)[i].version == i + 1 {
      if i >= |s| {
        assert (s + t)[i] == t[i - |s|];
      }
    }
  }

  /** `save_events` touches only the journal of the first event's aggregate. */
  lemma AppendedStream<Ev>(journal: map<string, seq<Envelope<Ev>>>, events: seq<Envelope<Ev>>, id: string)
    ensures Stream(Appended(journal, events), id) ==
      if |events| > 0 && id == events[0].aggregateId then Stream(journal, id) + events else Stream(journal, id)
  {
  }

  class InMemoryPersist<A, Ev> {
    var snapshot: map<string, Snapshot<A>>
    var journal: map<string, seq<Envelope<Ev>>>

    /** `InMemoryPersist::new`: both maps empty. */
    constructor ()
      ensures snapshot == map[] && journal == map[]
    {
      snapshot := map[];
      journal := map[];
    }

    function State(): StoreState<A, Ev>
      reads this
    {
      StoreState(snapshot, journal)
    }

    /** `fetch_snapshot`: the stored snapshot, or None. */
    method FetchSnapshot(id: string) returns (r: Option<Snapshot<A>>)
      ensures r.Some? <==> id in snapshot
      ensures r.Some? ==> r.value == snapshot[id]
    {
      r := if id in snapshot then Some(snapshot[id]) else None;
    }

    /** `fetch_events_from_version`: the stored events of `id` newer than `version`. */
    method FetchEventsFromVersion(id: string, version: nat) returns (r: seq<Envelope<Ev>>)
      ensures r == EventsAfter(Stream(journal, id), version)
    {
      var items := if id in journal then journal[id] else [];
      r := [];
      var i := 0;
      while i < |items|
        invariant 0 <= i <= |items|
        invariant r == EventsAfter(items[..i], version)
      {
        assert items[..i + 1][..i] == items[..i];
        if items[i].version > version {
          r := r + [items[i]];
        }
        i := i + 1;
      }
      assert items[..i] == items;
    }

    /** `fetch_all_events`: the whole journal of `id`, empty for an unknown id. */
    method FetchAllEvents(id: string) returns (r: seq<Envelope<Ev>>)
      ensures id in journal ==> r == journal[id]
      ensures id !in journal ==> r == []
    {
      r := if id in journal then journal[id] else [];
    }

    /** `fetch_latest_event`: the last envelope of the aggregate's journal. */
    method FetchLatestEvent<Err>(kind: AggregateKind<A, Ev, Err>, aggregate: A) returns (r: Option<Envelope<Ev>>)
      ensures var s := Stream(journal, kind.aggregateId(aggregate));
        && (r.None? <==> |s| == 0)
        && (r.Some? ==> r.value == s[|s| - 1])
    {
      var id := kind.aggregateId(aggregate);
      var events := if id in journal then journal[id] else [];
      r := if |events| == 0 then None else Some(events[|events| - 1]);
    }

    /** `save_events`: an empty list changes nothing; otherwise the events are
        pushed one by one onto the first event's journal, or become it. */
    method SaveEvents(events: seq<Envelope<Ev>>)
      modifies this
      ensures journal == Appended(old(journal), events)
      ensures snapshot == old(snapshot)
    {
      if |events| == 0 {
        return;
      }
      var id := events[0].aggregateId;
      if id in journal {
        var i := 0;
        assert old(journal)[id] + events[..0] == old(journal)[id];
        assert journal == old(journal)[id := old(journal)[id] + events[..0]];
        while i < |events|
          invariant 0 <= i <= |events|
          invariant id in journal
          invariant journal == old(journal)[id := old(journal)[id] + events[..i]]
          invariant snapshot == old(snapshot)
        {
          assert events[..i + 1] == events[..i] + [events[i]];
          assert journal[id] + [events[i]] == old(journal)[id] + events[..i + 1];
          journal := journal[id := journal[id] + [events[i]]];
          i := i + 1;
        }
        assert events[..i] == events;
      } else {
        assert Stream(journal, id) + events == events;
        journal := journal[id := events];
      }
    }

    /** `save_snapshot`: overwrites the aggregate's snapshot, other ids unchanged. */
    method SaveSnapshot<Err>(kind: AggregateKind<A, Ev, Err>, aggregate: A, version: nat)
      modifies this
      ensures var id := kind.aggregateId(aggregate);
        snapshot == old(snapshot)[id := Snapshot(id, aggregate, version)]
      ensures journal == old(journal)
    {
      var id := kind.aggregateId(aggregate);
      snapshot := snapshot[id := Snapshot(id, aggregate, version)];
    }
  }
}
