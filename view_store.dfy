/** `InMemoryViewStore`: the read models of one view type, keyed by view id
    and updated one event at a time. */
module ViewStore {
  import opened Wrappers
  import opened Aggregate
  import Errors

  /** The view an event starts from: the stored one or, for a new key, the
      default (`entry(view_id).or_default()`). */
  function Previous<Ev, V>(kind: ViewKind<Ev, V>, m: map<string, V>, e: Envelope<Ev>): V
  {
    var id := kind.viewId(e);
    if id in m then m[id] else kind.default
  }

  /** The map after `update_view(e)`. `or_default` has already inserted the
      default when the key was missing, so even an update that returns
      nothing leaves the key present. */
  function UpdatedViews<Ev, V>(kind: ViewKind<Ev, V>, m: map<string, V>, e: Envelope<Ev>): map<string, V>
  {
    var prev := Previous(kind, m, e);
    match kind.update(prev, e)
    case Some(next) => m[kind.viewId(e) := next]
    case None => m[kind.viewId(e) := prev]
  }

  /** After `update_view(e)` the key `view_id(e)` is present and holds
      `update`'s result when there is one, else the previous view or the
      default; every other key keeps its view. */
  lemma UpdatedViewsLaws<Ev, V>(kind: ViewKind<Ev, V>, m: map<string, V>, e: Envelope<Ev>, other: string)
    ensures var r := UpdatedViews(kind, m, e);
      var id := kind.viewId(e);
      var prev := if id in m then m[id] else kind.default;
      && r.Keys == m.Keys + {id}
      && (kind.update(prev, e).Some? ==> r[id] == kind.update(prev, e).value)
      && (kind.update(prev, e).None? ==> r[id] == prev)
      && (other != id && other in m ==> r[other] == m[other])
  {
  }

  /** `update_view` on each event in turn. */
  function UpdatedAll<Ev, V>(kind: ViewKind<Ev, V>, m: map<string, V>, events: seq<Envelope<Ev>>): map<string, V>
    decreases |events|
  {
    if |events| == 0 then m else UpdatedAll(kind, UpdatedViews(kind, m, events[0]), events[1..])
  }

  /** Events for other views never touch a view: after any run of updates, a
      key no event maps to keeps its view, and a key some event maps to is
      present. */
  lemma {:induction false} UpdatedAllFrame<Ev, V>(kind: ViewKind<Ev, V>, m: map<string, V>,
                                                  events: seq<Envelope<Ev>>, key: string)
    ensures (forall i :: 0 <= i < |events| ==> kind.viewId(events[i]) != key) ==>
      (key in UpdatedAll(kind, m, events) <==> key in m)
      && (key in m ==> UpdatedAll(kind, m, events)[key] == m[key])
    ensures (exists i :: 0 <= i < |events| && kind.viewId(events[i]) == key) ==> key in UpdatedAll(kind, m, events)
    decreases |events|
  {
    if |events| > 0 {
      var m1 := UpdatedViews(kind, m, events[0]);
      UpdatedAllFrame(kind, m1, events[1..], key);
      if exists i :: 0 <= i < |events| && kind.viewId(events[i]) == key {
        var i :| 0 <= i < |events| && kind.viewId(events[i]) == key;
        if i > 0 {
          assert kind.viewId(events[1..][i - 1]) == key;
        } else {
          UpdatedAllKeeps(kind, m1, events[1..], key);
        }
      }
      if forall i :: 0 <= i < |events| ==> kind.viewId(events[i]) != key {
        assert kind.viewId(events[0]) != key;
        assert forall i :: 0 <= i < |events[1..]| ==> kind.viewId(events[1..][i]) != key by {
          forall i | 0 <= i < |events[1..]|
            ensures kind.viewId(events[1..][i]) != key
          {
            assert events[1..][i] == events[i + 1];
          }
        }
      }
    }
  }

  /** Updates never remove a key. */
  lemma {:induction false} UpdatedAllKeeps<Ev, V>(kind: ViewKind<Ev, V>, m: map<string, V>,
                                                  events: seq<Envelope<Ev>>, key: string)
    requires key in m
    ensures key in UpdatedAll(kind, m, events)
    decreases |events|
  {
    if |events| > 0 {
      UpdatedAllKeeps(kind, UpdatedViews(kind, m, events[0]), events[1..], key);
    }
  }

  class InMemoryViewStore<Ev, V> {
    const kind: ViewKind<Ev, V>
    /** The shared `HashMap<String, V>`. */
    var views: map<string, V>

    /** `new`: no views. */
    constructor (kind: ViewKind<Ev, V>)
      ensures this.kind == kind && views == map[]
    {
      this.kind := kind;
      views := map[];
    }

    /** `get_view`: the stored view, or None. */
    method GetView(id: string) returns (r: Option<V>)
      ensures id in views ==> r == Some(views[id])
      ensures id !in views ==> r == None
    {
      r := if id in views then Some(views[id]) else None;
    }

    /** `get_all_views`: the whole map. */
    method GetAllViews() returns (r: map<string, V>)
      ensures r == views
    {
      r := views;
    }

    /** `update_view`: find or insert the default, then store `update`'s
        result when there is one. It never fails. */
    method UpdateView(e: Envelope<Ev>) returns (r: Outcome<Errors.CqrsError>)
      modifies this
      ensures views == UpdatedViews(kind, old(views), e)
      ensures r == Pass
    {
      var id := kind.viewId(e);
      if id !in views {
        views := views[id := kind.default];
      }
      var view := views[id];
      var updated := kind.update(view, e);
      if updated.Some? {
        views := views[id := updated.value];
      }
      r := Pass;
    }

    /** `clear`: no views. */
    method Clear()
      modifies this
      ensures views == map[]
    {
      views := map[];
    }
  }
}
