/** The interfaces every aggregate, command handler, view and dispatcher
    implements, and the two records the store keeps: the event envelope and
    the snapshot. A Rust trait implementation becomes a record of its
    functions; `apply(&mut self, e)` becomes a function from the old state to
    the new one. */
module Aggregate {
  import opened Wrappers
  import opened Context
  import Errors

  /** `EventEnvelope`: one stored event of one aggregate instance. */
  datatype Envelope<Ev> = Envelope(
    eventId: string,
    aggregateId: string,
    version: nat,
    payload: Ev,
    metadata: map<string, string>,
    at: int)

  /** `Snapshot`: the latest state of an aggregate and the version it reflects. */
  datatype Snapshot<A> = Snapshot(aggregateId: string, state: A, version: nat)

  /** The `Aggregate` trait: `TYPE`, `Default`, `aggregate_id`,
      `with_aggregate_id`, `apply`, `error`; `display` is the error type's
      `to_string` (it implements `std::error::Error`, hence `Display`) and
      `eventType` its events' `event_type`. */
  datatype AggregateKind<!A, !Ev, !Err> = AggregateKind(
    typeName: string,
    default: A,
    aggregateId: A -> string,
    withAggregateId: (A, string) -> A,
    apply: (A, Ev) -> Result<A, Err>,
    error: (nat, string) -> Err,
    display: Err -> string,
    eventType: Ev -> string)

  /** The `CommandHandler` trait. The services are `()` in every handler of
      the crate and are left out; the draw is the random input of any
      `context.next_uuid()` the handler makes. */
  datatype CommandHandler<!A, Ev, Err, !C, !U> = CommandHandler(
    handleCreate: (A, C, CqrsContext, Bytes16) -> Result<seq<Ev>, Err>,
    handleUpdate: (A, U, CqrsContext, Bytes16) -> Result<seq<Ev>, Err>)

  /** The `View` trait: `TYPE`, `IS_CHILD_OF_AGGREGATE`, `view_id`, `update`, `Default`. */
  datatype ViewKind<!Ev, !V> = ViewKind(
    typeName: string,
    isChildOfAggregate: bool,
    viewId: Envelope<Ev> -> string,
    update: (V, Envelope<Ev>) -> Option<V>,
    default: V)

  /** A registered `Dispatcher`; what it does with the events lives outside
      the engine, so it is known by name and its outcome is an input. */
  datatype Dispatcher = Dispatcher(name: string)

  /** The outcome a dispatcher reports for `dispatch(aggregate_id, events, context)`. */
  type DispatchOutcome<!Ev> = (Dispatcher, string, seq<Envelope<Ev>>, CqrsContext) -> Outcome<Errors.CqrsError>

  /** Successive random draws: the n-th call of `rand::random` in one request. */
  type Entropy = nat -> Bytes16

  /** The same draws with the first `k` already used up. */
  function Shift(rng: Entropy, k: nat): (r: Entropy)
    ensures forall i: nat :: r(i) == rng(i + k)
  {
    (i: nat) => rng(i + k)
  }

  /** `AggregateError::UserError(e.into())`: the aggregate's error boxed as
      the cause of a domain error, which is what `CqrsError::user_error`
      builds: the message is the error's own `to_string`. */
  function UserErrorOf<A, Ev, Err>(kind: AggregateKind<A, Ev, Err>, e: Err): (r: Errors.CqrsError)
    ensures r.code == "INFRASTRUCTURE_DOMAIN_ERROR" && r.internalCode == 14 && r.status == 400
    ensures r.message == kind.display(e)
  {
    Errors.UserError(kind.display(e))
  }

  /** The payloads of a list of envelopes. */
  function Payloads<Ev>(s: seq<Envelope<Ev>>): (r: seq<Ev>)
    ensures |r| == |s|
    ensures forall i :: 0 <= i < |s| ==> r[i] == s[i].payload
  {
    seq(|s|, i requires 0 <= i < |s| => s[i].payload)
  }

  lemma PayloadsConcat<Ev>(s: seq<Envelope<Ev>>, t: seq<Envelope<Ev>>)
    ensures Payloads(s + t) == Payloads(s) + Payloads(t)
  {
  }

  /** `apply` on each event in turn, stopping at the first failure. */
  function ApplyAll<A, Ev, Err>(kind: AggregateKind<A, Ev, Err>, a: A, events: seq<Ev>): Result<A, Err>
    decreases |events|
  {
    if |events| == 0 then Success(a)
    else
      match kind.apply(a, events[0])
      case Failure(e) => Failure(e)
      case Success(next) => ApplyAll(kind, next, events[1..])
  }

  /** Applying `xs + ys` is applying `xs`, then `ys` to the result. */
  lemma {:induction false} ApplyAllConcat<A, Ev, Err>(kind: AggregateKind<A, Ev, Err>, a: A, xs: seq<Ev>, ys: seq<Ev>)
    ensures ApplyAll(kind, a, xs + ys) ==
      match ApplyAll(kind, a, xs)
      case Failure(e) => Failure(e)
      case Success(b) => ApplyAll(kind, b, ys)
  {
    if |xs| == 0 {
      assert xs + ys == ys;
    } else {
      assert (xs + ys)[0] == xs[0];
      assert (xs + ys)[1..] == xs[1..] + ys;
      match kind.apply(a, xs[0])
      case Failure(e) =>
      case Success(next) => ApplyAllConcat(kind, next, xs[1..], ys);
    }
  }

  /** The identity laws every aggregate of the crate obeys: `with_aggregate_id`
      sets the id that `aggregate_id` reads, and `apply` keeps it. */
  ghost predicate KeepsIdentity<A(!new), Ev(!new), Err>(kind: AggregateKind<A, Ev, Err>)
  {
    && (forall a: A, id: string :: kind.aggregateId(kind.withAggregateId(a, id)) == id)
    && (forall a: A, e: Ev :: kind.apply(a, e).Success? ==> kind.aggregateId(kind.apply(a, e).value) == kind.aggregateId(a))
  }

  /** Under the identity laws, replaying events never changes the id. */
  lemma {:induction false} ApplyAllKeepsIdentity<A(!new), Ev(!new), Err>(kind: AggregateKind<A, Ev, Err>, a: A, events: seq<Ev>)
    requires KeepsIdentity(kind)
    requires ApplyAll(kind, a, events).Success?
    ensures kind.aggregateId(ApplyAll(kind, a, events).value) == kind.aggregateId(a)
    decreases |events|
  {
    if |events| > 0 {
      var next := kind.apply(a, events[0]).value;
      ApplyAllKeepsIdentity(kind, next, events[1..]);
    }
  }
}
