/** The test fixture of the crate: `TestAggregate` (an id, an `i32` counter
    and a name), its events, commands, error and the `TestView` read model,
    given as the records the engine and the view dispatcher take. */
module Testing {
  import opened Wrappers
  import opened Context
  import opened Aggregate
  import Errors
  import Text

  /** Rust's `i32`. */
  type i32 = x: int | -0x8000_0000 <= x < 0x8000_0000

  /** Two's-complement wrap-around of an `i32` result (the release-build
      meaning of `+= 1` and `-= 1`). */
  function Wrap(x: int): (r: i32)
    ensures -0x8000_0000 <= x < 0x8000_0000 ==> r == x
    ensures (r - x) % 0x1_0000_0000 == 0
  {
    (x + 0x8000_0000) % 0x1_0000_0000 - 0x8000_0000
  }

  /** `TestError::TestError`, displayed as `Test error <text>`. */
  datatype TestError = TestError(text: string)

  function TestErrorDisplay(e: TestError): string
  {
    "Test error " + e.text
  }

  datatype CreateCommand = Initialize(name: string)

  datatype UpdateCommand = Increment | Decrement

  datatype TestEvent = Created(name: string) | Updated(name: string) | Incremented | Decremented

  /** `event_type`: the variant name. */
  function EventType(e: TestEvent): (r: string)
    ensures e.Created? <==> r == "Created"
    ensures e.Updated? <==> r == "Updated"
    ensures e.Incremented? <==> r == "Incremented"
    ensures e.Decremented? <==> r == "Decremented"
  {
    match e
    case Created(_) => "Created"
    case Updated(_) => "Updated"
    case Incremented => "Incremented"
    case Decremented => "Decremented"
  }

  datatype TestAggregate = TestAggregate(id: string, counter: i32, name: string)

  /** `apply`: the name events set the name, the counter events step the
      counter; it never fails. */
  function Apply(a: TestAggregate, e: TestEvent): Result<TestAggregate, TestError>
  {
    match e
    case Created(name) => Success(a.(name := name))
    case Updated(name) => Success(a.(name := name))
    case Incremented => Success(a.(counter := Wrap(a.counter + 1)))
    case Decremented => Success(a.(counter := Wrap(a.counter - 1)))
  }

  /** The `Aggregate` implementation: `TYPE` is `TEST`, `error` keeps only
      the details, and its error displays as `Test error <text>`. */
  function TestKind(): AggregateKind<TestAggregate, TestEvent, TestError>
  {
    AggregateKind(
      "TEST",
      TestAggregate("", 0, ""),
      (a: TestAggregate) => a.id,
      (a: TestAggregate, id: string) => a.(id := id),
      Apply,
      (status: nat, details: string) => TestError(details),
      TestErrorDisplay,
      EventType)
  }

  /** The `CommandHandler` implementation: one event per command. */
  function TestHandler(): CommandHandler<TestAggregate, TestEvent, TestError, CreateCommand, UpdateCommand>
  {
    CommandHandler(
      (a: TestAggregate, c: CreateCommand, ctx: CqrsContext, draw: Bytes16) => Success([Created(c.name)]),
      (a: TestAggregate, c: UpdateCommand, ctx: CqrsContext, draw: Bytes16) =>
        Success(if c.Increment? then [Incremented] else [Decremented]))
  }

  datatype TestView = TestView(id: string, name: string, version: nat)

  /** `TestView::update`: the name events give the view with the envelope's
      id, version and name; the counter events give nothing. */
  function UpdateView(v: TestView, e: Envelope<TestEvent>): Option<TestView>
  {
    match e.payload
    case Created(name) => Some(TestView(e.aggregateId, name, e.version))
    case Updated(name) => Some(TestView(e.aggregateId, name, e.version))
    case _ => None
  }

  /** The `View` implementation: `TEST_VIEW`, a child of its aggregate,
      keyed by the aggregate id. */
  function TestViewKind(): ViewKind<TestEvent, TestView>
  {
    ViewKind("TEST_VIEW", true, (e: Envelope<TestEvent>) => e.aggregateId, UpdateView, TestView("", "", 0))
  }

  /** The test aggregate obeys the identity laws the engine relies on. */
  lemma TestKeepsIdentity()
    ensures KeepsIdentity(TestKind())
  {
  }

  /** `with_aggregate_id` sets the id and nothing else. */
  lemma WithAggregateIdLaws(a: TestAggregate, id: string)
    ensures var r := TestKind().withAggregateId(a, id);
      && TestKind().aggregateId(r) == id
      && r.counter == a.counter && r.name == a.name
  {
  }

  /** `apply` always succeeds and keeps the id; the name events set the name
      and nothing else, the counter events keep the name; an increment is
      undone by a decrement, wrap-around included. */
  lemma ApplyLaws(a: TestAggregate, e: TestEvent)
    ensures Apply(a, e).Success? && Apply(a, e).value.id == a.id
    ensures e.Created? || e.Updated? ==> Apply(a, e).value == a.(name := e.name)
    ensures e.Incremented? || e.Decremented? ==> Apply(a, e).value.name == a.name
    ensures e.Incremented? ==> Apply(Apply(a, e).value, Decremented) == Success(a)
    ensures e.Decremented? ==> Apply(Apply(a, e).value, Incremented) == Success(a)
    ensures e.Incremented? && a.counter < 0x7FFF_FFFF ==> Apply(a, e).value.counter == a.counter + 1
    ensures e.Incremented? && a.counter == 0x7FFF_FFFF ==> Apply(a, e).value.counter == -0x8000_0000
  {
  }

  /** `k` increments. */
  function Increments(k: nat): (r: seq<TestEvent>)
    ensures |r| == k && forall i :: 0 <= i < k ==> r[i] == Incremented
  {
    seq(k, i => Incremented)
  }

  /** Replaying `k` increments adds `k` to the counter modulo 2^32 and keeps
      the id and the name. */
  lemma {:induction false} ReplayIncrements(a: TestAggregate, k: nat)
    ensures var r := ApplyAll(TestKind(), a, Increments(k));
      && r.Success?
      && r.value.id == a.id && r.value.name == a.name
      && r.value.counter == Wrap(a.counter + k)
    decreases k
  {
    if k > 0 {
      assert Increments(k)[1..] == Increments(k - 1);
      var next := Apply(a, Incremented).value;
      ReplayIncrements(next, k - 1);
      WrapShift(a.counter + 1, k - 1);
    }
  }

  /** Wrapping first does not change a later wrap. */
  lemma WrapShift(x: int, k: nat)
    ensures Wrap(Wrap(x) + k) == Wrap(x + k)
  {
    var m := 0x1_0000_0000;
    var d := (Wrap(x) - x) / m;
    assert Wrap(x) == x + d * m;
    assert Wrap(x) + k + 0x8000_0000 == (x + k + 0x8000_0000) + d * m;
  }

  /** The create handler records the name; the update handler emits the
      matching counter event. */
  lemma HandlerOutputs(a: TestAggregate, c: CreateCommand, u: UpdateCommand, ctx: CqrsContext, draw: Bytes16)
    ensures TestHandler().handleCreate(a, c, ctx, draw) == Success([Created(c.name)])
    ensures TestHandler().handleUpdate(a, u, ctx, draw) ==
      Success([if u == Increment then Incremented else Decremented])
  {
  }

  /** The view changes exactly on the name events, and then takes the
      envelope's id and version. */
  lemma ViewUpdateLaws(v: TestView, e: Envelope<TestEvent>)
    ensures UpdateView(v, e).Some? <==> (e.payload.Created? || e.payload.Updated?)
    ensures UpdateView(v, e).Some? ==>
      && UpdateView(v, e).value.id == e.aggregateId
      && UpdateView(v, e).value.version == e.version
      && UpdateView(v, e).value.name == e.payload.name
  {
  }

  /** What the engine reports for a failing test command: a domain error
      whose message is the test error's text, and whose display adds the
      code once. */
  lemma EngineErrorText(e: TestError)
    ensures UserErrorOf(TestKind(), e).message == "Test error " + e.text
    ensures Errors.Display(UserErrorOf(TestKind(), e)) ==
      "[" + "14" + "] " + "INFRASTRUCTURE_DOMAIN_ERROR" + ": " + "Test error " + e.text
  {
    var r := UserErrorOf(TestKind(), e);
    assert Text.NatToString(14) == "14";
    var prefix := "[" + "14" + "] " + "INFRASTRUCTURE_DOMAIN_ERROR" + ": ";
    assert Errors.Display(r) == prefix + ("Test error " + e.text);
    assert prefix + ("Test error " + e.text) == (prefix + "Test error ") + e.text;
  }
}
