/** The todo-list example aggregate: a named list of todos that can be
    added, removed, assigned and resolved, with the validation its command
    handler applies and the (inert) view it registers. */
module Todolist {
  import opened Wrappers
  import opened Context
  import opened Aggregate
  import opened TodolistEvents
  import opened TodolistErrors
  import ViewDispatcher
  import Errors

  // ---------------------------------------------------------------- trim

  /** Unicode's `White_Space` property: what `str::trim` strips. */
  predicate IsWhiteSpace(c: char)
  {
    || ('\U{0009}' <= c <= '\U{000D}') || c == ' ' || c == '\U{0085}' || c == '\U{00A0}' || c == '\U{1680}'
    || ('\U{2000}' <= c <= '\U{200A}') || c == '\U{2028}' || c == '\U{2029}' || c == '\U{202F}'
    || c == '\U{205F}' || c == '\U{3000}'
  }

  function TrimStart(s: string): string
    decreases |s|
  {
    if |s| > 0 && IsWhiteSpace(s[0]) then TrimStart(s[1..]) else s
  }

  function TrimEnd(s: string): string
    decreases |s|
  {
    if |s| > 0 && IsWhiteSpace(s[|s| - 1]) then TrimEnd(s[..|s| - 1]) else s
  }

  /** `str::trim`: white space removed from both ends. */
  function Trim(s: string): string
  {
    TrimEnd(TrimStart(s))
  }

  /** Every character is white space. */
  ghost predicate Blank(s: string)
  {
    forall i :: 0 <= i < |s| ==> IsWhiteSpace(s[i])
  }

  lemma {:induction false} TrimStartEmpty(s: string)
    ensures TrimStart(s) == [] <==> Blank(s)
    ensures TrimStart(s) == [] || !IsWhiteSpace(TrimStart(s)[0])
    decreases |s|
  {
    if |s| > 0 && IsWhiteSpace(s[0]) {
      TrimStartEmpty(s[1..]);
      assert Blank(s) <==> Blank(s[1..]) by {
        if Blank(s[1..]) {
          forall i | 0 <= i < |s| ensures IsWhiteSpace(s[i]) {
            if i > 0 { assert s[i] == s[1..][i - 1]; }
          }
        }
        if Blank(s) {
          forall i | 0 <= i < |s[1..]| ensures IsWhiteSpace(s[1..][i]) {
            assert s[1..][i] == s[i + 1];
          }
        }
      }
    }
  }

  lemma {:induction false} TrimEndEmpty(s: string)
    ensures TrimEnd(s) == [] <==> Blank(s)
    decreases |s|
  {
    if |s| > 0 && IsWhiteSpace(s[|s| - 1]) {
      var t := s[..|s| - 1];
      TrimEndEmpty(t);
      assert Blank(s) <==> Blank(t) by {
        if Blank(t) {
          forall i | 0 <= i < |s| ensures IsWhiteSpace(s[i]) {
            if i < |s| - 1 { assert s[i] == t[i]; }
          }
        }
      }
    }
  }

  /** `s.trim().is_empty()` holds exactly when `s` is all white space (the
      empty string included). */
  lemma TrimEmptyIffBlank(s: string)
    ensures Trim(s) == [] <==> Blank(s)
  {
    TrimStartEmpty(s);
    var t := TrimStart(s);
    TrimEndEmpty(t);
    if t != [] {
      assert !Blank(t) by { assert !IsWhiteSpace(t[0]); }
    }
  }

  // ---------------------------------------------------------------- state

  datatype Todo = Todo(id: string, title: string, assignee: Option<string>, resolved: bool)

  datatype TodoList = TodoList(id: string, name: string, todos: seq<Todo>)

  datatype CreateCommand = Create(name: string)

  datatype UpdateCommand =
    | AddTodo(title: string)
    | RemoveTodo(todoId: string)
    | AssignTodo(todoId: string, assignee: string)
    | ResolveTodo(todoId: string)

  /** Some todo has the id (`iter().any(|t| t.id == id)`). */
  predicate HasTodo(todos: seq<Todo>, id: string)
  {
    exists i :: 0 <= i < |todos| && todos[i].id == id
  }

  /** The position of the first todo with the id (`iter().find`). */
  function FindFirst(todos: seq<Todo>, id: string): (r: Option<nat>)
    ensures r.None? <==> !HasTodo(todos, id)
    ensures r.Some? ==>
      && r.value < |todos| && todos[r.value].id == id
      && forall j :: 0 <= j < r.value ==> todos[j].id != id
    decreases |todos|
  {
    if |todos| == 0 then None
    else if todos[0].id == id then Some(0)
    else
      match FindFirst(todos[1..], id)
      case None =>
        assert forall j :: 1 <= j < |todos| ==> todos[j] == todos[1..][j - 1];
        None
      case Some(i) =>
        assert forall j :: 1 <= j <= i ==> todos[j] == todos[1..][j - 1];
        Some(i + 1)
  }

  /** `retain(|t| t.id != id)`: the todos without that id, in order. */
  function Retain(todos: seq<Todo>, id: string): seq<Todo>
    decreases |todos|
  {
    if |todos| == 0 then []
    else (if todos[0].id != id then [todos[0]] else []) + Retain(todos[1..], id)
  }

  /** `retain` keeps exactly the todos with another id, never grows the list,
      drops something exactly when the id is present, and works piecewise,
      so the kept todos stay in their order. */
  lemma {:induction false} RetainLaws(todos: seq<Todo>, id: string)
    ensures forall t :: t in Retain(todos, id) <==> t in todos && t.id != id
    ensures |Retain(todos, id)| <= |todos|
    ensures |Retain(todos, id)| == |todos| <==> !HasTodo(todos, id)
    ensures !HasTodo(todos, id) ==> Retain(todos, id) == todos
    decreases |todos|
  {
    if |todos| > 0 {
      RetainLaws(todos[1..], id);
      assert todos == [todos[0]] + todos[1..];
      assert HasTodo(todos, id) <==> todos[0].id == id || HasTodo(todos[1..], id) by {
        if HasTodo(todos, id) {
          var i :| 0 <= i < |todos| && todos[i].id == id;
          if i > 0 { assert todos[1..][i - 1].id == id; }
        }
        if HasTodo(todos[1..], id) {
          var i :| 0 <= i < |todos[1..]| && todos[1..][i].id == id;
          assert todos[i + 1].id == id;
        }
      }
    }
  }

  lemma {:induction false} RetainConcat(xs: seq<Todo>, ys: seq<Todo>, id: string)
    ensures Retain(xs + ys, id) == Retain(xs, id) + Retain(ys, id)
    decreases |xs|
  {
    if |xs| == 0 {
      assert xs + ys == ys;
    } else {
      assert (xs + ys)[0] == xs[0];
      assert (xs + ys)[1..] == xs[1..] + ys;
      RetainConcat(xs[1..], ys, id);
    }
  }

  /** `iter_mut().find(|t| t.id == id)`, then `f` on what it found. */
  function UpdateFirst(todos: seq<Todo>, id: string, f: Todo -> Todo): (r: seq<Todo>)
    ensures |r| == |todos|
  {
    match FindFirst(todos, id)
    case None => todos
    case Some(i) => todos[i := f(todos[i])]
  }

  /** Only the first todo with the id changes, and nothing does when no todo
      has it. */
  lemma UpdateFirstLaws(todos: seq<Todo>, id: string, f: Todo -> Todo)
    ensures !HasTodo(todos, id) ==> UpdateFirst(todos, id, f) == todos
    ensures HasTodo(todos, id) ==>
      var i := FindFirst(todos, id).value;
      && UpdateFirst(todos, id, f)[i] == f(todos[i])
      && (forall j :: 0 <= j < |todos| && j != i ==> UpdateFirst(todos, id, f)[j] == todos[j])
      && (forall j :: 0 <= j < i ==> todos[j].id != id)
  {
  }

  function Assign(assignee: string): Todo -> Todo
  {
    (t: Todo) => t.(assignee := Some(assignee))
  }

  function Resolve(): Todo -> Todo
  {
    (t: Todo) => t.(resolved := true)
  }

  /** `apply`; it never fails. */
  function Apply(a: TodoList, e: TodolistEvent): Result<TodoList, Errors.CqrsError>
  {
    match e
    case TodoListCreated(name) => Success(a.(name := name))
    case TodoAdded(todoId, title) => Success(a.(todos := a.todos + [Todo(todoId, title, None, false)]))
    case TodoRemoved(todoId) => Success(a.(todos := Retain(a.todos, todoId)))
    case TodoAssignedTo(todoId, assignee) => Success(a.(todos := UpdateFirst(a.todos, todoId, Assign(assignee))))
    case TodoResolved(todoId) => Success(a.(todos := UpdateFirst(a.todos, todoId, Resolve())))
  }

  /** `apply` always succeeds and keeps id; creation sets only the name,
      every other event keeps the name; an added todo is appended
      unassigned and unresolved; removing drops all todos with the id;
      assigning and resolving rewrite one field of the first match. */
  lemma ApplyLaws(a: TodoList, e: TodolistEvent)
    ensures Apply(a, e).Success?
    ensures var b := Apply(a, e).value;
      && b.id == a.id
      && (e.TodoListCreated? ==> b == a.(name := e.name))
      && (!e.TodoListCreated? ==> b.name == a.name)
      && (e.TodoAdded? ==> b.todos == a.todos + [Todo(e.todoId, e.title, None, false)])
      && (e.TodoRemoved? ==>
            && !HasTodo(b.todos, e.todoId)
            && forall t :: t in b.todos <==> t in a.todos && t.id != e.todoId)
      && (e.TodoAssignedTo? && HasTodo(a.todos, e.todoId) ==>
            var i := FindFirst(a.todos, e.todoId).value;
            b.todos == a.todos[i := a.todos[i].(assignee := Some(e.assignee))])
      && (e.TodoResolved? && HasTodo(a.todos, e.todoId) ==>
            var i := FindFirst(a.todos, e.todoId).value;
            b.todos == a.todos[i := a.todos[i].(resolved := true)])
      && ((e.TodoAssignedTo? || e.TodoResolved?) && !HasTodo(a.todos, e.todoId) ==> b == a)
  {
    if e.TodoRemoved? {
      RetainLaws(a.todos, e.todoId);
      var kept := Retain(a.todos, e.todoId);
      assert forall i :: 0 <= i < |kept| ==> kept[i] in kept;
    }
  }

  // ---------------------------------------------------------------- handler

  /** "Todo '<id>' not found". */
  function NotFoundMessage(id: string): string
  {
    "Todo '" + id + "' not found"
  }

  /** "Todo '<id>' is already resolved". */
  function AlreadyResolvedMessage(id: string): string
  {
    "Todo '" + id + "' is already resolved"
  }

  /** `handle_create`. */
  function HandleCreate(a: TodoList, c: CreateCommand, ctx: CqrsContext, draw: Bytes16)
    : Result<seq<TodolistEvent>, Errors.CqrsError>
  {
    if Trim(c.name) == [] then Failure(Raise(ListNameRequired, "List name cannot be empty"))
    else Success([TodoListCreated(c.name)])
  }

  /** `handle_update`; `draw` is the random input of `context.next_uuid()`. */
  function HandleUpdate(a: TodoList, c: UpdateCommand, ctx: CqrsContext, draw: Bytes16)
    : Result<seq<TodolistEvent>, Errors.CqrsError>
  {
    match c
    case AddTodo(title) =>
      if Trim(title) == [] then Failure(Raise(EmptyTitle, "Todo title cannot be empty"))
      else Success([TodoAdded(NextUuid(ctx, draw), title)])
    case RemoveTodo(todoId) =>
      if !HasTodo(a.todos, todoId) then Failure(Raise(TodoNotFound, NotFoundMessage(todoId)))
      else Success([TodoRemoved(todoId)])
    case AssignTodo(todoId, assignee) =>
      if !HasTodo(a.todos, todoId) then Failure(Raise(TodoNotFound, NotFoundMessage(todoId)))
      else Success([TodoAssignedTo(todoId, assignee)])
    case ResolveTodo(todoId) =>
      match FindFirst(a.todos, todoId)
      case None => Failure(Raise(TodoNotFound, NotFoundMessage(todoId)))
      case Some(i) =>
        if a.todos[i].resolved then Failure(Raise(TodoAlreadyResolved, AlreadyResolvedMessage(todoId)))
        else Success([TodoResolved(todoId)])
  }

  /** A list name is refused with LIST_NAME_REQUIRED exactly when it is all
      white space; otherwise the one event records it. */
  lemma CreateOutcome(a: TodoList, c: CreateCommand, ctx: CqrsContext, draw: Bytes16)
    ensures var r := HandleCreate(a, c, ctx, draw);
      && (r.Failure? <==> Blank(c.name))
      && (r.Failure? ==> r.error == Raise(ListNameRequired, "List name cannot be empty")
                         && r.error.code == "TODOLIST_LIST_NAME_REQUIRED")
      && (r.Success? ==> r.value == [TodoListCreated(c.name)])
  {
    TrimEmptyIffBlank(c.name);
    ListNameRequiredCode();
  }

  /** A todo title is refused with EMPTY_TITLE exactly when it is all white
      space; otherwise the one event carries a fresh UUID and the title. */
  lemma AddTodoOutcome(a: TodoList, title: string, ctx: CqrsContext, draw: Bytes16)
    ensures var r := HandleUpdate(a, AddTodo(title), ctx, draw);
      && (r.Failure? <==> Blank(title))
      && (r.Failure? ==> r.error == Raise(EmptyTitle, "Todo title cannot be empty"))
      && (r.Success? ==> r.value == [TodoAdded(NextUuid(ctx, draw), title)] && |r.value[0].todoId| == 36)
  {
    TrimEmptyIffBlank(title);
    NextUuidLength(ctx, draw);
  }

  /** Removing, assigning and resolving an unknown todo fail with
      TODO_NOT_FOUND naming it; a known one gives exactly its event, except
      that resolving a resolved todo fails with TODO_ALREADY_RESOLVED. */
  lemma TargetedOutcome(a: TodoList, c: UpdateCommand, ctx: CqrsContext, draw: Bytes16)
    requires !c.AddTodo?
    ensures var r := HandleUpdate(a, c, ctx, draw);
      && (!HasTodo(a.todos, c.todoId) ==> r == Failure(Raise(TodoNotFound, NotFoundMessage(c.todoId))))
      && (HasTodo(a.todos, c.todoId) ==>
            var t := a.todos[FindFirst(a.todos, c.todoId).value];
            && (c.RemoveTodo? ==> r == Success([TodoRemoved(c.todoId)]))
            && (c.AssignTodo? ==> r == Success([TodoAssignedTo(c.todoId, c.assignee)]))
            && (c.ResolveTodo? && t.resolved ==>
                  r == Failure(Raise(TodoAlreadyResolved, AlreadyResolvedMessage(c.todoId))))
            && (c.ResolveTodo? && !t.resolved ==> r == Success([TodoResolved(c.todoId)])))
  {
  }

  /** The todo-list `Aggregate`: `TYPE` is `todolist`, its error type is
      `CqrsError` itself, displayed as `[internal_code] code: message`, and
      `error` is `CqrsError::from_status`. */
  function TodoKind(): AggregateKind<TodoList, TodolistEvent, Errors.CqrsError>
  {
    AggregateKind(
      "todolist",
      TodoList("", "", []),
      (a: TodoList) => a.id,
      (a: TodoList, id: string) => a.(id := id),
      Apply,
      (status: nat, details: string) => Errors.FromStatus(status, details),
      Errors.Display,
      EventType)
  }

  function TodoHandler(): CommandHandler<TodoList, TodolistEvent, Errors.CqrsError, CreateCommand, UpdateCommand>
  {
    CommandHandler(HandleCreate, HandleUpdate)
  }

  lemma TodoKeepsIdentity()
    ensures KeepsIdentity(TodoKind())
  {
    forall a: TodoList, e: TodolistEvent
      ensures TodoKind().apply(a, e).Success? && TodoKind().aggregateId(TodoKind().apply(a, e).value) == a.id
    {
      ApplyLaws(a, e);
    }
  }

  /** An accepted command, applied, does what it asked: the new todo is
      appended, the removed id is gone, the first match is assigned or
      resolved. */
  lemma {:induction false} HandledThenApplied(a: TodoList, c: UpdateCommand, ctx: CqrsContext, draw: Bytes16)
    requires HandleUpdate(a, c, ctx, draw).Success?
    ensures var b := ApplyAll(TodoKind(), a, HandleUpdate(a, c, ctx, draw).value);
      && b.Success? && b.value.id == a.id && b.value.name == a.name
      && (c.AddTodo? ==> b.value.todos == a.todos + [Todo(NextUuid(ctx, draw), c.title, None, false)])
      && (c.RemoveTodo? ==> !HasTodo(b.value.todos, c.todoId) && |b.value.todos| < |a.todos|)
      && (c.AssignTodo? ==> var i := FindFirst(a.todos, c.todoId).value;
            |b.value.todos| == |a.todos| && b.value.todos[i] == a.todos[i].(assignee := Some(c.assignee)))
      && (c.ResolveTodo? ==> var i := FindFirst(a.todos, c.todoId).value;
            |b.value.todos| == |a.todos| && !a.todos[i].resolved && b.value.todos[i].resolved && b.value.todos[i].id == c.todoId)
  {
    var events := HandleUpdate(a, c, ctx, draw).value;
    assert |events| == 1 && events[1..] == [];
    ApplyLaws(a, events[0]);
    if c.RemoveTodo? {
      RetainLaws(a.todos, c.todoId);
    }
  }

  /** The todo list is also its own `View`: `TYPE` `todolist`, not a child,
      keyed by the aggregate id; `update` never gives a view. */
  function TodoView(): ViewKind<TodolistEvent, TodoList>
  {
    ViewKind("todolist", false, (e: Envelope<TodolistEvent>) => e.aggregateId,
             (v: TodoList, e: Envelope<TodolistEvent>) => None, TodoList("", "", []))
  }

  /** Dispatching to this view never saves: whatever the storage, the view
      dispatcher leaves its state as it was. */
  lemma {:induction false} TodoViewNeverSaves<S>(storage: ViewDispatcher.ViewStorage<S, TodoList>, s: S, id: string,
                                                 events: seq<Envelope<TodolistEvent>>, ctx: CqrsContext)
    ensures ViewDispatcher.DispatchSpec(storage, TodoView(), s, id, events, ctx).1 == s
    decreases |events|
  {
    if |events| > 0 {
      TodoViewNeverSaves(storage, s, id, events[1..], ctx);
    }
  }
}
