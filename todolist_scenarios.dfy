/** The todo-list aggregate run through the engine's pipelines: a blank
    list name is refused before anything is stored, and a created list
    takes its first todo. */
module TodolistScenarios {
  import opened Wrappers
  import opened Context
  import opened Aggregate
  import opened EsInMemory
  import opened EngineSpec
  import opened TodolistEvents
  import opened TodolistErrors
  import opened Todolist

  /** A blank list name fails the create with the domain error wrapping
      LIST_NAME_REQUIRED, and so nothing is committed. */
  lemma BlankListNameRefused(st: StoreState<TodoList, TodolistEvent>, name: string, metadata: map<string, string>,
                             ctx: CqrsContext, rng: Entropy)
    requires NextUuid(ctx, rng(0)) !in st.snapshot
    requires Blank(name)
    ensures CreateSpec(TodoKind(), TodoHandler(), st, Create(name), metadata, ctx, rng) ==
      Failure(UserErrorOf(TodoKind(), Raise(ListNameRequired, "List name cannot be empty")))
  {
    TrimEmptyIffBlank(name);
  }

  /** Creating a list under a fresh id stores the named, empty list. */
  lemma CreateList(st: StoreState<TodoList, TodolistEvent>, name: string, ctx: CqrsContext, rng: Entropy)
    requires Consistent(TodoKind(), st) && NextUuid(ctx, rng(0)) !in st.snapshot
    requires !Blank(name)
    ensures var id := NextUuid(ctx, rng(0));
      var r := CreateSpec(TodoKind(), TodoHandler(), st, Create(name), map[], ctx, rng);
      && r.Success?
      && Consistent(TodoKind(), r.value.state)
      && id in r.value.state.snapshot
      && r.value.state.snapshot[id].state == TodoList(id, name, [])
      && Payloads(Stream(r.value.state.journal, id)) == [TodoListCreated(name)]
  {
    TodoKeepsIdentity();
    TrimEmptyIffBlank(name);
    var id := NextUuid(ctx, rng(0));
    var a := TodoKind().withAggregateId(TodoKind().default, id);
    assert ApplyAll(TodoKind(), a, [TodoListCreated(name)]) == Success(TodoList(id, name, [])) by {
      assert [TodoListCreated(name)][1..] == [];
    }
    CreateCommits(TodoKind(), TodoHandler(), st, Create(name), map[], ctx, rng);
    CreateKeepsConsistent(TodoKind(), TodoHandler(), st, Create(name), map[], ctx, rng);
  }

  /** Adding a titled todo to a stored list appends it, unassigned and
      unresolved, under the UUID of the handler's draw. */
  lemma AddTodoToList(st: StoreState<TodoList, TodolistEvent>, id: string, title: string,
                      ctx: CqrsContext, rng: Entropy)
    requires Consistent(TodoKind(), st) && id in st.snapshot
    requires !Blank(title)
    ensures var before := st.snapshot[id].state;
      var r := UpdateSpec(TodoKind(), TodoHandler(), st, id, AddTodo(title), map[], ctx, rng);
      && r.Success?
      && Consistent(TodoKind(), r.value.state)
      && id in r.value.state.snapshot
      && r.value.state.snapshot[id].state ==
           before.(todos := before.todos + [Todo(NextUuid(ctx, rng(0)), title, None, false)])
  {
    TodoKeepsIdentity();
    TrimEmptyIffBlank(title);
    var a := st.snapshot[id].state;
    var e := TodoAdded(NextUuid(ctx, rng(0)), title);
    assert ApplyAll(TodoKind(), a, [e]) == Apply(a, e) by {
      assert [e][1..] == [];
    }
    UpdateCommits(TodoKind(), TodoHandler(), st, id, AddTodo(title), map[], ctx, rng);
    UpdateKeepsConsistent(TodoKind(), TodoHandler(), st, id, AddTodo(title), map[], ctx, rng);
  }

  /** From an empty storage: create a list named `name`, add `title`; the
      stored list holds that one todo. */
  lemma CreateThenAdd(name: string, title: string, ctx: CqrsContext, rng1: Entropy, rng2: Entropy)
    requires !Blank(name) && !Blank(title)
    ensures var id := NextUuid(ctx, rng1(0));
      var c := CreateSpec(TodoKind(), TodoHandler(), StoreState(map[], map[]), Create(name), map[], ctx, rng1);
      && c.Success?
      && var u := UpdateSpec(TodoKind(), TodoHandler(), c.value.state, id, AddTodo(title), map[], ctx, rng2);
      && u.Success?
      && id in u.value.state.snapshot
      && u.value.state.snapshot[id].state == TodoList(id, name, [Todo(NextUuid(ctx, rng2(0)), title, None, false)])
  {
    var st0: StoreState<TodoList, TodolistEvent> := StoreState(map[], map[]);
    EmptyConsistent(TodoKind());
    CreateList(st0, name, ctx, rng1);
    var c := CreateSpec(TodoKind(), TodoHandler(), st0, Create(name), map[], ctx, rng1);
    AddTodoToList(c.value.state, NextUuid(ctx, rng1(0)), title, ctx, rng2);
  }
}
