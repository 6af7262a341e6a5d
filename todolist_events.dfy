/** The todo-list events and their `event_type` tags. */
module TodolistEvents {
  datatype TodolistEvent =
    | TodoListCreated(name: string)
    | TodoAdded(todoId: string, title: string)
    | TodoRemoved(todoId: string)
    | TodoAssignedTo(todoId: string, assignee: string)
    | TodoResolved(todoId: string)

  /** `event_type`: the snake-case name of the variant. */
  function EventType(e: TodolistEvent): (r: string)
    ensures e.TodoListCreated? <==> r == "todo_list_created"
    ensures e.TodoAdded? <==> r == "todo_added"
    ensures e.TodoRemoved? <==> r == "todo_removed"
    ensures e.TodoAssignedTo? <==> r == "todo_assigned_to"
    ensures e.TodoResolved? <==> r == "todo_resolved"
  {
    match e
    case TodoListCreated(_) => "todo_list_created"
    case TodoAdded(_, _) => "todo_added"
    case TodoRemoved(_) => "todo_removed"
    case TodoAssignedTo(_, _) => "todo_assigned_to"
    case TodoResolved(_) => "todo_resolved"
  }

  /** The variant of an event, without its fields. */
  function Variant(e: TodolistEvent): nat
  {
    match e
    case TodoListCreated(_) => 0
    case TodoAdded(_, _) => 1
    case TodoRemoved(_) => 2
    case TodoAssignedTo(_, _) => 3
    case TodoResolved(_) => 4
  }

  /** The tag depends on the variant alone, and the five tags are pairwise
      distinct: two events share a tag exactly when they share a variant. */
  lemma EventTypeIsVariant(a: TodolistEvent, b: TodolistEvent)
    ensures EventType(a) == EventType(b) <==> Variant(a) == Variant(b)
  {
  }
}
