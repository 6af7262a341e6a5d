/** The todo-list catalogue: domain `todolist`, prefix 20. */
module TodolistErrors {
  import opened Text
  import opened Errors

  datatype TodolistErrorCode = TodoNotFound | TodoAlreadyResolved | EmptyTitle | ListNameRequired

  /** The catalogue row of each variant: (index, status, tag). */
  function Entry(c: TodolistErrorCode): (r: ErrorCode)
    ensures r.domain == "todolist" && r.prefix == 20
  {
    match c
    case TodoNotFound => ErrorCode("todolist", 20, 1, 404, "TODO_NOT_FOUND")
    case TodoAlreadyResolved => ErrorCode("todolist", 20, 2, 409, "TODO_ALREADY_RESOLVED")
    case EmptyTitle => ErrorCode("todolist", 20, 3, 400, "EMPTY_TITLE")
    case ListNameRequired => ErrorCode("todolist", 20, 4, 400, "LIST_NAME_REQUIRED")
  }

  /** `ErrorCode::error(message)`. */
  function Raise(c: TodolistErrorCode, message: string): (r: CqrsError)
    ensures r.domain == "todolist" && r.message == message
    ensures r.internalCode == InternalCode(Entry(c)) && r.status == Entry(c).status
    ensures r.code == "TODOLIST_" + Entry(c).tag
  {
    var u := ToUpper("todolist");
    assert u == "TODOLIST";
    FromCode(Entry(c), message)
  }

  /** `From<ErrorCode> for CqrsError`: the display tag becomes the message. */
  function ToCqrsError(c: TodolistErrorCode): (r: CqrsError)
    ensures r.message == Entry(c).tag && r.code == "TODOLIST_" + r.message
  {
    Raise(c, Entry(c).tag)
  }

  /** The internal codes 20001..20004 and statuses 404, 409, 400, 400. */
  lemma Codes()
    ensures InternalCode(Entry(TodoNotFound)) == 20001 && Entry(TodoNotFound).status == 404
    ensures InternalCode(Entry(TodoAlreadyResolved)) == 20002 && Entry(TodoAlreadyResolved).status == 409
    ensures InternalCode(Entry(EmptyTitle)) == 20003 && Entry(EmptyTitle).status == 400
    ensures InternalCode(Entry(ListNameRequired)) == 20004 && Entry(ListNameRequired).status == 400
    ensures ToCqrsError(TodoNotFound).code == "TODOLIST_TODO_NOT_FOUND"
  {
  }

  lemma ListNameRequiredCode()
    ensures "TODOLIST_" + Entry(ListNameRequired).tag == "TODOLIST_LIST_NAME_REQUIRED"
  {
  }

  /** Every row fits the `u16` internal code, and rows are told apart by it. */
  lemma TableWellFormed(a: TodolistErrorCode, b: TodolistErrorCode)
    ensures InternalCode(Entry(a)) < 0x1_0000
    ensures InternalCode(Entry(a)) == InternalCode(Entry(b)) ==> a == b
  {
    InternalCodeFitsU16(Entry(a));
  }
}
