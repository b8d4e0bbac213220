/** The to-do store: the user's to-do list mirrored from the server, with `loading`/`error`. */
module Todos {
  import opened Outcomes
  import opened RequestCycle
  import SeqOps

  datatype Todo = Todo(
    todolistId: int,
    title: string,
    startDatetime: string,
    endDatetime: Option<string>,
    isRecurring: string,
    category: Option<string>,
    memo: Option<string>,
    notification: Option<bool>,
    completed: bool,
    allDay: Option<bool>)

  function TodoIdOf(t: Todo): int { t.todolistId }

  class TodoStore {
    var todos: seq<Todo>
    var loading: bool
    var error: Option<ApiError>
    /** Every state announced to subscribers so far, oldest first. */
    ghost var published: seq<Snapshot<Todo>>

    constructor ()
      ensures todos == [] && !loading && error == None && published == []
    {
      todos, loading, error := [], false, None;
      published := [];
    }

    /** One `set` call: the current state is announced. */
    ghost method Publish()
      modifies this`published
      ensures published == old(published) + [Snapshot(todos, loading, error)]
    {
      published := published + [Snapshot(todos, loading, error)];
    }

    /** Entry step of every call. */
    method Begin()
      modifies this
      ensures todos == old(todos) && loading && error == None
      ensures published == old(published) + [Snapshot(todos, true, None)]
    {
      loading, error := true, None;
      Publish();
    }

    /** `finally` step of every call. */
    method Finish()
      modifies this
      ensures todos == old(todos) && !loading && error == old(error)
      ensures published == old(published) + [Snapshot(todos, false, error)]
    {
      loading := false;
      Publish();
    }

    /** `GET` the user's to-dos and replace the list wholesale. */
    method FetchTodos(userId: int, reply: Reply<seq<Todo>>)
      modifies this
      ensures todos == if reply.Ok? then reply.value else old(todos)
      ensures !loading && error == ErrorOf(reply)
      ensures published == old(published) + Cycle(old(todos), todos, error)
    {
      Begin();
      match reply {
        case Ok(fetched) => todos := fetched;
        case Err(e) => error := Some(e);
      }
      Publish();
      Finish();
    }

    /** `POST` a new to-do and append the one the server returns. */
    method AddTodo(reply: Reply<Todo>)
      modifies this
      ensures todos == if reply.Ok? then old(todos) + [reply.value] else old(todos)
      ensures !loading && error == ErrorOf(reply)
      ensures published == old(published) + Cycle(old(todos), todos, error)
    {
      Begin();
      match reply {
        case Ok(added) => todos := todos + [added];
        case Err(e) => error := Some(e);
      }
      Publish();
      Finish();
    }

    /** The body shared by `updateTodo` and `completeTodo`: the returned to-do replaces every item with that id. */
    method ReplaceById(todolistId: int, reply: Reply<Todo>)
      modifies this
      ensures todos == if reply.Ok? then SeqOps.ReplaceByKey(old(todos), TodoIdOf, todolistId, reply.value) else old(todos)
      ensures !loading && error == ErrorOf(reply)
      ensures published == old(published) + Cycle(old(todos), todos, error)
    {
      Begin();
      match reply {
        case Ok(updated) => todos := SeqOps.ReplaceByKey(todos, TodoIdOf, todolistId, updated);
        case Err(e) => error := Some(e);
      }
      Publish();
      Finish();
    }

    /** `PUT /todolists/:id` and put the returned to-do in place of every item with that id. */
    method UpdateTodo(todolistId: int, reply: Reply<Todo>)
      modifies this
      ensures todos == if reply.Ok? then SeqOps.ReplaceByKey(old(todos), TodoIdOf, todolistId, reply.value) else old(todos)
      ensures !loading && error == ErrorOf(reply)
      ensures published == old(published) + Cycle(old(todos), todos, error)
    {
      ReplaceById(todolistId, reply);
    }

    /** `DELETE /todolists/:id` and drop every item with that id. */
    method DeleteTodo(todolistId: int, reply: Reply<()>)
      modifies this
      ensures todos == if reply.Ok? then SeqOps.RemoveByKey(old(todos), TodoIdOf, todolistId) else old(todos)
      ensures !loading && error == ErrorOf(reply)
      ensures published == old(published) + Cycle(old(todos), todos, error)
    {
      Begin();
      match reply {
        case Ok(_) => todos := SeqOps.RemoveByKey(todos, TodoIdOf, todolistId);
        case Err(e) => error := Some(e);
      }
      Publish();
      Finish();
    }

    /** `PATCH /todolists/:id/complete`; the returned to-do replaces the items with that id. */
    method CompleteTodo(todolistId: int, isCompleted: bool, reply: Reply<Todo>)
      modifies this
      ensures todos == if reply.Ok? then SeqOps.ReplaceByKey(old(todos), TodoIdOf, todolistId, reply.value) else old(todos)
      ensures !loading && error == ErrorOf(reply)
      ensures published == old(published) + Cycle(old(todos), todos, error)
    {
      ReplaceById(todolistId, reply);
    }
  }
}
