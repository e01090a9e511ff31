/**
 * The to-do state container: the item and state records, the `Todo`
 * actions, the two selectors and the five action handlers, each handler as
 * a total function from the current state to the next one.
 *
 * The handlers compare ids the way JavaScript's `===` does on optional
 * strings: an absent id equals only an absent id. The id of a Delete or
 * ToggleDone action is declared a string, but the component fills it with
 * `todo.id!`, which is undefined for an item that has none; the model
 * therefore gives those actions an optional id too.
 */
module TodoState {
  import opened Wrappers
  import opened Seqs

  /** A to-do item; `id` is absent until the Add handler assigns one. */
  datatype TodoItem = TodoItem(id: Option<string>, title: string, done: bool)

  /** The state slice held by the store. */
  datatype TodoStateModel = TodoStateModel(todos: seq<TodoItem>)

  /**
   * The actions of the `Todo` namespace. FetchAll and TodoLogout carry no
   * payload; Add carries the title string the component dispatches.
   */
  datatype Action =
    | Add(title: string)
    | Edit(payload: TodoItem)
    | FetchAll
    | Delete(id: Option<string>)
    | ToggleDone(id: Option<string>)
    | TodoLogout

  /**
   * What the handlers obtain from outside the store: the items the data
   * service replies with, and the value `crypto.randomUUID()` returns.
   */
  datatype Env = Env(fetched: seq<TodoItem>, uuid: string)

  /** The state before any action: an empty list. */
  const Initial := TodoStateModel([])

  /** `todo.id === id`. */
  predicate HasId(t: TodoItem, id: Option<string>) {
    t.id == id
  }

  /** No item of `todos` carries `id`. */
  predicate IdFree(todos: seq<TodoItem>, id: Option<string>) {
    forall i :: 0 <= i < |todos| ==> !HasId(todos[i], id)
  }

  /** The item is still to be done: the filter of `todosLength`. */
  predicate Pending(t: TodoItem) {
    !t.done
  }

  /** The number of items of `todos` that are not done, counted one by one. */
  function CountPending(todos: seq<TodoItem>): nat {
    if todos == [] then 0
    else (if todos[0].done then 0 else 1) + CountPending(todos[1..])
  }

  /** Filtering out the done items leaves exactly as many items as there are pending ones. */
  lemma {:induction false} FilterCountsPending(todos: seq<TodoItem>)
    ensures |Filter(Pending, todos)| == CountPending(todos)
  {
    if todos != [] {
      FilterCountsPending(todos[1..]);
    }
  }

  // Selectors

  /** The `todos` selector: the list itself, whose length bounds the `todosLength` count. */
  function Todos(s: TodoStateModel): (r: seq<TodoItem>)
    ensures r == s.todos
    ensures TodosLength(s) <= |r|
  {
    s.todos
  }

  /** The `todosLength` selector: how many items are not done. */
  function TodosLength(s: TodoStateModel): (r: nat)
    ensures r == CountPending(s.todos)
    ensures r <= |s.todos|
    ensures r == |s.todos| <==> forall i :: 0 <= i < |s.todos| ==> !s.todos[i].done
    ensures r == 0 <==> forall i :: 0 <= i < |s.todos| ==> s.todos[i].done
  {
    FilterCountsPending(s.todos);
    |Filter(Pending, s.todos)|
  }

  // Handlers

  /** The FetchAll handler: the fetched items are appended after the current ones. */
  function FetchAllTodos(s: TodoStateModel, fetched: seq<TodoItem>): (r: TodoStateModel)
    ensures |r.todos| == |s.todos| + |fetched|
    ensures r.todos[..|s.todos|] == s.todos
    ensures r.todos[|s.todos|..] == fetched
    ensures TodosLength(r) == TodosLength(s) + TodosLength(TodoStateModel(fetched))
  {
    FilterAppend(Pending, s.todos, fetched);
    TodoStateModel(s.todos + fetched)
  }

  /** The mapping step of ToggleDone: flip `done` on an item carrying `id`. */
  function Toggler(id: Option<string>): TodoItem -> TodoItem {
    (t: TodoItem) => if HasId(t, id) then t.(done := !t.done) else t
  }

  /** The ToggleDone handler. */
  function ToggleTodoDone(s: TodoStateModel, id: Option<string>): (r: TodoStateModel)
    ensures |r.todos| == |s.todos|
    ensures forall i :: 0 <= i < |s.todos| ==>
      r.todos[i].id == s.todos[i].id && r.todos[i].title == s.todos[i].title
    ensures forall i :: 0 <= i < |s.todos| ==>
      (r.todos[i].done != s.todos[i].done <==> HasId(s.todos[i], id))
    ensures IdFree(s.todos, id) ==> r == s
  {
    TodoStateModel(Map(Toggler(id), s.todos))
  }

  /** The filter of Delete: keep an item unless it carries `id`. */
  function Keeper(id: Option<string>): TodoItem -> bool {
    (t: TodoItem) => !HasId(t, id)
  }

  /** The Delete handler. */
  function DeleteTodo(s: TodoStateModel, id: Option<string>): (r: TodoStateModel)
    ensures IdFree(r.todos, id)
    ensures multiset(r.todos) <= multiset(s.todos)
    ensures forall t :: multiset(r.todos)[t] == if HasId(t, id) then 0 else multiset(s.todos)[t]
    ensures forall i :: 0 <= i < |r.todos| ==> r.todos[i] in s.todos
    ensures forall i :: 0 <= i < |s.todos| && !HasId(s.todos[i], id) ==> s.todos[i] in r.todos
    ensures SubsequenceOf(r.todos, s.todos)
    ensures IdFree(s.todos, id) ==> r == s
  {
    FilterMultiset(Keeper(id), s.todos);
    TodoStateModel(Filter(Keeper(id), s.todos))
  }

  /** The Add handler: a new, not yet done item with id `uuid` goes in front. */
  function AddTodo(s: TodoStateModel, title: string, uuid: string): (r: TodoStateModel)
    ensures |r.todos| == |s.todos| + 1
    ensures r.todos[0] == TodoItem(Some(uuid), title, false)
    ensures r.todos[1..] == s.todos
    ensures TodosLength(r) == TodosLength(s) + 1
  {
    var todos := [TodoItem(Some(uuid), title, false)] + s.todos;
    assert todos[1..] == s.todos;
    TodoStateModel(todos)
  }

  /** The mapping step of Edit: an item whose id equals the payload's becomes the payload. */
  function Replacer(payload: TodoItem): TodoItem -> TodoItem {
    (t: TodoItem) => if t.id == payload.id then payload else t
  }

  /** The Edit handler. */
  function EditTodo(s: TodoStateModel, payload: TodoItem): (r: TodoStateModel)
    ensures |r.todos| == |s.todos|
    ensures forall i :: 0 <= i < |s.todos| ==> r.todos[i].id == s.todos[i].id
    ensures forall i :: 0 <= i < |s.todos| && s.todos[i].id == payload.id ==> r.todos[i] == payload
    ensures forall i :: 0 <= i < |s.todos| && s.todos[i].id != payload.id ==> r.todos[i] == s.todos[i]
    ensures (forall i :: 0 <= i < |s.todos| ==> s.todos[i].id != payload.id) ==> r == s
  {
    TodoStateModel(Map(Replacer(payload), s.todos))
  }

  /**
   * The reducer: the handler registered for the action's kind. No handler
   * is registered for TodoLogout, so that action leaves the state as it is.
   */
  function Handle(s: TodoStateModel, a: Action, env: Env): (r: TodoStateModel)
    ensures a.FetchAll? ==> r == FetchAllTodos(s, env.fetched)
    ensures a.ToggleDone? ==> r == ToggleTodoDone(s, a.id)
    ensures a.Delete? ==> r == DeleteTodo(s, a.id)
    ensures a.Add? ==> r == AddTodo(s, a.title, env.uuid)
    ensures a.Edit? ==> r == EditTodo(s, a.payload)
    ensures a.TodoLogout? ==> r == s
    ensures (a.Delete? || a.ToggleDone?) && IdFree(s.todos, a.id) ==> r == s
    ensures a.Edit? || a.ToggleDone? ==> |r.todos| == |s.todos|
    ensures a.Add? ==> |r.todos| == |s.todos| + 1
    ensures a.FetchAll? ==> |r.todos| == |s.todos| + |env.fetched|
  {
    match a
    case FetchAll => FetchAllTodos(s, env.fetched)
    case ToggleDone(id) => ToggleTodoDone(s, id)
    case Delete(id) => DeleteTodo(s, id)
    case Add(title) => AddTodo(s, title, env.uuid)
    case Edit(payload) => EditTodo(s, payload)
    case TodoLogout => s
  }

  // Properties relating several handler applications

  /** ToggleDone is an involution: toggling the same id twice restores the state. */
  lemma ToggleTwice(s: TodoStateModel, id: Option<string>)
    ensures ToggleTodoDone(ToggleTodoDone(s, id), id) == s
  {
  }

  /** Deleting `id` from a list headed by an item carrying `id` drops that head. */
  lemma DeleteDropsHead(x: TodoItem, rest: seq<TodoItem>, id: Option<string>)
    requires HasId(x, id)
    ensures DeleteTodo(TodoStateModel([x] + rest), id) == DeleteTodo(TodoStateModel(rest), id)
  {
  }

  /** Adding an item under a fresh id and deleting that id gives back the original state. */
  lemma AddThenDelete(s: TodoStateModel, title: string, uuid: string)
    requires IdFree(s.todos, Some(uuid))
    ensures DeleteTodo(AddTodo(s, title, uuid), Some(uuid)) == s
  {
  }

  /** Add, then ToggleDone and Delete of the new id, gives back the original state. */
  lemma AddToggleDelete(s: TodoStateModel, title: string, uuid: string)
    requires IdFree(s.todos, Some(uuid))
    ensures ToggleTodoDone(AddTodo(s, title, uuid), Some(uuid)).todos[0] == TodoItem(Some(uuid), title, true)
    ensures DeleteTodo(ToggleTodoDone(AddTodo(s, title, uuid), Some(uuid)), Some(uuid)) == s
  {
    var added := AddTodo(s, title, uuid);
    var toggled := ToggleTodoDone(added, Some(uuid));
    var head := TodoItem(Some(uuid), title, true);
    assert toggled.todos == [head] + s.todos by {
      forall i | 0 <= i < |toggled.todos|
        ensures toggled.todos[i] == ([head] + s.todos)[i]
      {
        if i > 0 {
          assert added.todos[i] == s.todos[i - 1];
        }
      }
    }
    DeleteDropsHead(head, s.todos, Some(uuid));
  }
}
