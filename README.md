# To-do store: handlers, selectors and the logout plugin

This project models the state container of a small Angular to-do list built
on NGXS. The store holds one slice, `{ todos: TodoItem[] }`. Each item is
`{ id?, title, done }`. The state changes only through the actions of the
`Todo` namespace: FetchAll, Add, Edit, Delete, ToggleDone and TodoLogout.
Two selectors read the state: `todos` returns the list, and `todosLength`
counts the items that are not done. A plugin registered with the store
intercepts every dispatch and replaces the state with an empty list when the
action is TodoLogout. No handler is registered for TodoLogout, so that plugin
alone clears the list.

Modules:

- `Wrappers` (`wrappers.dfy`): `Option`, used for the optional item id.
- `Seqs` (`seqs.dfy`): `Filter` and `Map` are JavaScript's `Array.prototype.filter`
  and `Array.prototype.map` on sequences. `SubsequenceOf` says that a sequence keeps
  another's elements in their original order.
- `TodoState` (`todo_state.dfy`): the item, state, action and environment
  datatypes, the two selectors, and the five handlers as total functions from
  the current state to the next one. `Handle` matches on the action. It also holds
  lemmas that relate several handler applications.
- `Plugins` (`logout_plugin.dfy`): the logout plugin. It returns `Next(state, action)`,
  which stands for the one call the plugin makes to `next`.
  It also models the root state that NGXS actually hands a plugin. On that root
  state it gives the plugin as written and the corrected plugin (see Findings).
- `TodoStore` (`todo_store.dfy`): `Dispatched` runs the logout plugin and then the
  handler. The `Store` class holds the current state in a field. Its constructor
  runs the init hook's FetchAll, and its `Dispatch` method replaces the state.

Ids are compared as JavaScript's `===` compares them: an absent id equals
only an absent id. The id of a Delete or ToggleDone action is declared a
string. But the component fills it with `todo.id!`
(src/app/todos/todos.component.ts:100 and 105), which is `undefined` at run
time for an item that has no id. The model therefore gives these actions an
optional id. A Delete with an absent id removes every item that has no id, and
a ToggleDone with an absent id flips all of them. Edit compares two optional
ids in the same way. The component sends Edit only for an item that has an id
(src/app/todos/todos.component.ts:23).

Two facts about the handlers:

- They accept any title, including an empty one. Only the component refuses
  an empty title, before it dispatches.
- FetchAll appends whatever the data service returns, even when the reply
  arrives after a logout.

## Model

| member | source | states |
|---|---|---|
| Seqs.Filter | src/app/state/todo.state.ts:101 | `Array.filter`: the result is no longer than the input. Each of its elements is in the input and passes the predicate, and each input element that passes appears in it. It is a subsequence of the input. It has full length iff every element passes, and then it equals the input |
| Seqs.FilterMultiset | src/app/state/todo.state.ts:101 | the filter keeps every copy of each element that passes and no copy of an element that fails, so the multiplicities are fixed |
| Seqs.Map | src/app/state/todo.state.ts:92 | `Array.map`: same length as the input, and element `i` is the function applied to input element `i` |
| Seqs.FilterAppend | src/app/state/todo.state.ts:71 | filtering a concatenation gives the concatenation of the filtered parts |
| TodoState.Todos | src/app/state/todo.state.ts:64-67 | the `todos` selector returns the list unchanged. The `todosLength` count never exceeds that list's length |
| TodoState.FilterCountsPending | src/app/state/todo.state.ts:71 | filtering out the done items leaves exactly as many items as a one-by-one count of the pending items |
| TodoState.TodosLength | src/app/state/todo.state.ts:69-72 | the value is the number of items not done (`CountPending`). It is at most the list length, equals the length iff no item is done, and is zero iff every item is done |
| TodoState.FetchAllTodos | src/app/state/todo.state.ts:74-85 | the new list is the old items in their old order, followed by the fetched items. Its length is the sum of both lengths. Its not-done count is the sum of both counts |
| TodoState.ToggleTodoDone | src/app/state/todo.state.ts:87-94 | length, every id and every title are preserved. `done` changes on exactly the items whose id equals the action id. The state is unchanged when no item has that id |
| TodoState.DeleteTodo | src/app/state/todo.state.ts:96-103 | no item with the id remains. Every old item without the id is kept with all its copies, and no item with the id survives, so the multiset of items is fixed. The survivors keep their relative order. The state is unchanged when no item has the id |
| TodoState.AddTodo | src/app/state/todo.state.ts:105-116 | the new item `{id: uuid, title, done: false}` is first, followed by the old list. The length and the not-done count each grow by one |
| TodoState.EditTodo | src/app/state/todo.state.ts:118-125 | length and ids are preserved. Every item whose optional id equals the payload's becomes the payload, including when both ids are absent. Every other item is unchanged, and if no id matches the state is unchanged |
| TodoState.Handle | src/app/state/todo.state.ts:74-125 | each action kind gives exactly its handler's result: FetchAll, ToggleDone, Delete, Add and Edit run their handler functions. TodoLogout has no handler and leaves the state as it is. Delete and ToggleDone of an id that no item has change nothing. The length changes as each handler prescribes |
| TodoState.ToggleTwice | src/app/state/todo.state.ts:92 | ToggleDone applied twice with the same id restores the original state |
| TodoState.DeleteDropsHead | src/app/state/todo.state.ts:101 | deleting an id from a list headed by an item with that id is the same as deleting it from the tail |
| TodoState.AddThenDelete | src/app/state/todo.state.ts:96-116 | when the new id is not yet in the list, Delete of that id after Add returns exactly the original state |
| TodoState.AddToggleDelete | src/app/state/todo.state.ts:87-116 | when the new id is not yet in the list, Add followed by ToggleDone marks the new item done. A further Delete of that id returns exactly the original state |
| Plugins.LogoutPlugin | src/app/state/plugins/logout.plugin.ts:4-10 | `next` receives the original action in every case. On TodoLogout it receives an empty list, whatever the incoming state. On any other action it receives the incoming state |
| Plugins.LogoutIdempotent | src/app/state/plugins/logout.plugin.ts:5-7 | applying the plugin to a state it has already cleared forwards the same empty state |
| Plugins.TodosOf | src/app/state/todo.state.ts:66 | reading `state.todos` on the slice yields the list iff the slice is a state object; on a bare array it yields nothing |
| Plugins.LogoutAsWritten | src/app/state/plugins/logout.plugin.ts:4-10 | on the root state the store actually passes: on TodoLogout, the root becomes `{ todos: [] }`, so the slice is a bare empty array. Otherwise the root passes through. The action is always forwarded |
| Plugins.LogoutAsWrittenLosesTodos | src/app/state/plugins/logout.plugin.ts:7 | after the plugin as written runs on TodoLogout, the slice has no `todos` for the selectors or handlers to read |
| Plugins.LogoutOnRoot | src/app/state/plugins/logout.plugin.ts:4-10 | the intended plugin on the root state: on TodoLogout, the slice is a state object whose list is empty. Otherwise the root passes through. The action is always forwarded |
| Plugins.LogoutOnRootIsLogoutPlugin | src/app/state/plugins/logout.plugin.ts:4-10 | on a root whose slice is a state object, the intended root-level plugin is exactly `LogoutPlugin` applied to the slice, the plugin that the store model runs |
| TodoStore.Dispatched | src/app/app.config.ts:19-23 | with the logout plugin as the only registered plugin, a dispatched TodoLogout ends with an empty list. Every other action ends with its handler's result on the unchanged state |
| TodoStore.LogoutTwice | src/app/state/plugins/logout.plugin.ts:4-10 | dispatching TodoLogout twice leaves the same state as dispatching it once |
| TodoStore.Store.constructor | src/app/state/todo.state.ts:60-62 | the store starts from the empty list, and the init hook's FetchAll leaves exactly the fetched items |
| TodoStore.Store.Dispatch | src/app/state/todo.state.ts:74-125 | the new state is the dispatch of the action on the old state. Logout empties the list. FetchAll appends. Add puts the new item in front, raises the not-done count by one, and can be undone by Delete. Delete leaves an ordered subsequence without the id. A further ToggleDone would undo a ToggleDone |

## Findings

| source | as written | input that shows it | evidently intended | confidence | as-written member | corrected member |
|---|---|---|---|---|---|---|
| src/app/state/plugins/logout.plugin.ts:7 | The plugin replaces the store's whole root state with `{ todos: [] }`. The slice under `todos` becomes the bare array `[]`, but the handlers and selectors read `state.todos` (src/app/state/todo.state.ts:66, 71, 81). | any state, with the action TodoLogout; after it, `TodosOf` of the slice is None | the slice becomes `{ todos: [] }` (the root `{ todos: { todos: [] } }`) | medium, not executed | Plugins.LogoutAsWritten, Plugins.LogoutAsWrittenLosesTodos | Plugins.LogoutOnRoot, Plugins.LogoutOnRootIsLogoutPlugin |

## Left out

- The Angular component (src/app/todos/todos.component.ts) is not part of this model: its template, form binding and DOM events are outside it. Its empty-title guard (src/app/todos/todos.component.ts:111-114 and 130-133) runs before dispatch, so `AddTodo` and `EditTodo` accept any title.
- The data service is not part of this model. What FetchAll receives is the input `Env.fetched`, which may be any list. The reply's asynchronous timing, a failing fetch and a reply that arrives after a logout are not modelled.
- `crypto.randomUUID()` is a foreign call. Its value is the input `Env.uuid`. `TodoStore.Store.Dispatch` requires that this id not occur in the list, which stands in for the UUID being fresh.
- RxJS observables, selector subscriptions and their notifications, memoization, and the serialization of concurrent dispatches are framework behaviour. The model treats dispatches as one ordered sequence of calls to `Dispatch`.
- The NGXS decorators and reflection (`@State`, `@Action`, `@Selector`) are replaced by an explicit match on the `Action` datatype in `TodoState.Handle`.
- NGXS hands a plugin the store's root state, whose `todos` key holds this slice. In the code as written, the plugin's `{ todos: [] }` turns the slice into a bare array (see Findings). After that, the `todos` selector yields `undefined`, and `todosLength` and every handler fail when they read `state.todos`. `Plugins.LogoutAsWritten` models this. The store model (`TodoStore`) runs the corrected plugin, so Add, FetchAll and the other handlers run normally on an empty list after a logout. The model does not capture the run-time errors that the code as written raises from then on.
- The state's defaults are commented out (src/app/state/todo.state.ts:51-55), and the token is typed as a bare item list (src/app/state/todo.state.ts:17). The model takes the initial state to be `{ todos: [] }`. Whatever slice the framework supplies when no defaults are given is not modelled.
- The action id is declared a `string`, but at run time it can be `undefined`. The model types it `Option<string>`, so it does not enforce the declared type.
- The Add payload is a bare string cast to `Pick<TodoItem, 'title'>` (src/app/state/todo.state.ts:109). The model's Add carries that string as the title.
- `patchState` merges shallowly and `setState` replaces. With `todos` as the slice's only key, both give the new `{ todos }`, and the model does not distinguish them.
- The Redux devtools plugin module (src/app/app.config.ts:17) only observes dispatches and is not modelled. A general chain of several plugins is not modelled, because the application registers only the logout plugin.
- What `next` returns (an observable of the resulting state) is not modelled beyond the `Next(state, action)` value that stands for the call.
