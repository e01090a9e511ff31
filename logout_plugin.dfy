/**
 * The logout plugin: a middleware link that runs before the handlers. A
 * link receives the state and the action and hands both on to `next`; the
 * value it returns here is that single call, so every path of the plugin
 * continues the chain exactly once.
 */
module Plugins {
  import opened Wrappers
  import opened TodoState

  /** The call `next(state, action)` a plugin makes. */
  datatype Forward = Next(state: TodoStateModel, action: Action)

  /** On TodoLogout the state handed on is an empty list; otherwise both inputs pass through. */
  function LogoutPlugin(s: TodoStateModel, a: Action): (f: Forward)
    ensures f.action == a
    ensures a.TodoLogout? ==> f.state.todos == [] && TodosLength(f.state) == 0
    ensures !a.TodoLogout? ==> f.state == s
  {
    var state := if a.TodoLogout? then TodoStateModel([]) else s;
    Next(state, a)
  }

  /** Applying the plugin to a state it has already cleared gives the same empty state. */
  lemma LogoutIdempotent(s: TodoStateModel)
    ensures LogoutPlugin(LogoutPlugin(s, TodoLogout).state, TodoLogout) == LogoutPlugin(s, TodoLogout)
  {
  }

  // The root state a plugin actually receives

  /**
   * The value stored under the state name `todos`: the state object
   * `{ todos: [...] }` the handlers expect, or a bare array.
   */
  datatype SliceValue = Model(model: TodoStateModel) | BareArray(items: seq<TodoItem>)

  /** The store's root state, `{ todos: <slice> }`. */
  datatype RootState = RootState(todos: SliceValue)

  /** The call `next(state, action)` a plugin makes, with the root state. */
  datatype RootForward = RootNext(state: RootState, action: Action)

  /**
   * Reading `state.todos` on the slice, as every selector and handler
   * does: a bare array has no such property, so the read is undefined.
   */
  function TodosOf(v: SliceValue): (r: Option<seq<TodoItem>>)
    ensures r.Some? <==> v.Model?
    ensures v.Model? ==> r == Some(v.model.todos)
  {
    match v
    case Model(m) => Some(m.todos)
    case BareArray(_) => None
  }

  /**
   * The plugin as written, applied to the root state: on TodoLogout the
   * whole root becomes `{ todos: [] }`, so the slice is a bare array.
   */
  function LogoutAsWritten(root: RootState, a: Action): (f: RootForward)
    ensures f.action == a
    ensures a.TodoLogout? ==> f.state.todos == BareArray([])
    ensures !a.TodoLogout? ==> f.state == root
  {
    var state := if a.TodoLogout? then RootState(BareArray([])) else root;
    RootNext(state, a)
  }

  /** After the plugin as written, the slice has no `todos` left for a selector or handler to read. */
  lemma LogoutAsWrittenLosesTodos(root: RootState)
    ensures TodosOf(LogoutAsWritten(root, TodoLogout).state.todos) == None
  {
  }

  /**
   * The plugin as intended: on TodoLogout the slice becomes the state
   * object with an empty list, `{ todos: { todos: [] } }` at the root.
   */
  function LogoutOnRoot(root: RootState, a: Action): (f: RootForward)
    ensures f.action == a
    ensures a.TodoLogout? ==> TodosOf(f.state.todos) == Some([])
    ensures !a.TodoLogout? ==> f.state == root
  {
    var state := if a.TodoLogout? then RootState(Model(TodoStateModel([]))) else root;
    RootNext(state, a)
  }

  /**
   * On a root whose slice is a state object, the intended plugin is
   * `LogoutPlugin` applied to that slice, which the store model runs.
   */
  lemma LogoutOnRootIsLogoutPlugin(m: TodoStateModel, a: Action)
    ensures LogoutOnRoot(RootState(Model(m)), a) ==
      RootNext(RootState(Model(LogoutPlugin(m, a).state)), LogoutPlugin(m, a).action)
  {
  }
}
