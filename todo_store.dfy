/**
 * The store: one authoritative to-do state, changed only by dispatching
 * actions. A dispatch runs the registered plugins (the logout plugin is the
 * only one) and then the handler for the action.
 */
module TodoStore {
  import opened Wrappers
  import opened Seqs
  import opened TodoState
  import opened Plugins

  /** The state after dispatching `a` from `s`: the logout plugin, then the handler. */
  function Dispatched(s: TodoStateModel, a: Action, env: Env): (r: TodoStateModel)
    ensures a.TodoLogout? ==> r.todos == []
    ensures !a.TodoLogout? ==> r == Handle(s, a, env)
  {
    var forward := LogoutPlugin(s, a);
    Handle(forward.state, forward.action, env)
  }

  /** Dispatching TodoLogout twice leaves the same state as dispatching it once. */
  lemma LogoutTwice(s: TodoStateModel, env: Env, env': Env)
    ensures Dispatched(Dispatched(s, TodoLogout, env), TodoLogout, env') == Dispatched(s, TodoLogout, env)
  {
  }

  class Store {
    var state: TodoStateModel

    /**
     * A store holding the initial empty list, on which the init hook has
     * dispatched FetchAll once.
     */
    constructor(env: Env)
      ensures state == Dispatched(Initial, FetchAll, env)
      ensures state.todos == env.fetched
    {
      state := Dispatched(Initial, FetchAll, env);
    }

    /**
     * Dispatch one action. For Add, `env.uuid` is the id the UUID
     * generator returns, which is taken not to occur in the list.
     */
    method Dispatch(a: Action, env: Env)
      requires a.Add? ==> IdFree(state.todos, Some(env.uuid))
      modifies this
      ensures state == Dispatched(old(state), a, env)
      ensures a.TodoLogout? ==> state.todos == []
      ensures a.FetchAll? ==> state.todos == old(state.todos) + env.fetched
      ensures a.Add? ==> state.todos[1..] == old(state.todos)
      ensures a.Add? ==> TodosLength(state) == TodosLength(old(state)) + 1
      ensures a.Add? ==> DeleteTodo(state, Some(env.uuid)) == old(state)
      ensures a.Delete? ==> IdFree(state.todos, a.id) && SubsequenceOf(state.todos, old(state.todos))
      ensures a.ToggleDone? ==> ToggleTodoDone(state, a.id) == old(state)
    {
      var before := state;
      state := Dispatched(state, a, env);
      if a.Add? {
        AddThenDelete(before, a.title, env.uuid);
      } else if a.ToggleDone? {
        ToggleTwice(before, a.id);
      }
    }
  }
}
