/** The signed-in user store: the user record (`null` when nobody is signed
    in) and whether the session check is still running. */
module UserSlice {
  import opened Js

  datatype State = State(user: Value, loading: bool)

  datatype Action = SetUser(payload: Value) | ClearUser | SetLoading(flag: bool)

  /** Nobody is signed in yet and the check is running. */
  const INITIAL: State := State(Null, true)

  function Next(s: State, a: Action): State {
    match a
    case SetUser(u) => State(u, false)
    case ClearUser => State(Null, false)
    case SetLoading(b) => s.(loading := b)
  }

  /** Setting the user stores it and ends the loading whatever the state was;
      clearing leaves nobody signed in, and clearing twice is clearing once;
      setting the flag keeps the user. */
  lemma ReducerEffects(s: State, u: Value, b: bool)
    ensures Next(s, SetUser(u)).user == u && !Next(s, SetUser(u)).loading
    ensures Next(s, ClearUser) == State(Null, false) && Next(Next(s, ClearUser), ClearUser) == Next(s, ClearUser)
    ensures Next(s, SetLoading(b)).user == s.user && Next(s, SetLoading(b)).loading == b
  {
  }

  /** After a user is set or cleared, the next action alone decides the
      state: the state before it is forgotten. */
  lemma SetAndClearForget(s: State, t: State, u: Value)
    ensures Next(s, SetUser(u)) == Next(t, SetUser(u))
    ensures Next(s, ClearUser) == Next(t, ClearUser)
    ensures Next(Next(s, SetUser(u)), ClearUser) == Next(s, ClearUser)
  {
  }

  class Store {
    var user: Value
    var loading: bool

    function Current(): State
      reads this
    {
      State(user, loading)
    }

    constructor()
      ensures Current() == INITIAL
    {
      user := Null;
      loading := true;
    }

    method Dispatch(a: Action)
      modifies this
      ensures Current() == Next(old(Current()), a)
    {
      match a {
        case SetUser(u) =>
          user := u;
          loading := false;
        case ClearUser =>
          user := Null;
          loading := false;
        case SetLoading(b) =>
          loading := b;
      }
    }
  }
}
