/** The process-wide session (context/AuthContext.tsx): the current user and
    a loading flag, restored from the store on mount and changed by login and
    logout. */
module AuthContext {
  import opened Js
  import opened AsyncStorage
  import Api

  const OutsideProviderMsg := "useAuth must be used within an AuthProvider"

  class AuthProvider {
    const storage: Storage
    var user: Option<Api.User>
    var isLoading: bool

    /** The provider's first render: no user, still loading. */
    constructor (storage: Storage)
      ensures this.storage == storage
      ensures user == None && isLoading
    {
      this.storage := storage;
      user := None;
      isLoading := true;
    }

    /** Whether the store can be read and holds both a token and a user text. */
    predicate SessionStored()
      reads this, storage
    {
      storage.readFault.None? && Truthy(Get(storage.items, "token")) && Truthy(Get(storage.items, "user"))
    }

    /** `loadUser`: restores the stored user only when both 'token' and 'user'
        are stored and the text parses; a rejected read or a failed parse is
        swallowed. Loading ends in every case. `parsed` is what `JSON.parse`
        yields for the stored text (None when it throws). */
    method LoadUser(parsed: Option<Api.User>)
      modifies this
      ensures !isLoading
      ensures user == if SessionStored() && parsed.Some? then parsed else old(user)
    {
      var token := storage.GetItem("token");
      if token.Success? {
        var userData := storage.GetItem("user");
        if userData.Success? && Truthy(token.value) && Truthy(userData.value) && parsed.Some? {
          user := parsed;
        }
      }
      isLoading := false;
    }

    /** `login`: on success the user is stored again under 'user' and becomes
        the current user; a failure is rethrown and the current user stays. */
    method Login(email: string, password: string, reply: Api.HttpOutcome<Props>) returns (err: Option<Thrown>)
      modifies this, storage
      ensures isLoading == old(isLoading)
      ensures storage.readFault == old(storage.readFault) && storage.writeFault == old(storage.writeFault)
      ensures var r := Api.LoginOutcome(old(storage.Read("token")), old(storage.writeFault), email, password, reply);
        && (r.Success? ==> err.None? && user == Some(r.value.user)
                           && storage.items == old(storage.items)["token" := r.value.token]["user" := Api.Stringify(r.value.user)])
        && (r.Failure? ==> err == Some(r.error) && user == old(user) && storage.items == old(storage.items))
    {
      var r, _ := Api.Login(storage, email, password, reply);
      match r {
        case Failure(e) =>
          err := Some(e);
        case Success(session) =>
          err := storage.SetItem("user", Api.Stringify(session.user));
          if err.None? {
            user := Some(session.user);
          }
      }
    }

    /** `logout`: clears 'token' and 'user' and then the current user; if the
        store rejects, the error is swallowed and the current user stays. */
    method Logout()
      modifies this, storage
      ensures isLoading == old(isLoading)
      ensures storage.readFault == old(storage.readFault) && storage.writeFault == old(storage.writeFault)
      ensures old(storage.writeFault).None? ==> user == None && storage.items == old(storage.items) - {"token", "user"}
      ensures old(storage.writeFault).Some? ==> user == old(user) && storage.items == old(storage.items)
    {
      var e := Api.Logout(storage);
      if e.None? {
        e := storage.RemoveItem("user");
      }
      if e.None? {
        user := None;
      }
    }
  }

  /** `useAuth`: the provider's value, or an error outside any provider. */
  function UseAuth<C>(context: Option<C>): (r: Result<C, Thrown>)
    ensures r.Success? <==> context.Some?
    ensures r.Success? ==> r.value == context.value
    ensures r.Failure? ==> MessageOf(r.error) == Some(OutsideProviderMsg)
  {
    match context
    case Some(c) => Success(c)
    case None => Failure(Raised(OutsideProviderMsg))
  }
}
