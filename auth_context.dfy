/** The session provider of src/contexts/AuthContext.tsx: the `user`/`loading`
    pair, the identity check `fetchUser`, `logout`, and the `useAuth` guard. */
module AuthContext {
  import opened Wrappers
  import opened Http

  /** The signed-in user; "" stands for an absent email. */
  datatype User = User(id: string, email: string, metadata: map<string, string>)

  /** The body of `/auth/me`; a missing `user` field is `None`. */
  datatype MeBody = MeBody(user: Option<User>)

  /** What the provider hands to its consumers. */
  datatype AuthValue = AuthValue(user: Option<User>, loading: bool)

  const OutsideProviderError: string := "useAuth must be used within an AuthProvider"

  /** The user `fetchUser` leaves behind: the body's `user` after an ok reply whose
      JSON parses; no user after 401, after any other failure status, after an
      unreadable body and after a rejected request. */
  function FetchedUser(reply: Reply<MeBody>): (u: Option<User>)
    ensures u.Some? <==> reply.Response? && IsOk(reply.status) && reply.status != 401
                         && reply.body.json.Parsed? && reply.body.json.value.user.Some?
    ensures u.Some? ==> u == reply.body.json.value.user
  {
    match reply
    case Rejected(_) => None
    case Response(status, body) =>
      if status == 401 then None
      else if !IsOk(status) then None
      else match body.json
        case Parsed(me) => me.user
        case Unparsable(_) => None
  }

  /** A 401 and every other failure end in the signed-out state. */
  lemma FailuresSignOut(reply: Reply<MeBody>)
    requires reply.Rejected? || !IsOk(reply.status) || reply.status == 401
    ensures FetchedUser(reply) == None
  {
  }

  class AuthProvider {
    var user: Option<User>
    var loading: bool

    /** No user yet, and the first check counts as loading. */
    constructor ()
      ensures user == None && loading
    {
      user := None;
      loading := true;
    }

    function Value(): (v: AuthValue)
      reads this
      ensures v.user == user && v.loading == loading
    {
      AuthValue(user, loading)
    }

    /** `fetchUser` up to its request (also what a window focus event runs). */
    method BeginFetchUser()
      modifies this
      ensures loading
      ensures user == old(user)
    {
      loading := true;
    }

    /** `fetchUser` after its request: the user follows the reply and loading ends
        whatever the outcome. */
    method CompleteFetchUser(reply: Reply<MeBody>)
      modifies this
      ensures user == FetchedUser(reply)
      ensures !loading
    {
      user := FetchedUser(reply);
      loading := false;
    }

    /** `logout`: once the request returns, whatever its status, there is no user;
        a rejected request throws before the user is cleared. */
    method Logout(reply: Reply<()>)
      modifies this
      ensures reply.Response? ==> user == None
      ensures reply.Rejected? ==> user == old(user)
      ensures loading == old(loading)
    {
      if reply.Response? {
        user := None;
      }
    }
  }

  /** `useAuth`: the provider's value, or the error it throws outside a provider. */
  function UseAuth(context: Option<AuthValue>): (r: Result<AuthValue>)
    ensures r.Success? <==> context.Some?
    ensures r.Success? ==> r.value == context.value
    ensures r.Failure? ==> r.error == OutsideProviderError
  {
    match context
    case None => Failure(OutsideProviderError)
    case Some(v) => Success(v)
  }
}
