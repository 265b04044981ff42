/** The route gate of src/components/ProtectedRoute.tsx. */
module ProtectedRoute {
  import opened Wrappers
  import opened Http
  import opened AuthContext

  /** What the gate renders: the loading placeholder, the child routes, or a
      redirect (which replaces the history entry when `replace` holds). */
  datatype Rendered = Placeholder | ChildRoutes | Redirect(to: string, replace: bool)

  const LoginPath: string := "/login"

  function Gate(loading: bool, user: Option<User>): (r: Rendered)
    ensures r == Placeholder <==> loading
    ensures r == ChildRoutes <==> !loading && user.Some?
    ensures r.Redirect? <==> !loading && user.None?
    ensures r.Redirect? ==> r.to == LoginPath && r.replace
  {
    if loading then Placeholder
    else if user.Some? then ChildRoutes
    else Redirect(LoginPath, true)
  }

  /** Before the first identity check completes, nobody is redirected: the gate
      over a newly mounted provider's value shows the placeholder. */
  method InitialStateWaits() returns (r: Rendered)
    ensures r == Placeholder
  {
    var provider := new AuthProvider();
    var v := provider.Value();
    r := Gate(v.loading, v.user);
  }

  /** After a completed check the child routes appear exactly when the server
      answered ok with a user; every other reply sends the visitor to log in. */
  lemma GateAfterFetch(reply: Reply<MeBody>)
    ensures Gate(false, FetchedUser(reply)) == ChildRoutes <==>
      reply.Response? && IsOk(reply.status) && reply.status != 401
      && reply.body.json.Parsed? && reply.body.json.value.user.Some?
    ensures Gate(false, FetchedUser(reply)) != ChildRoutes ==>
      Gate(false, FetchedUser(reply)) == Redirect(LoginPath, true)
  {
  }
}
