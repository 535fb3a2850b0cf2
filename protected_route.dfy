/** The route guard: it renders its children when the authentication
    context holds a user, and an "Unauthorized Access" heading otherwise.
    It looks at nothing else (not storage, not permissions) and never
    redirects. */
module Guard {
  import opened Wire
  import opened Session
  import opened Login

  /** What the guard can render; there is no redirect alternative. */
  datatype Rendered<C> = UnauthorizedAccess | Children(children: C)

  function ProtectedRoute<C>(user: Option<Profile>, children: C): (r: Rendered<C>)
    ensures r.UnauthorizedAccess? <==> user.None?
    ensures r.Children? ==> r.children == children
  {
    if user.None? then UnauthorizedAccess else Children(children)
  }

  /** After a successful login the guard lets the dashboard through; after
      any other reply it renders what it rendered before. */
  lemma GuardAfterLogin<C>(s: SessionState, reply: Reply<Profile>, children: C)
    ensures LoginSucceeds(reply) ==> ProtectedRoute(ApplyEffects(s, LoginEffects(reply)).user, children) == Children(children)
    ensures !LoginSucceeds(reply) ==> ProtectedRoute(ApplyEffects(s, LoginEffects(reply)).user, children) == ProtectedRoute(s.user, children)
  {
    LoginOutcome(s, reply);
  }

  /** The session does not survive a page load: after a successful login
      and a reload of the dashboard, storage still holds the profile and the
      permissions, yet the guard refuses, because the context user is back
      to null. */
  lemma ReloadLosesSession<C>(s: SessionState, reply: Reply<Profile>, children: C)
    requires LoginSucceeds(reply)
    ensures var t := ApplyEffect(ApplyEffects(s, LoginEffects(reply)), LoadPage("/dashboard"));
      && UserInfoKey in t.storage && t.storage[UserInfoKey] == ProfileRecord(reply.data)
      && ReadUserName(t.storage) == Parsed(reply.data.name)
      && ProtectedRoute(t.user, children) == UnauthorizedAccess
  {
    LoginOutcome(s, reply);
  }

  /** The same sequence on a browser object: log in, reload, and render the
      guarded page. */
  method LoginThenReload(reply: Reply<Profile>) returns (before: Rendered<string>, after: Rendered<string>, stored: bool)
    requires LoginSucceeds(reply)
    ensures before == Children("dashboard") && after == UnauthorizedAccess && stored
  {
    var b := new Browser(map[], "/");
    var page := new LoginPage(b);
    var _ := page.HandleLogin(reply);
    LoginOutcome(SessionState(map[], None, "/"), reply);
    before := ProtectedRoute(b.user, "dashboard");
    b.Reload();
    after := ProtectedRoute(b.user, "dashboard");
    stored := UserInfoKey in b.storage && b.storage[UserInfoKey] == ProfileRecord(reply.data);
  }
}
