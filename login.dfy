/** The login form: credentials go to the backend, and only an HTTP 200
    reply whose body carries the "00" sentinel establishes a session, by
    writing both storage keys, then setting the context user, then navigating
    to the dashboard. */
module Login {
  import opened Wire
  import opened Permissions
  import opened Session

  datatype Credentials = Credentials(email: string, password: string)

  const InvalidLoginText: string := "Invalid email or password"

  /** `response.status === 200 && response.data.statusCode === "00"`. */
  predicate LoginSucceeds(reply: Reply<Profile>)
  {
    reply.Http? && reply.status == 200 && reply.statusCode == Str("00")
  }

  /** `JSON.stringify(data.permission)` as stored: an absent field becomes
      the text "undefined". */
  function StoredPermission(p: Profile): (s: Stored)
    ensures p.permission.Some? ==> s == PermissionList(p.permission.value)
    ensures p.permission.None? ==> s == UndefinedText
  {
    match p.permission
    case Some(ps) => PermissionList(ps)
    case None => UndefinedText
  }

  /** What `handleLogin` does for a reply, in order. */
  function LoginEffects(reply: Reply<Profile>): (es: seq<Effect>)
    ensures LoginSucceeds(reply) ==>
      es == [SetItem(PermissionsKey, StoredPermission(reply.data)), SetItem(UserInfoKey, ProfileRecord(reply.data)),
             SetUser(reply.data), NavigateTo("/dashboard")]
    ensures reply.Http? && !LoginSucceeds(reply) ==> es == []
    ensures reply.Failed? ==> es == [ShowAlert(InvalidLoginText)]
  {
    if LoginSucceeds(reply) then
      [SetItem(PermissionsKey, StoredPermission(reply.data)), SetItem(UserInfoKey, ProfileRecord(reply.data)),
       SetUser(reply.data), NavigateTo("/dashboard")]
    else if reply.Http? then []
    else [ShowAlert(InvalidLoginText)]
  }

  /** A successful login leaves both keys written, the context user set to
      the reply's data and the location on the dashboard; any other reply
      leaves storage, user and location as they were. */
  lemma LoginOutcome(s: SessionState, reply: Reply<Profile>)
    ensures var t := ApplyEffects(s, LoginEffects(reply));
      if LoginSucceeds(reply) then
        && t.storage == s.storage[PermissionsKey := StoredPermission(reply.data)][UserInfoKey := ProfileRecord(reply.data)]
        && t.user == Some(reply.data)
        && t.location == "/dashboard"
      else t == s
  {
    var es := LoginEffects(reply);
    if LoginSucceeds(reply) {
      ApplyEffectsSnoc(s, [], es[0]);
      ApplyEffectsSnoc(s, [es[0]], es[1]);
      ApplyEffectsSnoc(s, [es[0], es[1]], es[2]);
      ApplyEffectsSnoc(s, [es[0], es[1], es[2]], es[3]);
      assert es == [es[0], es[1], es[2]] + [es[3]];
      assert [] + [es[0]] == [es[0]];
      assert [es[0]] + [es[1]] == [es[0], es[1]];
      assert [es[0], es[1]] + [es[2]] == [es[0], es[1], es[2]];
      var s1 := ApplyEffects(s, [es[0]]);
      assert s1.storage == s.storage[PermissionsKey := StoredPermission(reply.data)];
      var s2 := ApplyEffects(s, [es[0], es[1]]);
      assert s2.storage == s1.storage[UserInfoKey := ProfileRecord(reply.data)];
      var s3 := ApplyEffects(s, [es[0], es[1], es[2]]);
      assert s3.storage == s2.storage;
    } else if reply.Failed? {
      assert es[..0] == [];
    }
  }

  /** The session writes come first: both storage keys are written before the
      user is set, and the user is set before the navigation. A login that
      does not succeed writes nothing, sets nothing and goes nowhere. */
  lemma WritesPrecedeUserAndNavigation(reply: Reply<Profile>, i: int, j: int)
    requires 0 <= i < j < |LoginEffects(reply)|
    ensures LoginSucceeds(reply)
    ensures LoginEffects(reply)[j].SetItem? ==> LoginEffects(reply)[i].SetItem?
    ensures LoginEffects(reply)[i].NavigateTo? ==> false
    ensures LoginEffects(reply)[j].SetUser? ==> LoginEffects(reply)[i].SetItem?
  {
  }

  /** After a successful login the pages read back exactly the permission
      list the reply carried, and the profile's name; a reply without a
      permission field leaves a 'permissions' key no page can parse. */
  lemma LoginThenRead(s: SessionState, reply: Reply<Profile>)
    requires LoginSucceeds(reply)
    ensures var t := ApplyEffects(s, LoginEffects(reply));
      && (reply.data.permission.Some? ==> ReadPermissions(t.storage) == Parsed(reply.data.permission.value))
      && (reply.data.permission.None? ==> ReadPermissions(t.storage) == ParseError)
      && ReadUserName(t.storage) == Parsed(reply.data.name)
  {
    LoginOutcome(s, reply);
  }

  class LoginPage {
    var email: string
    var password: string
    /** The browser the page runs in; its context user is what `setUser` sets. */
    const browser: Browser

    constructor (browser: Browser)
      ensures this.browser == browser && email == "" && password == ""
    {
      this.browser := browser;
      email := "";
      password := "";
    }

    method ChangeEmail(e: string)
      modifies this`email
      ensures email == e
    {
      email := e;
    }

    method ChangePassword(p: string)
      modifies this`password
      ensures password == p
    {
      password := p;
    }

    /** `handleLogin`: posts the typed credentials and performs the
        effects `LoginEffects` lists, one at a time. */
    method HandleLogin(reply: Reply<Profile>) returns (request: Credentials)
      modifies browser
      ensures request == Credentials(email, password)
      ensures browser.trace == old(browser.trace) + LoginEffects(reply)
      ensures browser.State() == ApplyEffects(old(browser.State()), LoginEffects(reply))
    {
      request := Credentials(email, password);
      ghost var s0 := browser.State();
      ghost var done: seq<Effect> := [];
      if LoginSucceeds(reply) {
        browser.Perform(SetItem(PermissionsKey, StoredPermission(reply.data)));
        done := done + [SetItem(PermissionsKey, StoredPermission(reply.data))];
        ApplyEffectsAppend(s0, [], done);
        browser.Perform(SetItem(UserInfoKey, ProfileRecord(reply.data)));
        ApplyEffectsAppend(s0, done, [SetItem(UserInfoKey, ProfileRecord(reply.data))]);
        done := done + [SetItem(UserInfoKey, ProfileRecord(reply.data))];
        browser.Perform(SetUser(reply.data));
        ApplyEffectsAppend(s0, done, [SetUser(reply.data)]);
        done := done + [SetUser(reply.data)];
        browser.Perform(NavigateTo("/dashboard"));
        ApplyEffectsAppend(s0, done, [NavigateTo("/dashboard")]);
        done := done + [NavigateTo("/dashboard")];
      } else if reply.Failed? {
        browser.Perform(ShowAlert(InvalidLoginText));
        ApplyEffectsAppend(s0, [], [ShowAlert(InvalidLoginText)]);
        done := [ShowAlert(InvalidLoginText)];
      }
      assert done == LoginEffects(reply);
    }
  }
}
