/** The browser side of a session: `localStorage` (the 'permissions' and
    'UserInfo' keys the pages parse on every render), the in-memory user of
    the authentication context (null until a login sets it, and lost on any
    full page load), and the current location. Every change is one `Effect`,
    so an operation's order of writes can be stated as a trace. */
module Session {
  import opened Wire
  import opened Permissions

  const PermissionsKey: string := "permissions"
  const UserInfoKey: string := "UserInfo"

  /** The login reply's `data` as the console reads it: the display name, the
      user id and the permission list (`None` when the field is absent). */
  datatype Profile = Profile(name: Value, userId: Value, permission: Option<seq<Permission>>)

  /** What a storage key holds: a serialised permission list, a serialised
      profile, or the text "undefined" that storing an absent field leaves. */
  datatype Stored = PermissionList(perms: seq<Permission>) | ProfileRecord(profile: Profile) | UndefinedText

  /** A `JSON.parse` outcome; `ParseError` is the exception, which no page catches. */
  datatype Parsed<T> = Parsed(value: T) | ParseError

  /** `JSON.parse(localStorage.getItem('permissions') || '[]')` used as a list:
      an absent key reads as no permissions, "undefined" does not parse, and a
      stored profile parses to an object that has no list operations. */
  function ReadPermissions(storage: map<string, Stored>): (r: Parsed<seq<Permission>>)
    ensures r.Parsed? <==> PermissionsKey !in storage || storage[PermissionsKey].PermissionList?
    ensures PermissionsKey !in storage ==> r == Parsed([])
    ensures PermissionsKey in storage && storage[PermissionsKey].PermissionList? ==> r == Parsed(storage[PermissionsKey].perms)
  {
    if PermissionsKey !in storage then Parsed([])
    else match storage[PermissionsKey]
      case PermissionList(ps) => Parsed(ps)
      case _ => ParseError
  }

  /** `JSON.parse(localStorage.getItem('UserInfo') || '{}').name` (the
      Dashboard's `'[]'` default gives the same): undefined unless a profile
      is stored. */
  function ReadUserName(storage: map<string, Stored>): (r: Parsed<Value>)
    ensures r.ParseError? <==> UserInfoKey in storage && storage[UserInfoKey].UndefinedText?
    ensures UserInfoKey in storage && storage[UserInfoKey].ProfileRecord? ==> r == Parsed(storage[UserInfoKey].profile.name)
    ensures UserInfoKey !in storage ==> r == Parsed(Undefined)
  {
    if UserInfoKey !in storage then Parsed(Undefined)
    else match storage[UserInfoKey]
      case ProfileRecord(p) => Parsed(p.name)
      case PermissionList(_) => Parsed(Undefined)
      case UndefinedText => ParseError
  }

  /** `JSON.parse(localStorage.getItem('UserInfo') || '{}').userId`, read the
      same way as the name. */
  function ReadUserId(storage: map<string, Stored>): (r: Parsed<Value>)
    ensures r.ParseError? <==> ReadUserName(storage).ParseError?
    ensures UserInfoKey in storage && storage[UserInfoKey].ProfileRecord? ==> r == Parsed(storage[UserInfoKey].profile.userId)
    ensures UserInfoKey !in storage ==> r == Parsed(Undefined)
  {
    if UserInfoKey !in storage then Parsed(Undefined)
    else match storage[UserInfoKey]
      case ProfileRecord(p) => Parsed(p.userId)
      case PermissionList(_) => Parsed(Undefined)
      case UndefinedText => ParseError
  }

  /** One observable step. `NavigateTo` is a client-side navigation (the
      in-memory user survives); `LoadPage` is an assignment to
      `window.location.href`, a full page load that restarts the application. */
  datatype Effect =
    | SetItem(key: string, value: Stored)
    | ClearStorage
    | SetUser(profile: Profile)
    | NavigateTo(path: string)
    | LoadPage(path: string)
    | ShowAlert(text: string)

  datatype SessionState = SessionState(storage: map<string, Stored>, user: Option<Profile>, location: string)

  function ApplyEffect(s: SessionState, e: Effect): (r: SessionState)
    ensures e.SetItem? ==> r == s.(storage := s.storage[e.key := e.value])
    ensures e.ClearStorage? ==> r == s.(storage := map[])
    ensures e.SetUser? ==> r == s.(user := Some(e.profile))
    ensures e.NavigateTo? ==> r == s.(location := e.path)
    ensures e.LoadPage? ==> r == s.(user := None, location := e.path)
    ensures e.ShowAlert? ==> r == s
  {
    match e
    case SetItem(k, v) => s.(storage := s.storage[k := v])
    case ClearStorage => s.(storage := map[])
    case SetUser(p) => s.(user := Some(p))
    case NavigateTo(path) => s.(location := path)
    case LoadPage(path) => s.(user := None, location := path)
    case ShowAlert(_) => s
  }

  /** The state after a trace of effects, applied first to last. */
  function ApplyEffects(s: SessionState, es: seq<Effect>): SessionState
  {
    if es == [] then s else ApplyEffect(ApplyEffects(s, es[..|es| - 1]), es[|es| - 1])
  }

  /** One more effect at the end of a trace is applied last. */
  lemma ApplyEffectsSnoc(s: SessionState, es: seq<Effect>, e: Effect)
    ensures ApplyEffects(s, es + [e]) == ApplyEffect(ApplyEffects(s, es), e)
  {
    assert (es + [e])[..|es|] == es;
  }

  /** Applying two traces one after the other is applying their concatenation. */
  lemma {:induction false} ApplyEffectsAppend(s: SessionState, es: seq<Effect>, more: seq<Effect>)
    ensures ApplyEffects(s, es + more) == ApplyEffects(ApplyEffects(s, es), more)
    decreases |more|
  {
    if more == [] {
      assert es + more == es;
    } else {
      var init := more[..|more| - 1];
      ApplyEffectsAppend(s, es, init);
      assert (es + more)[..|es + more| - 1] == es + init;
      assert (es + more)[|es + more| - 1] == more[|more| - 1];
    }
  }

  /** Alerts change nothing a later render reads. */
  lemma {:induction false} AlertsLeaveStateAlone(s: SessionState, es: seq<Effect>)
    requires forall i :: 0 <= i < |es| ==> es[i].ShowAlert?
    ensures ApplyEffects(s, es) == s
    decreases |es|
  {
    if es != [] {
      AlertsLeaveStateAlone(s, es[..|es| - 1]);
    }
  }

  /** The browser a page runs in. */
  class Browser {
    var storage: map<string, Stored>
    var user: Option<Profile>
    var location: string
    /** Every effect performed so far, oldest first. */
    var trace: seq<Effect>

    function State(): SessionState
      reads this
    {
      SessionState(storage, user, location)
    }

    /** A fresh start of the application on `location`: storage persists from
        earlier visits, and the context user starts out null. */
    constructor (storage: map<string, Stored>, location: string)
      ensures State() == SessionState(storage, None, location) && trace == []
    {
      this.storage := storage;
      this.user := None;
      this.location := location;
      this.trace := [];
    }

    method Perform(e: Effect)
      modifies this
      ensures State() == ApplyEffect(old(State()), e)
      ensures trace == old(trace) + [e]
    {
      trace := trace + [e];
      match e
      case SetItem(k, v) => storage := storage[k := v];
      case ClearStorage => storage := map[];
      case SetUser(p) => user := Some(p);
      case NavigateTo(path) => location := path;
      case LoadPage(path) => user := None; location := path;
      case ShowAlert(_) =>
    }

    /** The user presses reload: the same location, loaded afresh. */
    method Reload()
      modifies this
      ensures State() == SessionState(old(storage), None, old(location))
      ensures trace == old(trace) + [LoadPage(old(location))]
    {
      Perform(LoadPage(location));
    }
  }
}
