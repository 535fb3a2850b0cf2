/** The dashboard shell: the user's name, a sidebar menu built from the
    viewable permission entries, the nested routes registered for the
    activities some entry lets the user view, and logout. */
module Dashboard {
  import opened Wire
  import opened Permissions
  import opened Session
  import opened Login
  import opened Guard

  /** `routeMap[name]` over the seven-entry route map; `None` is the
      undefined a name outside the map gives. */
  function RouteFor(name: string): Option<string>
  {
    if name == "Home" then Some("/dashboard/")
    else if name == "User Management" then Some("/dashboard/user-management")
    else if name == "Role Management" then Some("/dashboard/role-management")
    else if name == "Health Facility" then Some("/dashboard/health-facility")
    else if name == "Health Worker" then Some("/dashboard/health-worker")
    else if name == "Patient" then Some("/dashboard/patient")
    else if name == "Activity Log" then Some("/dashboard/activity-log")
    else None
  }

  /** A route under /dashboard registered only for an activity some entry
      lets the user view. */
  datatype GatedRoute = GatedRoute(activityName: string, path: string)

  const GatedRoutes: seq<GatedRoute> := [
    GatedRoute("User Management", "user-management"),
    GatedRoute("Role Management", "role-management"),
    GatedRoute("Health Facility", "health-facility"),
    GatedRoute("Health Worker", "health-worker"),
    GatedRoute("Patient", "patient"),
    GatedRoute("Activity Log", "activity-log")
  ]

  /** The menu's link targets and the registered routes agree: each gated
      activity's link is its route under /dashboard/. */
  lemma GatedLinkIsRoute(i: int)
    requires 0 <= i < |GatedRoutes|
    ensures RouteFor(GatedRoutes[i].activityName) == Some("/dashboard/" + GatedRoutes[i].path)
  {
    if i == 0 {
      assert "/dashboard/" + "user-management" == "/dashboard/user-management";
    } else if i == 1 {
      assert "/dashboard/" + "role-management" == "/dashboard/role-management";
    } else if i == 2 {
      assert "/dashboard/" + "health-facility" == "/dashboard/health-facility";
    } else if i == 3 {
      assert "/dashboard/" + "health-worker" == "/dashboard/health-worker";
    } else if i == 4 {
      assert "/dashboard/" + "patient" == "/dashboard/patient";
    } else {
      assert "/dashboard/" + "activity-log" == "/dashboard/activity-log";
    }
  }

  /** Only "Home", which links to the always-registered index, and the
      gated activities have a link target. */
  lemma RouteTableAgrees(name: string)
    ensures RouteFor("Home") == Some("/dashboard/")
    ensures RouteFor(name).Some? <==> name == "Home" || exists i :: 0 <= i < |GatedRoutes| && GatedRoutes[i].activityName == name
  {
    if RouteFor(name).Some? && name != "Home" {
      var i := if name == "User Management" then 0 else if name == "Role Management" then 1
        else if name == "Health Facility" then 2 else if name == "Health Worker" then 3
        else if name == "Patient" then 4 else 5;
      assert GatedRoutes[i].activityName == name;
    }
  }

  // ------------------------------------------------------------ the menu

  datatype MenuItem = MenuItem(key: int, to: Option<string>, end: bool, title: string)

  /** `NoMenuItems` is the "No menu items available" placeholder. */
  datatype Menu = NoMenuItems | Items(items: seq<MenuItem>)

  /** `permissions.filter(perm => perm.canView === "True")`. */
  function Viewable(perms: seq<Permission>): (r: seq<Permission>)
    ensures |r| <= |perms|
    ensures forall p :: p in r <==> p in perms && IsTrueLiteral(p.canView)
  {
    if perms == [] then []
    else (if IsTrueLiteral(perms[0].canView) then [perms[0]] else []) + Viewable(perms[1..])
  }

  /** The filter keeps input order: filtering a concatenation filters each
      part and concatenates the results. */
  lemma {:induction false} ViewableAppend(a: seq<Permission>, b: seq<Permission>)
    ensures Viewable(a + b) == Viewable(a) + Viewable(b)
  {
    if a == [] {
      assert a + b == b;
    } else {
      assert (a + b)[0] == a[0];
      assert (a + b)[1..] == a[1..] + b;
      ViewableAppend(a[1..], b);
    }
  }

  /** One sidebar link: keyed by the activity id, pointing at the route-map
      target, exact-match only for "Home". */
  function ItemFor(p: Permission): (item: MenuItem)
    ensures item.key == p.activityId && item.title == p.activityName
    ensures item.to == RouteFor(p.activityName)
    ensures item.end <==> p.activityName == "Home"
  {
    MenuItem(p.activityId, RouteFor(p.activityName), p.activityName == "Home", p.activityName)
  }

  function ItemsFor(perms: seq<Permission>): (r: seq<MenuItem>)
    ensures |r| == |perms|
    ensures forall i :: 0 <= i < |perms| ==> r[i] == ItemFor(perms[i])
  {
    if perms == [] then [] else [ItemFor(perms[0])] + ItemsFor(perms[1..])
  }

  /** `renderMenuItems`: the placeholder for a missing or empty list,
      otherwise one link per viewable entry, in order. */
  function RenderMenuItems(perms: Option<seq<Permission>>): (m: Menu)
    ensures m.NoMenuItems? <==> perms.None? || perms.value == []
    ensures m.Items? ==> m.items == ItemsFor(Viewable(perms.value))
  {
    if perms.None? || perms.value == [] then NoMenuItems else Items(ItemsFor(Viewable(perms.value)))
  }

  /** A non-empty list with nothing viewable gives an empty menu, not the
      placeholder. */
  lemma NothingViewableGivesEmptyMenu(perms: seq<Permission>)
    requires perms != []
    requires forall i :: 0 <= i < |perms| ==> !IsTrueLiteral(perms[i].canView)
    ensures RenderMenuItems(Some(perms)) == Items([])
  {
    NoneViewable(perms);
  }

  lemma {:induction false} NoneViewable(perms: seq<Permission>)
    requires forall i :: 0 <= i < |perms| ==> !IsTrueLiteral(perms[i].canView)
    ensures Viewable(perms) == []
  {
    if perms != [] {
      assert forall i :: 0 <= i < |perms[1..]| ==> perms[1..][i] == perms[i + 1];
      NoneViewable(perms[1..]);
    }
  }

  // ------------------------------------------------------------ the routes

  /** `permissions.find(perm => perm.activityName === name && perm.canView === "True")`. */
  function FindViewable(perms: seq<Permission>, name: string): (r: Option<Permission>)
    ensures r.None? <==> forall k :: 0 <= k < |perms| ==> !(perms[k].activityName == name && IsTrueLiteral(perms[k].canView))
    ensures r.Some? ==> r.value in perms && r.value.activityName == name && IsTrueLiteral(r.value.canView)
  {
    if perms == [] then None
    else if perms[0].activityName == name && IsTrueLiteral(perms[0].canView) then Some(perms[0])
    else
      var r := FindViewable(perms[1..], name);
      assert forall k :: 1 <= k < |perms| ==> perms[k] == perms[1..][k - 1];
      r
  }

  function RegisteredGated(perms: seq<Permission>, gs: seq<GatedRoute>): (r: seq<string>)
    ensures forall x :: x in r ==> exists i :: 0 <= i < |gs| && gs[i].path == x && FindViewable(perms, gs[i].activityName).Some?
    ensures forall i :: 0 <= i < |gs| && FindViewable(perms, gs[i].activityName).Some? ==> gs[i].path in r
  {
    if gs == [] then []
    else
      var rest := RegisteredGated(perms, gs[1..]);
      assert forall i :: 1 <= i < |gs| ==> gs[i] == gs[1..][i - 1];
      (if FindViewable(perms, gs[0].activityName).Some? then [gs[0].path] else []) + rest
  }

  /** The paths the dashboard's `Routes` holds, in declaration order. */
  function RegisteredRoutes(perms: seq<Permission>): seq<string>
  {
    ["/"] + RegisteredGated(perms, GatedRoutes)
  }

  /** The index route is always there, and each gated route is there iff
      some entry (not necessarily the first) with that activity name has
      `canView` "True". */
  lemma RoutesRegisteredIff(perms: seq<Permission>)
    ensures "/" in RegisteredRoutes(perms)
    ensures forall i :: 0 <= i < |GatedRoutes| ==>
      (GatedRoutes[i].path in RegisteredRoutes(perms) <==>
       exists k :: 0 <= k < |perms| && perms[k].activityName == GatedRoutes[i].activityName && IsTrueLiteral(perms[k].canView))
  {
    var gated := RegisteredGated(perms, GatedRoutes);
    forall i | 0 <= i < |GatedRoutes|
      ensures GatedRoutes[i].path in RegisteredRoutes(perms) ==> FindViewable(perms, GatedRoutes[i].activityName).Some?
    {
      if GatedRoutes[i].path in RegisteredRoutes(perms) {
        assert GatedRoutes[i].path != "/";
        assert GatedRoutes[i].path in gated;
        var j :| 0 <= j < |GatedRoutes| && GatedRoutes[j].path == GatedRoutes[i].path
                 && FindViewable(perms, GatedRoutes[j].activityName).Some?;
        assert j == i;
      }
    }
  }

  /** Every menu link to a gated activity leads to a registered route: the
      entry that made the link viewable also registers the route. */
  lemma MenuLinkHasRoute(perms: seq<Permission>, n: int, i: int)
    requires 0 <= n < |ItemsFor(Viewable(perms))|
    requires 0 <= i < |GatedRoutes| && ItemsFor(Viewable(perms))[n].title == GatedRoutes[i].activityName
    ensures ItemsFor(Viewable(perms))[n].to == Some("/dashboard/" + GatedRoutes[i].path)
    ensures GatedRoutes[i].path in RegisteredRoutes(perms)
  {
    var p := Viewable(perms)[n];
    assert p in Viewable(perms);
    GatedLinkIsRoute(i);
    var k :| 0 <= k < |perms| && perms[k] == p;
    RoutesRegisteredIff(perms);
  }

  /** Two entries named "Patient": the first withholds view, the second grants it. */
  const TwoPatientEntries: seq<Permission> := [
    Permission(5, "Patient", Str("False"), Str("False"), Str("False"), Str("False")),
    Permission(6, "Patient", Str("True"), Str("False"), Str("False"), Str("False"))
  ]

  /** The route gate and the page gate can disagree when a name occurs twice:
      the Patient route is registered and linked (the second entry grants
      view) while the Patient page, which consults only the first entry, does
      not fetch its list. */
  lemma RouteRegisteredButPageDenies()
    ensures "patient" in RegisteredRoutes(TwoPatientEntries)
    ensures RenderMenuItems(Some(TwoPatientEntries)) == Items([MenuItem(6, Some("/dashboard/patient"), false, "Patient")])
    ensures !Grants(TwoPatientEntries, "Patient", View)
  {
    PatientRouteRegistered();
    PatientLinkShown();
    PatientPageDenied();
  }

  lemma PatientRouteRegistered()
    ensures "patient" in RegisteredRoutes(TwoPatientEntries)
  {
    var perms := TwoPatientEntries;
    assert FindViewable(perms, "Patient").Some? by {
      assert perms[1].activityName == "Patient" && IsTrueLiteral(perms[1].canView);
    }
    assert GatedRoutes[4] == GatedRoute("Patient", "patient");
    assert "patient" in RegisteredGated(perms, GatedRoutes);
  }

  lemma PatientLinkShown()
    ensures RenderMenuItems(Some(TwoPatientEntries)) == Items([MenuItem(6, Some("/dashboard/patient"), false, "Patient")])
  {
    var perms := TwoPatientEntries;
    assert perms[1..] == [perms[1]];
    assert Viewable([perms[1]]) == [perms[1]] by { assert [perms[1]][1..] == []; }
    assert Viewable(perms) == [perms[1]];
  }

  lemma PatientPageDenied()
    ensures !Grants(TwoPatientEntries, "Patient", View)
  {
    assert FirstByName(TwoPatientEntries, "Patient") == Some(TwoPatientEntries[0]);
  }

  lemma {:induction false} NothingRegisteredWithoutPermissions(gs: seq<GatedRoute>)
    ensures RegisteredGated([], gs) == []
  {
    if gs != [] {
      NothingRegisteredWithoutPermissions(gs[1..]);
    }
  }

  /** With no permissions only the index route is registered. */
  lemma NoPermissionsOnlyIndexRoute()
    ensures RegisteredRoutes([]) == ["/"]
  {
    NothingRegisteredWithoutPermissions(GatedRoutes);
    assert ["/"] + [] == ["/"];
  }

  // ------------------------------------------------------------ the page

  /** `UserName || 'User'`, from the stored profile. */
  function DisplayName(storage: map<string, Stored>): (r: Parsed<Value>)
    ensures r.ParseError? <==> ReadUserName(storage).ParseError?
    ensures r.Parsed? ==> !Falsy(r.value)
    ensures r.Parsed? && !Falsy(ReadUserName(storage).value) ==> r.value == ReadUserName(storage).value
    ensures r.Parsed? && Falsy(ReadUserName(storage).value) ==> r.value == Str("User")
  {
    match ReadUserName(storage)
    case Parsed(name) => Parsed(Or(name, Str("User")))
    case ParseError => ParseError
  }

  datatype DashboardView = DashboardView(userName: Value, menu: Menu, routes: seq<string>)

  /** One render of the dashboard from storage: both keys are parsed, and a
      parse error (the stored text "undefined") breaks the render. */
  function Render(storage: map<string, Stored>): (r: Parsed<DashboardView>)
    ensures r.ParseError? <==> ReadPermissions(storage).ParseError? || ReadUserName(storage).ParseError?
    ensures r.Parsed? ==> r.value == DashboardView(DisplayName(storage).value,
                                                   RenderMenuItems(Some(ReadPermissions(storage).value)),
                                                   RegisteredRoutes(ReadPermissions(storage).value))
  {
    match ReadPermissions(storage)
    case ParseError => ParseError
    case Parsed(perms) =>
      match DisplayName(storage)
      case ParseError => ParseError
      case Parsed(name) => Parsed(DashboardView(name, RenderMenuItems(Some(perms)), RegisteredRoutes(perms)))
  }

  /** After a successful login the dashboard shows the profile's name (or
      'User'), the menu and the routes of the permission list the reply
      carried; a reply without a permission list leaves a dashboard that
      cannot render. */
  lemma DashboardAfterLogin(s: SessionState, reply: Reply<Profile>)
    requires LoginSucceeds(reply)
    ensures var t := ApplyEffects(s, LoginEffects(reply));
      && (reply.data.permission.Some? ==>
            Render(t.storage) == Parsed(DashboardView(Or(reply.data.name, Str("User")),
                                                      RenderMenuItems(reply.data.permission),
                                                      RegisteredRoutes(reply.data.permission.value))))
      && (reply.data.permission.None? ==> Render(t.storage) == ParseError)
  {
    LoginThenRead(s, reply);
  }

  /** `handleLogout`: clear storage, then load '/' afresh. */
  method HandleLogout(b: Browser)
    modifies b
    ensures b.State() == SessionState(map[], None, "/")
    ensures b.trace == old(b.trace) + [ClearStorage, LoadPage("/")]
  {
    b.Perform(ClearStorage);
    b.Perform(LoadPage("/"));
  }

  /** After logout nothing of the session is left: no permissions, no name,
      no menu, only the index route, and the guard refuses. */
  lemma LogoutLeavesNothing<C>(s: SessionState, children: C)
    ensures var t := ApplyEffects(s, [ClearStorage, LoadPage("/")]);
      && t.storage == map[] && t.location == "/"
      && ReadPermissions(t.storage) == Parsed([])
      && Render(t.storage) == Parsed(DashboardView(Str("User"), NoMenuItems, ["/"]))
      && ProtectedRoute(t.user, children) == UnauthorizedAccess
  {
    ApplyEffectsSnoc(s, [], ClearStorage);
    ApplyEffectsSnoc(s, [ClearStorage], LoadPage("/"));
    assert [] + [ClearStorage] == [ClearStorage];
    assert [ClearStorage] + [LoadPage("/")] == [ClearStorage, LoadPage("/")];
    NoPermissionsOnlyIndexRoute();
  }
}
