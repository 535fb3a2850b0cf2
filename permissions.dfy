/** The permission grants a session carries and the lookup every entity page
    performs on them: `permissions.find(perm => perm.activityName === X) || {}`
    followed by a comparison of one flag against the string "True". */
module Permissions {
  import opened Wire

  /** One entry of the `permission` array the login reply carries. The flags
      are whatever JavaScript value the backend sent. */
  datatype Permission = Permission(
    activityId: int,
    activityName: string,
    canView: Value,
    canCreate: Value,
    canUpdate: Value,
    canDelete: Value)

  datatype Action = View | Create | Update | Delete

  function Flag(p: Permission, a: Action): Value
  {
    match a
    case View => p.canView
    case Create => p.canCreate
    case Update => p.canUpdate
    case Delete => p.canDelete
  }

  /** `perms.find(perm => perm.activityName === name)`; `None` stands for the
      `{}` the pages substitute when nothing is found. */
  function FirstByName(perms: seq<Permission>, name: string): (r: Option<Permission>)
    ensures r.None? <==> forall i :: 0 <= i < |perms| ==> perms[i].activityName != name
    ensures r.Some? ==> exists i :: 0 <= i < |perms| && perms[i] == r.value && perms[i].activityName == name
                                    && forall j :: 0 <= j < i ==> perms[j].activityName != name
  {
    if perms == [] then None
    else if perms[0].activityName == name then Some(perms[0])
    else
      var r := FirstByName(perms[1..], name);
      if r.Some? then
        ghost var i :| 0 <= i < |perms[1..]| && perms[1..][i] == r.value && perms[1..][i].activityName == name
                       && forall j :: 0 <= j < i ==> perms[1..][j].activityName != name;
        assert perms[i + 1] == r.value && forall j :: 0 <= j < i + 1 ==> perms[j].activityName != name;
        r
      else r
  }

  /** `(perms.find(...) || {})[flag] === "True"`: the looked-up entry grants
      action `a`; the substituted `{}` grants nothing. */
  predicate Grants(perms: seq<Permission>, name: string, a: Action)
  {
    match FirstByName(perms, name)
    case Some(p) => IsTrueLiteral(Flag(p, a))
    case None => false
  }

  /** Grants holds iff the FIRST entry with that activity name carries the exact
      string "True" in the flag for `a`; an activity without an entry grants
      nothing, and so does any flag value other than that string. */
  lemma GrantsIffFirstEntryTrue(perms: seq<Permission>, name: string, a: Action)
    ensures Grants(perms, name, a) <==>
      exists i :: 0 <= i < |perms| && perms[i].activityName == name && Flag(perms[i], a) == Str("True")
                  && forall j :: 0 <= j < i ==> perms[j].activityName != name
  {
    var r := FirstByName(perms, name);
    if Grants(perms, name, a) {
      var i :| 0 <= i < |perms| && perms[i] == r.value && perms[i].activityName == name
               && forall j :: 0 <= j < i ==> perms[j].activityName != name;
      assert Flag(perms[i], a) == Str("True");
    }
    if exists i :: 0 <= i < |perms| && perms[i].activityName == name && Flag(perms[i], a) == Str("True")
                   && forall j :: 0 <= j < i ==> perms[j].activityName != name {
      var i :| 0 <= i < |perms| && perms[i].activityName == name && Flag(perms[i], a) == Str("True")
               && forall j :: 0 <= j < i ==> perms[j].activityName != name;
      assert r.Some?;
      var k :| 0 <= k < |perms| && perms[k] == r.value && perms[k].activityName == name
               && forall j :: 0 <= j < k ==> perms[j].activityName != name;
      assert !(k < i) && !(i < k);
    }
  }

  /** A later entry with an activity name already present never changes a
      grant: only the first entry with that name is consulted. */
  lemma {:induction false} LaterDuplicateIgnored(perms: seq<Permission>, extra: seq<Permission>, name: string, a: Action)
    requires exists i :: 0 <= i < |perms| && perms[i].activityName == name
    ensures FirstByName(perms + extra, name) == FirstByName(perms, name)
    ensures Grants(perms + extra, name, a) == Grants(perms, name, a)
  {
    if perms[0].activityName != name {
      assert (perms + extra)[1..] == perms[1..] + extra;
      var i :| 0 <= i < |perms| && perms[i].activityName == name;
      assert perms[1..][i - 1].activityName == name;
      LaterDuplicateIgnored(perms[1..], extra, name, a);
    }
  }

  /** Which action controls an entity page renders: Add, Edit and Delete each
      need their flag on the looked-up entry; Export to Excel is always shown. */
  datatype Controls = Controls(add: bool, edit: bool, delete: bool, exportButton: bool)

  function ControlsFor(perms: seq<Permission>, name: string): (c: Controls)
    ensures c.add <==> Grants(perms, name, Create)
    ensures c.edit <==> Grants(perms, name, Update)
    ensures c.delete <==> Grants(perms, name, Delete)
    ensures c.exportButton
  {
    Controls(Grants(perms, name, Create), Grants(perms, name, Update), Grants(perms, name, Delete), true)
  }
}
