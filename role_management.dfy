/** The role permission-matrix editor: the mapped-data reply is decoded into a
    per-activity map of four booleans, the checkboxes change one flag at a
    time, and saving encodes the map back into a list of mappings over the
    fixed table of seven activities. */
module RoleManagement {
  import opened Wire
  import opened Permissions
  import opened EntityPage
  import Session

  /** The four keys of an editor entry: 'view', 'add', 'update', 'delete'. */
  datatype Kind = ViewFlag | AddFlag | UpdateFlag | DeleteFlag

  /** One activity's entry. It is a partial map because a checkbox change on an
      activity without an entry creates an entry holding only that flag. */
  type Entry = map<Kind, bool>

  /** The `permissions` state: activity id to entry. */
  type EditorMap = map<int, Entry>

  datatype Activity = Activity(id: int, name: string)

  /** `actWithIds`: the fixed activity table, ids 1 to 7 in this order. */
  const ActWithIds: seq<Activity> := [
    Activity(1, "Home"),
    Activity(2, "User Management"),
    Activity(3, "Role Management"),
    Activity(4, "Health Facility"),
    Activity(5, "Health Worker"),
    Activity(6, "Patient"),
    Activity(7, "Activity Log")
  ]

  lemma ActWithIdsAreOneToSeven()
    ensures |ActWithIds| == 7
    ensures forall i :: 0 <= i < 7 ==> ActWithIds[i].id == i + 1
  {
  }

  // ---------------------------------------------------------------- decode

  /** One fetched activity as an editor entry: every key present, each flag
      true iff the wire field is exactly the string "True". */
  function DecodeEntry(p: Permission): (e: Entry)
    ensures e.Keys == {ViewFlag, AddFlag, UpdateFlag, DeleteFlag}
    ensures e[ViewFlag] <==> IsTrueLiteral(p.canView)
    ensures e[AddFlag] <==> IsTrueLiteral(p.canCreate)
    ensures e[UpdateFlag] <==> IsTrueLiteral(p.canUpdate)
    ensures e[DeleteFlag] <==> IsTrueLiteral(p.canDelete)
  {
    map[ViewFlag := p.canView == Str("True"),
        AddFlag := p.canCreate == Str("True"),
        UpdateFlag := p.canUpdate == Str("True"),
        DeleteFlag := p.canDelete == Str("True")]
  }

  /** `fetchedPermissions.reduce((acc, activity) => { acc[activity.activityId] = ...; return acc }, {})`:
      a left fold, so later entries are written after earlier ones. */
  function Decode(fetched: seq<Permission>): (m: EditorMap)
    ensures m.Keys == set i | 0 <= i < |fetched| :: fetched[i].activityId
  {
    if fetched == [] then map[]
    else
      var n := |fetched|;
      var m := Decode(fetched[..n - 1])[fetched[n - 1].activityId := DecodeEntry(fetched[n - 1])];
      assert forall i :: 0 <= i < n - 1 ==> fetched[..n - 1][i] == fetched[i];
      m
  }

  /** The decoded entry of an activity is the decoding of the LAST fetched
      entry carrying that activity id: a later duplicate overwrites an earlier one. */
  lemma {:induction false} DecodeLastWins(fetched: seq<Permission>, i: int)
    requires 0 <= i < |fetched|
    requires forall j :: i < j < |fetched| ==> fetched[j].activityId != fetched[i].activityId
    ensures fetched[i].activityId in Decode(fetched)
    ensures Decode(fetched)[fetched[i].activityId] == DecodeEntry(fetched[i])
  {
    var n := |fetched|;
    if i < n - 1 {
      var prefix := fetched[..n - 1];
      assert prefix[i] == fetched[i];
      assert forall j :: i < j < |prefix| ==> prefix[j] == fetched[j];
      DecodeLastWins(prefix, i);
    }
  }

  // ---------------------------------------------------------------- update

  /** `handlePermissionChange(activityId, permissionType, isChecked)`:
      `{...prev, [activityId]: {...prev[activityId], [permissionType]: isChecked}}`. */
  function SetFlag(m: EditorMap, id: int, kind: Kind, checked: bool): (r: EditorMap)
    ensures r.Keys == m.Keys + {id}
    ensures kind in r[id] && r[id][kind] == checked
    ensures forall k :: k != kind ==> (k in r[id] <==> id in m && k in m[id])
    ensures forall k :: k != kind && k in r[id] ==> r[id][k] == m[id][k]
    ensures forall other :: other in m && other != id ==> other in r && r[other] == m[other]
  {
    var entry := if id in m then m[id] else map[];
    m[id := entry[kind := checked]]
  }

  // ---------------------------------------------------------------- encode

  /** `permissions[id]?.<kind> || false`: the checkbox state and the saved
      flag; a missing activity or a missing key reads as false. */
  predicate FlagOf(m: EditorMap, id: int, kind: Kind)
  {
    id in m && kind in m[id] && m[id][kind]
  }

  /** One element of `roleMappings`. */
  datatype Mapping = Mapping(activityId: int, canView: bool, canUpdate: bool, canDelete: bool, canCreate: bool)

  function MappingFor(m: EditorMap, id: int): Mapping
  {
    Mapping(id, FlagOf(m, id, ViewFlag), FlagOf(m, id, UpdateFlag), FlagOf(m, id, DeleteFlag), FlagOf(m, id, AddFlag))
  }

  predicate Granted(mp: Mapping)
  {
    mp.canView || mp.canUpdate || mp.canDelete || mp.canCreate
  }

  predicate HasAnyFlag(m: EditorMap, id: int)
  {
    FlagOf(m, id, ViewFlag) || FlagOf(m, id, AddFlag) || FlagOf(m, id, UpdateFlag) || FlagOf(m, id, DeleteFlag)
  }

  predicate IdsIncreasing(ms: seq<Mapping>)
  {
    forall i, j :: 0 <= i < j < |ms| ==> ms[i].activityId < ms[j].activityId
  }

  /** `actWithIds.map(activity => ({ activityId: activity.id, ... }))` */
  function MapActivities(m: EditorMap, acts: seq<Activity>): (r: seq<Mapping>)
    ensures |r| == |acts|
    ensures forall i :: 0 <= i < |acts| ==> r[i] == MappingFor(m, acts[i].id)
  {
    if acts == [] then [] else [MappingFor(m, acts[0].id)] + MapActivities(m, acts[1..])
  }

  /** `.filter(mapping => mapping.canView || mapping.canUpdate || mapping.canDelete || mapping.canCreate)` */
  function KeepGranted(ms: seq<Mapping>): (r: seq<Mapping>)
    ensures forall x :: x in r <==> x in ms && Granted(x)
    ensures IdsIncreasing(ms) ==> IdsIncreasing(r)
  {
    if ms == [] then []
    else
      var rest := KeepGranted(ms[1..]);
      TailOfIncreasing(ms, rest);
      if Granted(ms[0]) then [ms[0]] + rest else rest
  }

  /** What the filter's recursion needs of an increasing list: its tail is
      increasing and its head lies below every element drawn from the tail. */
  lemma TailOfIncreasing(ms: seq<Mapping>, rest: seq<Mapping>)
    requires ms != [] && forall x :: x in rest ==> x in ms[1..]
    ensures IdsIncreasing(ms) ==> IdsIncreasing(ms[1..]) && forall x :: x in rest ==> ms[0].activityId < x.activityId
  {
    if IdsIncreasing(ms) {
      forall x | x in rest ensures ms[0].activityId < x.activityId {
        var k :| 0 <= k < |ms[1..]| && ms[1..][k] == x;
        assert ms[k + 1] == x;
      }
    }
  }

  /** The `roleMappings` the save handler sends. */
  function RoleMappings(m: EditorMap): seq<Mapping>
  {
    KeepGranted(MapActivities(m, ActWithIds))
  }

  /** The saved mappings follow the fixed activity order, so no activity
      appears twice. */
  lemma RoleMappingsOrdered(m: EditorMap)
    ensures IdsIncreasing(RoleMappings(m))
  {
    var all := MapActivities(m, ActWithIds);
    ActWithIdsAreOneToSeven();
    assert IdsIncreasing(all);
  }

  /** A mapping is saved iff it belongs to an activity of the fixed table that
      has at least one flag set, and then each saved flag is the editor's
      value for it (false when absent); `canCreate` comes from the 'add' key.
      Editor entries for ids outside 1..7 never reach the payload. */
  lemma RoleMappingsContent(m: EditorMap)
    ensures forall mp :: mp in RoleMappings(m) ==> 1 <= mp.activityId <= 7 && mp == MappingFor(m, mp.activityId)
    ensures forall mp :: mp in RoleMappings(m) ==>
      && mp.canView == FlagOf(m, mp.activityId, ViewFlag)
      && mp.canCreate == FlagOf(m, mp.activityId, AddFlag)
      && mp.canUpdate == FlagOf(m, mp.activityId, UpdateFlag)
      && mp.canDelete == FlagOf(m, mp.activityId, DeleteFlag)
    ensures forall id :: 1 <= id <= 7 ==> (MappingFor(m, id) in RoleMappings(m) <==> HasAnyFlag(m, id))
    ensures forall id :: (exists mp :: mp in RoleMappings(m) && mp.activityId == id) <==> 1 <= id <= 7 && HasAnyFlag(m, id)
  {
    var all := MapActivities(m, ActWithIds);
    ActWithIdsAreOneToSeven();
    forall mp | mp in all ensures 1 <= mp.activityId <= 7 && mp == MappingFor(m, mp.activityId) {
      var k :| 0 <= k < |all| && all[k] == mp;
    }
    forall id | 1 <= id <= 7 ensures MappingFor(m, id) in all {
      assert all[id - 1] == MappingFor(m, id);
    }
  }

  /** Saving right after opening the editor: an activity of the table is saved
      iff its last fetched entry carries "True" in some flag, with exactly the
      decoded flags; an activity with no fetched entry is not saved. */
  lemma {:induction false} SaveAfterDecode(fetched: seq<Permission>, i: int)
    requires 0 <= i < |fetched| && 1 <= fetched[i].activityId <= 7
    requires forall j :: i < j < |fetched| ==> fetched[j].activityId != fetched[i].activityId
    ensures var mp := MappingFor(Decode(fetched), fetched[i].activityId);
      && (mp in RoleMappings(Decode(fetched)) <==>
           IsTrueLiteral(fetched[i].canView) || IsTrueLiteral(fetched[i].canCreate) ||
           IsTrueLiteral(fetched[i].canUpdate) || IsTrueLiteral(fetched[i].canDelete))
      && mp.canView == IsTrueLiteral(fetched[i].canView)
      && mp.canCreate == IsTrueLiteral(fetched[i].canCreate)
      && mp.canUpdate == IsTrueLiteral(fetched[i].canUpdate)
      && mp.canDelete == IsTrueLiteral(fetched[i].canDelete)
  {
    DecodeLastWins(fetched, i);
    RoleMappingsContent(Decode(fetched));
  }

  /** The filter drops a list in which nothing is granted. */
  lemma {:induction false} KeepGrantedNone(ms: seq<Mapping>)
    requires forall i :: 0 <= i < |ms| ==> !Granted(ms[i])
    ensures KeepGranted(ms) == []
  {
    if ms != [] {
      KeepGrantedNone(ms[1..]);
    }
  }

  /** An editor with no flag set on any of the seven activities saves an
      empty mapping list. */
  lemma NothingGrantedSavesNothing(m: EditorMap)
    requires forall id :: 1 <= id <= 7 ==> !HasAnyFlag(m, id)
    ensures RoleMappings(m) == []
  {
    ActWithIdsAreOneToSeven();
    var all := MapActivities(m, ActWithIds);
    forall i | 0 <= i < |all| ensures !Granted(all[i]) {
      assert all[i] == MappingFor(m, i + 1);
      assert !HasAnyFlag(m, i + 1);
    }
    KeepGrantedNone(all);
  }

  /** A checkbox change touches only its own activity's mapping. */
  lemma SetFlagChangesOneMapping(m: EditorMap, id: int, kind: Kind, checked: bool, other: int)
    requires other != id
    ensures MappingFor(SetFlag(m, id, kind, checked), other) == MappingFor(m, other)
    ensures FlagOf(SetFlag(m, id, kind, checked), id, kind) == checked
  {
  }

  // ---------------------------------------------------------------- page state

  datatype Role = Role(roleID: Value, roleName: Value)

  /** `selectedRole`: `{roleId, roleName}` after an edit, `{roleName: ''}` after add-new. */
  datatype SelectedRole = SelectedRole(roleId: Value, roleName: Value)

  datatype MappedDataRequest = MappedDataRequest(roleId: Value, userId: Value)

  datatype SavePayload = SavePayload(roleId: Value, roleName: Value, isDeleted: string,
                                     userName: Value, roleMappings: seq<Mapping>)

  datatype DeletePayload = DeletePayload(roleId: Value, isDeleted: string, modifiedBy: Value)

  /** The `MapRole` request body: `roleId: selectedRole?.roleId || null`,
      `roleName: selectedRole?.roleName || ''`, `isDeleted: '0'`. */
  function SavePayloadFor(sel: Option<SelectedRole>, userName: Value, m: EditorMap): (p: SavePayload)
    ensures p.isDeleted == "0"
    ensures sel.None? ==> p.roleId == Null && p.roleName == Str("")
    ensures sel.Some? ==> p.roleId == Or(sel.value.roleId, Null) && p.roleName == Or(sel.value.roleName, Str(""))
    ensures p.userName == userName
    ensures p.roleMappings == RoleMappings(m)
  {
    match sel
    case None => SavePayload(Null, Str(""), "0", userName, RoleMappings(m))
    case Some(s) => SavePayload(Or(s.roleId, Null), Or(s.roleName, Str("")), "0", userName, RoleMappings(m))
  }

  class RoleManagementPage {
    var roles: seq<Role>
    var selectedRole: Option<SelectedRole>
    var showModal: bool
    var isEdit: bool
    var permissions: EditorMap
    /** `UserInfo.name` and `UserInfo.userId` from storage, read on render. */
    const userName: Value
    const userId: Value

    /** The page as first rendered, with the signing name and the user id
        read from the stored profile. */
    constructor (storage: map<string, Session.Stored>)
      requires Session.ReadUserName(storage).Parsed?
      ensures roles == [] && selectedRole == None && !showModal && !isEdit && permissions == map[]
      ensures userName == Session.ReadUserName(storage).value && userId == Session.ReadUserId(storage).value
    {
      roles := [];
      selectedRole := None;
      showModal := false;
      isEdit := false;
      permissions := map[];
      userName := Session.ReadUserName(storage).value;
      userId := Session.ReadUserId(storage).value;
    }

    /** `fetchAllRoles` settling. */
    method FetchRolesSettled(reply: Reply<seq<Role>>)
      modifies this`roles
      ensures roles == FetchedList(reply, old(roles))
    {
      roles := FetchedList(reply, roles);
    }

    /** `handleEditRole`: asks for the role's mapped data; only a "00" reply
        opens the editor with the decoded map. */
    method HandleEditRole(role: Role, reply: Reply<seq<Permission>>) returns (request: MappedDataRequest, notice: Notice)
      modifies this`permissions, this`selectedRole, this`isEdit, this`showModal
      ensures request == MappedDataRequest(role.roleID, userId)
      ensures StatusIs00(reply) ==>
        && permissions == Decode(reply.data)
        && selectedRole == Some(SelectedRole(role.roleID, role.roleName))
        && isEdit && showModal && notice == Quiet
      ensures !StatusIs00(reply) ==>
        && permissions == old(permissions) && selectedRole == old(selectedRole)
        && isEdit == old(isEdit) && showModal == old(showModal)
        && notice == (if reply.Failed? then Alert("Error fetching role data.") else Alert("Failed to fetch role data."))
    {
      request := MappedDataRequest(role.roleID, userId);
      if StatusIs00(reply) {
        permissions := Decode(reply.data);
        selectedRole := Some(SelectedRole(role.roleID, role.roleName));
        isEdit := true;
        showModal := true;
        notice := Quiet;
      } else if reply.Http? {
        notice := Alert("Failed to fetch role data.");
      } else {
        notice := Alert("Error fetching role data.");
      }
    }

    method HandlePermissionChange(activityId: int, kind: Kind, checked: bool)
      modifies this`permissions
      ensures permissions == SetFlag(old(permissions), activityId, kind, checked)
    {
      permissions := SetFlag(permissions, activityId, kind, checked);
    }

    /** `handleDeleteRole`: unlike the entity pages, the role page refetches
        only on the "00" sentinel, not on a bare HTTP 200. */
    method HandleDeleteRole(roleID: Value, confirmed: bool, reply: Reply<Value>)
      returns (sent: Option<DeletePayload>, refetch: bool, notice: Notice)
      ensures sent.Some? <==> confirmed
      ensures sent.Some? ==> sent.value == DeletePayload(roleID, "1", userName)
      ensures refetch <==> confirmed && StatusIs00(reply)
      ensures !confirmed ==> notice == Quiet
      ensures confirmed ==> (notice ==
        (if StatusIs00(reply) then Alert("Role deleted successfully!")
         else if reply.Http? then Alert("Failed to delete role.")
         else Alert("Error deleting role.")))
    {
      if !confirmed {
        return None, false, Quiet;
      }
      sent := Some(DeletePayload(roleID, "1", userName));
      refetch := StatusIs00(reply);
      if refetch {
        notice := Alert("Role deleted successfully!");
      } else if reply.Http? {
        notice := Alert("Failed to delete role.");
      } else {
        notice := Alert("Error deleting role.");
      }
    }

    /** `handleSaveChanges`: sends the whole mapping set (a full replace) and
        closes the editor only on "00". */
    method HandleSaveChanges(reply: Reply<Value>) returns (payload: SavePayload, refetch: bool, notice: Notice)
      modifies this`showModal
      ensures payload == SavePayloadFor(selectedRole, userName, permissions)
      ensures refetch <==> StatusIs00(reply)
      ensures showModal == (old(showModal) && !StatusIs00(reply))
      ensures notice ==
        (if StatusIs00(reply) then Alert("Role saved successfully!")
         else if reply.Http? then Alert("Failed to save role.")
         else Alert("Error saving role."))
    {
      payload := SavePayloadFor(selectedRole, userName, permissions);
      refetch := StatusIs00(reply);
      if refetch {
        showModal := false;
        notice := Alert("Role saved successfully!");
      } else if reply.Http? {
        notice := Alert("Failed to save role.");
      } else {
        notice := Alert("Error saving role.");
      }
    }

    /** `handleCloseModal`: the editor map and `isEdit` are left as they were. */
    method HandleCloseModal()
      modifies this`showModal, this`selectedRole
      ensures !showModal && selectedRole == None
    {
      showModal := false;
      selectedRole := None;
    }

    method HandleAddNewRole()
      modifies this`selectedRole, this`permissions, this`isEdit, this`showModal
      ensures selectedRole == Some(SelectedRole(Undefined, Str(""))) && permissions == map[] && !isEdit && showModal
    {
      selectedRole := Some(SelectedRole(Undefined, Str("")));
      permissions := map[];
      isEdit := false;
      showModal := true;
    }

    /** The role-name input: `setSelectedRole({ ...selectedRole, roleName: value })`. */
    method ChangeRoleName(name: string)
      modifies this`selectedRole
      ensures selectedRole == Some(SelectedRole(if old(selectedRole).Some? then old(selectedRole).value.roleId else Undefined, Str(name)))
    {
      var id := if selectedRole.Some? then selectedRole.value.roleId else Undefined;
      selectedRole := Some(SelectedRole(id, Str(name)));
    }
  }

  /** Add-new then save: no role is selected by id, so the payload's roleId is
      null and its mapping list is empty. */
  method AddThenSave(reply: Reply<Value>) returns (payload: SavePayload)
    ensures payload.roleId == Null && payload.roleName == Str("") && payload.roleMappings == []
    ensures payload.isDeleted == "0"
  {
    var page := new RoleManagementPage(map[]);
    page.HandleAddNewRole();
    var refetch, notice;
    payload, refetch, notice := page.HandleSaveChanges(reply);
    NothingGrantedSavesNothing(map[]);
  }
}
