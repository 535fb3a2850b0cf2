/** The User Management page: users and the role/facility dropdowns, both
    fetched only with the 'User Management' view grant; an add/edit editor
    whose save carries audit tags; and a soft delete signed with the logged-in
    user's name. */
module UserManagement {
  import opened Wire
  import opened Permissions
  import opened EntityPage
  import Session

  const ActivityName: string := "User Management"

  /** One record of `GetUserData`. */
  datatype User = User(userID: Value, name: Value, email: Value, phoneNumber: Value,
                       role: Value, roleName: Value, healthFacilityId: Value, healthFacilityName: Value)

  /** `selectedUser`. The editor has an Address input, but neither the add
      nor the edit handler puts an `address` in the form, so it reads as
      undefined until typed into. */
  datatype UserForm = UserForm(userID: Value, name: Value, email: Value, address: Value,
                               phoneNumber: Value, role: Value, healthFacilityId: Value)

  datatype SavePayload = SavePayload(userID: Value, name: Value, email: Value, address: Value,
                                     phoneNumber: Value, role: Value, healthFacilityId: Value, tags: AuditTags)

  /** `modifiedBy` is `UserInfo.name` from storage, undefined when absent. */
  datatype DeletePayload = DeletePayload(userID: Value, isDeleted: string, modifiedBy: Value)

  /** Both fetches are gated on the view grant: without it the page starts
      with no users and no dropdown options. */
  function MountPlanFor(perms: seq<Permission>): (plan: MountPlan)
    ensures plan.fetchList <==> Grants(perms, ActivityName, View)
    ensures plan.fetchDropdown <==> plan.fetchList
  {
    var view := Grants(perms, ActivityName, View);
    MountPlan(view, view)
  }

  const AddForm: UserForm := UserForm(Undefined, Str(""), Str(""), Undefined, Str(""), Str(""), Str(""))

  /** `handleEditUser`: the record's fields, falsy role and facility
      replaced by '', and no address. */
  function EditForm(u: User): (f: UserForm)
    ensures f.userID == u.userID && f.name == u.name && f.email == u.email && f.phoneNumber == u.phoneNumber
    ensures f.role == (if Falsy(u.role) then Str("") else u.role)
    ensures f.healthFacilityId == (if Falsy(u.healthFacilityId) then Str("") else u.healthFacilityId)
    ensures f.address == Undefined
  {
    UserForm(u.userID, u.name, u.email, Undefined, u.phoneNumber, Or(u.role, Str("")), Or(u.healthFacilityId, Str("")))
  }

  function SavePayloadOf(f: UserForm, isEdit: bool): SavePayload
  {
    SavePayload(f.userID, f.name, f.email, f.address, f.phoneNumber, f.role, f.healthFacilityId, TagsFor(isEdit))
  }

  /** Editing a user and saving without typing sends the record's own fields
      as modified by 'admin', and never an address: whatever address the user
      had is not sent back. */
  lemma EditThenSaveSendsNoAddress(u: User)
    ensures var body := SavePayloadOf(EditForm(u), true);
      && body.userID == u.userID && body.name == u.name && body.email == u.email
      && body.address == Undefined
      && body.tags == AuditTags("", "admin")
  {
  }

  /** The editor's Address input shows `address || ''`: after Add or Edit it
      shows '' although the form holds undefined, so an untouched address
      looks filled in as empty yet goes out undefined. */
  lemma AddressShownEmptySentUndefined(u: User)
    ensures Or(AddForm.address, Str("")) == Str("") && SavePayloadOf(AddForm, false).address == Undefined
    ensures Or(EditForm(u).address, Str("")) == Str("") && SavePayloadOf(EditForm(u), true).address == Undefined
  {
  }

  /** The editor's inputs and dropdowns; each sets a single field of the
      form. The user id has no input. */
  datatype Input = NameInput | EmailInput | AddressInput | PhoneInput | RoleInput | FacilityInput

  /** `{ ...selectedUser, <field>: e.target.value }`: the input's field
      becomes the chosen text, every other field is kept. */
  function SetField(f: UserForm, i: Input, text: string): (g: UserForm)
    ensures g.userID == f.userID
    ensures g.name == (if i.NameInput? then Str(text) else f.name)
    ensures g.email == (if i.EmailInput? then Str(text) else f.email)
    ensures g.address == (if i.AddressInput? then Str(text) else f.address)
    ensures g.phoneNumber == (if i.PhoneInput? then Str(text) else f.phoneNumber)
    ensures g.role == (if i.RoleInput? then Str(text) else f.role)
    ensures g.healthFacilityId == (if i.FacilityInput? then Str(text) else f.healthFacilityId)
  {
    match i
    case NameInput => f.(name := Str(text))
    case EmailInput => f.(email := Str(text))
    case AddressInput => f.(address := Str(text))
    case PhoneInput => f.(phoneNumber := Str(text))
    case RoleInput => f.(role := Str(text))
    case FacilityInput => f.(healthFacilityId := Str(text))
  }

  datatype Keystroke = Keystroke(input: Input, text: string)

  /** The form after a series of input changes, applied first to last. */
  function Typed(f: UserForm, ks: seq<Keystroke>): UserForm
    decreases |ks|
  {
    if ks == [] then f else SetField(Typed(f, ks[..|ks| - 1]), ks[|ks| - 1].input, ks[|ks| - 1].text)
  }

  /** No sequence of input changes alters the user id, and the address stays
      as it was unless the Address input itself was typed into. */
  lemma {:induction false} TypingKeepsIdAndUntypedAddress(f: UserForm, ks: seq<Keystroke>)
    ensures Typed(f, ks).userID == f.userID
    ensures (forall n :: 0 <= n < |ks| ==> !ks[n].input.AddressInput?) ==> Typed(f, ks).address == f.address
    decreases |ks|
  {
    if ks != [] {
      TypingKeepsIdAndUntypedAddress(f, ks[..|ks| - 1]);
    }
  }

  class UserManagementPage {
    var users: seq<User>
    var selectedUser: Option<UserForm>
    var showModal: bool
    var isEdit: bool
    var roles: seq<RoleOption>
    var healthFacilities: seq<FacilityOption>
    /** `JSON.parse(localStorage.getItem('permissions') || '[]')`. */
    const perms: seq<Permission>
    /** `UserInfo.name` as read from storage: the delete's signature. */
    const userName: Value

    ghost predicate Valid()
      reads this
    {
      showModal ==> selectedUser.Some?
    }

    /** The page as first rendered, with the grants and the signing name
        read from storage. */
    constructor (storage: map<string, Session.Stored>)
      requires Session.ReadPermissions(storage).Parsed? && Session.ReadUserName(storage).Parsed?
      ensures Valid() && perms == Session.ReadPermissions(storage).value
      ensures userName == Session.ReadUserName(storage).value
      ensures users == [] && selectedUser == None && !showModal && !isEdit
      ensures roles == [] && healthFacilities == []
    {
      users := [];
      selectedUser := None;
      showModal := false;
      isEdit := false;
      roles := [];
      healthFacilities := [];
      perms := Session.ReadPermissions(storage).value;
      userName := Session.ReadUserName(storage).value;
    }

    /** The mount effect, given the replies to the fetches it may start:
        users and dropdowns together, only with the view grant. */
    method Mount(listReply: Reply<seq<User>>, dropdownReply: Reply<Dropdown>)
      modifies this`users, this`roles, this`healthFacilities
      ensures users == if Grants(perms, ActivityName, View) then FetchedList(listReply, old(users)) else old(users)
      ensures roles == if Grants(perms, ActivityName, View) && dropdownReply.Http? then dropdownReply.data.roleDropdown else old(roles)
      ensures healthFacilities ==
        if Grants(perms, ActivityName, View) && dropdownReply.Http? then dropdownReply.data.healthFacilityDropdown else old(healthFacilities)
    {
      var plan := MountPlanFor(perms);
      if plan.fetchList {
        FetchUsersSettled(listReply);
      }
      if plan.fetchDropdown {
        FetchDropdownSettled(dropdownReply);
      }
    }

    method FetchUsersSettled(reply: Reply<seq<User>>)
      modifies this`users
      ensures users == FetchedList(reply, old(users))
    {
      users := FetchedList(reply, users);
    }

    /** `fetchDropdownData`: a resolved reply sets both option lists. */
    method FetchDropdownSettled(reply: Reply<Dropdown>)
      modifies this`roles, this`healthFacilities
      ensures reply.Http? ==> roles == reply.data.roleDropdown && healthFacilities == reply.data.healthFacilityDropdown
      ensures reply.Failed? ==> roles == old(roles) && healthFacilities == old(healthFacilities)
    {
      if reply.Http? {
        roles := reply.data.roleDropdown;
        healthFacilities := reply.data.healthFacilityDropdown;
      }
    }

    method HandleAddNewUser()
      modifies this`selectedUser, this`isEdit, this`showModal
      ensures Valid() && selectedUser == Some(AddForm) && !isEdit && showModal
    {
      selectedUser := Some(AddForm);
      isEdit := false;
      showModal := true;
    }

    method HandleEditUser(u: User)
      modifies this`selectedUser, this`isEdit, this`showModal
      ensures Valid() && selectedUser == Some(EditForm(u)) && isEdit && showModal
    {
      selectedUser := Some(EditForm(u));
      isEdit := true;
      showModal := true;
    }

    /** An input's or a dropdown's `onChange`, which exists only in the open
        editor. */
    method ChangeField(i: Input, text: string)
      requires Valid() && showModal
      modifies this`selectedUser
      ensures Valid() && selectedUser == Some(SetField(old(selectedUser).value, i, text))
    {
      selectedUser := Some(SetField(selectedUser.value, i, text));
    }

    method HandleSaveChanges(reply: Reply<Value>) returns (payload: SavePayload, reaction: Reaction)
      requires Valid() && showModal
      modifies this`showModal
      ensures Valid()
      ensures payload == SavePayloadOf(selectedUser.value, isEdit)
      ensures reaction == SaveReaction(reply, "Error saving user.")
      ensures showModal <==> !StatusIs00(reply)
    {
      payload := SavePayloadOf(selectedUser.value, isEdit);
      reaction := SaveReaction(reply, "Error saving user.");
      if reaction.closeModal {
        showModal := false;
      }
    }

    /** `handleDeleteUser`: signed with the stored user's name, not 'admin'. */
    method HandleDeleteUser(userID: Value, confirmed: bool, reply: Reply<Value>)
      returns (sent: Option<DeletePayload>, reaction: Reaction)
      ensures sent.Some? <==> confirmed
      ensures confirmed ==> sent.value == DeletePayload(userID, "1", userName)
      ensures reaction.refetch <==> confirmed && HttpOk(reply)
      ensures confirmed ==> reaction == DeleteReaction(reply, "User deleted successfully!",
                                                       "Failed to delete user.", "Error deleting user.")
      ensures !confirmed ==> reaction == Reaction(false, false, Quiet)
    {
      if !confirmed {
        return None, Reaction(false, false, Quiet);
      }
      sent := Some(DeletePayload(userID, "1", userName));
      reaction := DeleteReaction(reply, "User deleted successfully!", "Failed to delete user.", "Error deleting user.");
    }

    method HandleCloseModal()
      modifies this`showModal, this`selectedUser
      ensures Valid() && !showModal && selectedUser == None
    {
      showModal := false;
      selectedUser := None;
    }
  }

  /** Without the view grant the mount fetches neither the users nor the
      dropdowns: the table and both selectors stay empty. */
  method MountWithoutViewGrant(storage: map<string, Session.Stored>, listReply: Reply<seq<User>>, dropdownReply: Reply<Dropdown>)
    returns (shown: seq<User>, roleChoices: seq<RoleOption>, facilityChoices: seq<FacilityOption>)
    requires Session.ReadPermissions(storage).Parsed? && Session.ReadUserName(storage).Parsed?
    requires !Grants(Session.ReadPermissions(storage).value, ActivityName, View)
    ensures shown == [] && roleChoices == [] && facilityChoices == []
  {
    var p := new UserManagementPage(storage);
    p.Mount(listReply, dropdownReply);
    shown, roleChoices, facilityChoices := p.users, p.roles, p.healthFacilities;
  }

  /** Open a user for editing, type into any inputs in any order, and save:
      the body is the typed form with the user's own id, and, unless the
      Address input was typed into, an undefined address. */
  method EditTypeAndSave(u: User, ks: seq<Keystroke>, reply: Reply<Value>) returns (payload: SavePayload)
    ensures payload == SavePayloadOf(Typed(EditForm(u), ks), true)
    ensures payload.userID == u.userID
    ensures (forall n :: 0 <= n < |ks| ==> !ks[n].input.AddressInput?) ==> payload.address == Undefined
  {
    var p := new UserManagementPage(map[]);
    p.HandleEditUser(u);
    var n := 0;
    while n < |ks|
      invariant 0 <= n <= |ks|
      invariant p.Valid() && p.showModal && p.isEdit
      invariant p.selectedUser == Some(Typed(EditForm(u), ks[..n]))
    {
      p.ChangeField(ks[n].input, ks[n].text);
      assert ks[..n + 1][..n] == ks[..n];
      n := n + 1;
    }
    assert ks[..n] == ks;
    TypingKeepsIdAndUntypedAddress(EditForm(u), ks);
    var reaction;
    payload, reaction := p.HandleSaveChanges(reply);
  }
}
