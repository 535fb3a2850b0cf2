/** The pieces every entity page (users, health workers, health facilities,
    patients) repeats: which fetches run on mount, how the save and soft-delete
    replies are judged, and the audit tags on a save payload. */
module EntityPage {
  import opened Wire

  /** `GetDropdownData`: the role and health-facility lists for form selectors. */
  datatype RoleOption = RoleOption(roleId: Value, roleName: Value)
  datatype FacilityOption = FacilityOption(healthFacilityId: Value, healthFacilityName: Value)
  datatype Dropdown = Dropdown(roleDropdown: seq<RoleOption>, healthFacilityDropdown: seq<FacilityOption>)

  /** The fetches a page's mount effect starts. */
  datatype MountPlan = MountPlan(fetchList: bool, fetchDropdown: bool)

  /** `createdBy: isEdit ? '' : 'admin'`, `modifiedBy: isEdit ? 'admin' : ''`. */
  datatype AuditTags = AuditTags(createdBy: string, modifiedBy: string)

  /** A save carries exactly one non-empty audit tag, always 'admin': the
      creator tag for a new record, the modifier tag for an edited one. */
  function TagsFor(isEdit: bool): (t: AuditTags)
    ensures (t.createdBy == "") != (t.modifiedBy == "")
    ensures t.createdBy != "" <==> !isEdit
    ensures t.createdBy in {"", "admin"} && t.modifiedBy in {"", "admin"}
  {
    if isEdit then AuditTags("", "admin") else AuditTags("admin", "")
  }

  /** What a handler does once its write has been answered. */
  datatype Reaction = Reaction(refetch: bool, closeModal: bool, notice: Notice)

  /** `handleSaveChanges`: only the "00" status sentinel refetches the list and
      closes the editor; any other reply shows the server's `data` verbatim and
      a rejected request shows `errorText`, and both leave the editor open. */
  function SaveReaction<T>(reply: Reply<T>, errorText: string): (r: Reaction)
    ensures r.refetch <==> StatusIs00(reply)
    ensures r.closeModal <==> StatusIs00(reply)
    ensures reply.Failed? ==> r.notice == Alert(errorText)
    ensures reply.Http? && !StatusIs00(reply) ==> r.notice == AlertServerData
    ensures StatusIs00(reply) ==> r.notice == Quiet
  {
    match reply
    case Failed => Reaction(false, false, Alert(errorText))
    case Http(_, code, _) =>
      if code == Str("00") then Reaction(true, true, Quiet) else Reaction(false, false, AlertServerData)
  }

  /** The `.then`/`.catch` of a soft delete on an entity page: an HTTP 200
      refetches whatever the body says; another resolved status and a rejected
      request only notify. A delete never touches the editor. */
  function DeleteReaction<T>(reply: Reply<T>, okText: string, failText: string, errorText: string): (r: Reaction)
    ensures r.refetch <==> HttpOk(reply)
    ensures !r.closeModal
    ensures r.notice == (if HttpOk(reply) then Alert(okText) else if reply.Http? then Alert(failText) else Alert(errorText))
  {
    match reply
    case Failed => Reaction(false, false, Alert(errorText))
    case Http(status, _, _) =>
      if status == 200 then Reaction(true, false, Alert(okText)) else Reaction(false, false, Alert(failText))
  }

  /** The two reactions judge different things: a 200 reply whose body rejects
      the write still counts as a successful delete, but not as a successful save. */
  lemma DeleteAndSaveJudgeDifferently()
    ensures var reply: Reply<int> := Http(200, Str("01"), 0);
      DeleteReaction(reply, "", "", "").refetch && !SaveReaction(reply, "").refetch
  {
  }

  /** A list fetch (`setX(response.data.data)` inside try/catch): a resolved
      reply replaces the list, a rejected one keeps the previous list. */
  function FetchedList<T>(reply: Reply<seq<T>>, previous: seq<T>): (r: seq<T>)
    ensures reply.Http? ==> r == reply.data
    ensures reply.Failed? ==> r == previous
  {
    if reply.Http? then reply.data else previous
  }
}
