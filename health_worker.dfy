/** The Health Worker page: workers fetched with the 'Health Worker' view
    grant, the facility dropdown fetched regardless, an add/edit editor whose
    save carries audit tags, and soft delete. */
module HealthWorker {
  import opened Wire
  import opened Permissions
  import opened EntityPage
  import Session

  const ActivityName: string := "Health Worker"

  /** One record of `GetHealthWorkerData`. The edit handler reads the facility
      id from the field spelled `healthFacilityID`; `healthFacilityId` is the
      spelling the forms and the dropdown use. A record carrying only one of
      the two has the other undefined. */
  datatype Worker = Worker(id: Value, name: Value, designation: Value, email: Value, phoneNumber: Value,
                           healthFacilityID: Value, healthFacilityId: Value, healthFacilityName: Value)

  datatype WorkerForm = WorkerForm(id: Value, name: Value, designation: Value, email: Value,
                                   phoneNumber: Value, healthFacilityId: Value)

  datatype SavePayload = SavePayload(id: Value, name: Value, designation: Value, email: Value,
                                     phoneNumber: Value, healthFacilityId: Value, tags: AuditTags)

  datatype DeletePayload = DeletePayload(id: Value, isDeleted: string, modifiedBy: string)

  function MountPlanFor(perms: seq<Permission>): (plan: MountPlan)
    ensures plan.fetchList <==> Grants(perms, ActivityName, View)
    ensures plan.fetchDropdown
  {
    MountPlan(Grants(perms, ActivityName, View), true)
  }

  const AddForm: WorkerForm := WorkerForm(Undefined, Str(""), Str(""), Str(""), Str(""), Str(""))

  /** `handleEditWorker`: the facility id is copied from `healthFacilityID`
      as it is, with no '' default. */
  function EditForm(w: Worker): (f: WorkerForm)
    ensures f.id == w.id && f.name == w.name && f.designation == w.designation
    ensures f.email == w.email && f.phoneNumber == w.phoneNumber
    ensures f.healthFacilityId == w.healthFacilityID
  {
    WorkerForm(w.id, w.name, w.designation, w.email, w.phoneNumber, w.healthFacilityID)
  }

  function SavePayloadOf(f: WorkerForm, isEdit: bool): SavePayload
  {
    SavePayload(f.id, f.name, f.designation, f.email, f.phoneNumber, f.healthFacilityId, TagsFor(isEdit))
  }

  /** A record that carries its facility only as `healthFacilityId` opens in
      the editor with no facility selected (the dropdown shows `'' `), and an
      untouched save sends the facility as undefined. */
  lemma EditDropsFacilityUnderOtherSpelling(w: Worker)
    requires w.healthFacilityID == Undefined && w.healthFacilityId != Undefined
    ensures Or(EditForm(w).healthFacilityId, Str("")) == Str("")
    ensures SavePayloadOf(EditForm(w), true).healthFacilityId == Undefined
    ensures SavePayloadOf(EditForm(w), true).healthFacilityId != w.healthFacilityId
  {
  }

  /** The editor's inputs and the facility dropdown; each sets a single
      field of the form. The id has no input. */
  datatype Input = NameInput | DesignationInput | EmailInput | PhoneInput | FacilityInput

  /** `{ ...selectedWorker, <field>: e.target.value }`: the input's field
      becomes the chosen text, every other field is kept. */
  function SetField(f: WorkerForm, i: Input, text: string): (g: WorkerForm)
    ensures g.id == f.id
    ensures g.name == (if i.NameInput? then Str(text) else f.name)
    ensures g.designation == (if i.DesignationInput? then Str(text) else f.designation)
    ensures g.email == (if i.EmailInput? then Str(text) else f.email)
    ensures g.phoneNumber == (if i.PhoneInput? then Str(text) else f.phoneNumber)
    ensures g.healthFacilityId == (if i.FacilityInput? then Str(text) else f.healthFacilityId)
  {
    match i
    case NameInput => f.(name := Str(text))
    case DesignationInput => f.(designation := Str(text))
    case EmailInput => f.(email := Str(text))
    case PhoneInput => f.(phoneNumber := Str(text))
    case FacilityInput => f.(healthFacilityId := Str(text))
  }

  datatype Keystroke = Keystroke(input: Input, text: string)

  /** The form after a series of input changes, applied first to last. */
  function Typed(f: WorkerForm, ks: seq<Keystroke>): WorkerForm
    decreases |ks|
  {
    if ks == [] then f else SetField(Typed(f, ks[..|ks| - 1]), ks[|ks| - 1].input, ks[|ks| - 1].text)
  }

  /** No sequence of input changes alters the form's id. */
  lemma {:induction false} TypingKeepsId(f: WorkerForm, ks: seq<Keystroke>)
    ensures Typed(f, ks).id == f.id
    decreases |ks|
  {
    if ks != [] {
      TypingKeepsId(f, ks[..|ks| - 1]);
    }
  }

  class HealthWorkerPage {
    var workers: seq<Worker>
    var selectedWorker: Option<WorkerForm>
    var showModal: bool
    var isEdit: bool
    var healthFacilities: seq<FacilityOption>
    /** `JSON.parse(localStorage.getItem('permissions') || '[]')`. */
    const perms: seq<Permission>

    ghost predicate Valid()
      reads this
    {
      showModal ==> selectedWorker.Some?
    }

    /** The page as first rendered, with the grants read from storage. */
    constructor (storage: map<string, Session.Stored>)
      requires Session.ReadPermissions(storage).Parsed?
      ensures Valid() && perms == Session.ReadPermissions(storage).value
      ensures workers == [] && selectedWorker == None && !showModal && !isEdit && healthFacilities == []
    {
      workers := [];
      selectedWorker := None;
      showModal := false;
      isEdit := false;
      healthFacilities := [];
      perms := Session.ReadPermissions(storage).value;
    }

    /** The mount effect, given the replies to the fetches it may start:
        workers only with the view grant, facilities always. */
    method Mount(listReply: Reply<seq<Worker>>, dropdownReply: Reply<Dropdown>)
      modifies this`workers, this`healthFacilities
      ensures workers == if Grants(perms, ActivityName, View) then FetchedList(listReply, old(workers)) else old(workers)
      ensures healthFacilities == if dropdownReply.Http? then dropdownReply.data.healthFacilityDropdown else old(healthFacilities)
    {
      var plan := MountPlanFor(perms);
      if plan.fetchList {
        FetchWorkersSettled(listReply);
      }
      if plan.fetchDropdown {
        FetchFacilitiesSettled(dropdownReply);
      }
    }

    method FetchWorkersSettled(reply: Reply<seq<Worker>>)
      modifies this`workers
      ensures workers == FetchedList(reply, old(workers))
    {
      workers := FetchedList(reply, workers);
    }

    method FetchFacilitiesSettled(reply: Reply<Dropdown>)
      modifies this`healthFacilities
      ensures reply.Http? ==> healthFacilities == reply.data.healthFacilityDropdown
      ensures reply.Failed? ==> healthFacilities == old(healthFacilities)
    {
      if reply.Http? {
        healthFacilities := reply.data.healthFacilityDropdown;
      }
    }

    method HandleAddNewWorker()
      modifies this`selectedWorker, this`isEdit, this`showModal
      ensures Valid() && selectedWorker == Some(AddForm) && !isEdit && showModal
    {
      selectedWorker := Some(AddForm);
      isEdit := false;
      showModal := true;
    }

    method HandleEditWorker(w: Worker)
      modifies this`selectedWorker, this`isEdit, this`showModal
      ensures Valid() && selectedWorker == Some(EditForm(w)) && isEdit && showModal
    {
      selectedWorker := Some(EditForm(w));
      isEdit := true;
      showModal := true;
    }

    /** An input's or the dropdown's `onChange`, which exists only in the
        open editor. */
    method ChangeField(i: Input, text: string)
      requires Valid() && showModal
      modifies this`selectedWorker
      ensures Valid() && selectedWorker == Some(SetField(old(selectedWorker).value, i, text))
    {
      selectedWorker := Some(SetField(selectedWorker.value, i, text));
    }

    method HandleSaveChanges(reply: Reply<Value>) returns (payload: SavePayload, reaction: Reaction)
      requires Valid() && showModal
      modifies this`showModal
      ensures Valid()
      ensures payload == SavePayloadOf(selectedWorker.value, isEdit)
      ensures reaction == SaveReaction(reply, "Error saving worker.")
      ensures showModal <==> !StatusIs00(reply)
    {
      payload := SavePayloadOf(selectedWorker.value, isEdit);
      reaction := SaveReaction(reply, "Error saving worker.");
      if reaction.closeModal {
        showModal := false;
      }
    }

    method HandleDeleteWorker(id: Value, confirmed: bool, reply: Reply<Value>)
      returns (sent: Option<DeletePayload>, reaction: Reaction)
      ensures sent.Some? <==> confirmed
      ensures confirmed ==> sent.value == DeletePayload(id, "1", "admin")
      ensures reaction.refetch <==> confirmed && HttpOk(reply)
      ensures confirmed ==> reaction == DeleteReaction(reply, "Worker deleted successfully!",
                                                       "Failed to delete worker.", "Error deleting worker.")
      ensures !confirmed ==> reaction == Reaction(false, false, Quiet)
    {
      if !confirmed {
        return None, Reaction(false, false, Quiet);
      }
      sent := Some(DeletePayload(id, "1", "admin"));
      reaction := DeleteReaction(reply, "Worker deleted successfully!", "Failed to delete worker.", "Error deleting worker.");
    }

    method HandleCloseModal()
      modifies this`showModal, this`selectedWorker
      ensures Valid() && !showModal && selectedWorker == None
    {
      showModal := false;
      selectedWorker := None;
    }
  }

  /** Open a worker for editing, type into any inputs in any order, and
      save: the body is the typed form with the worker's own id; the facility
      goes out as chosen, or as read from `healthFacilityID` if the dropdown
      was left alone. */
  method EditTypeAndSave(w: Worker, ks: seq<Keystroke>, reply: Reply<Value>) returns (payload: SavePayload)
    ensures payload == SavePayloadOf(Typed(EditForm(w), ks), true)
    ensures payload.id == w.id
  {
    var p := new HealthWorkerPage(map[]);
    p.HandleEditWorker(w);
    var n := 0;
    while n < |ks|
      invariant 0 <= n <= |ks|
      invariant p.Valid() && p.showModal && p.isEdit
      invariant p.selectedWorker == Some(Typed(EditForm(w), ks[..n]))
    {
      p.ChangeField(ks[n].input, ks[n].text);
      assert ks[..n + 1][..n] == ks[..n];
      n := n + 1;
    }
    assert ks[..n] == ks;
    TypingKeepsId(EditForm(w), ks);
    var reaction;
    payload, reaction := p.HandleSaveChanges(reply);
  }
}
