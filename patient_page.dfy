/** The Patient page: list gated on the 'Patient' view grant, a facility
    dropdown fetched regardless, an add/edit editor, soft delete, and 6 rows a
    page with next/previous handlers that do NOT check bounds. */
module PatientPage {
  import opened Wire
  import opened Permissions
  import opened Paging
  import opened EntityPage
  import Session

  const PatientsPerPage: nat := 6
  const ActivityName: string := "Patient"

  datatype Patient = Patient(id: Value, name: Value, gender: Value, address: Value,
                             healthFacilityId: Value, healthFacilityName: Value)

  /** `selectedPatient`, the editor's form. */
  datatype PatientForm = PatientForm(id: Value, name: Value, gender: Value, address: Value, healthFacilityId: Value)

  /** The save body: exactly these five fields, no audit tags. */
  datatype SavePayload = SavePayload(id: Value, name: Value, gender: Value, address: Value, healthFacilityId: Value)

  datatype DeletePayload = DeletePayload(id: Value, isDeleted: string, modifiedBy: string)

  /** The mount effect: patients only with the view grant, the facility
      dropdown always. */
  function MountPlanFor(perms: seq<Permission>): (plan: MountPlan)
    ensures plan.fetchList <==> Grants(perms, ActivityName, View)
    ensures plan.fetchDropdown
  {
    MountPlan(Grants(perms, ActivityName, View), true)
  }

  /** `handleAddNewPatient`'s form: every field '' and no id. */
  const AddForm: PatientForm := PatientForm(Undefined, Str(""), Str(""), Str(""), Str(""))

  /** `handleEditPatient`'s form: the record's own fields, with a falsy
      facility id replaced by ''. */
  function EditForm(p: Patient): (f: PatientForm)
    ensures f.id == p.id && f.name == p.name && f.gender == p.gender && f.address == p.address
    ensures Falsy(p.healthFacilityId) ==> f.healthFacilityId == Str("")
    ensures !Falsy(p.healthFacilityId) ==> f.healthFacilityId == p.healthFacilityId
  {
    PatientForm(p.id, p.name, p.gender, p.address, Or(p.healthFacilityId, Str("")))
  }

  function SavePayloadOf(f: PatientForm): SavePayload
  {
    SavePayload(f.id, f.name, f.gender, f.address, f.healthFacilityId)
  }

  /** Saving an unchanged edit form sends the record back with its own id and
      fields; only a falsy facility id goes out as ''. */
  lemma EditThenSaveSendsRecord(p: Patient)
    ensures var body := SavePayloadOf(EditForm(p));
      && body.id == p.id && body.name == p.name && body.gender == p.gender && body.address == p.address
      && body.healthFacilityId == (if Falsy(p.healthFacilityId) then Str("") else p.healthFacilityId)
  {
  }

  /** Saving an untouched add form sends no id and four empty strings. */
  lemma AddThenSaveSendsBlankRecord()
    ensures SavePayloadOf(AddForm) == SavePayload(Undefined, Str(""), Str(""), Str(""), Str(""))
  {
  }

  /** The editor's inputs; each one sets a single field of the form. The
      id has no input. */
  datatype Input = NameInput | GenderInput | AddressInput | FacilityInput

  /** `{ ...selectedPatient, <field>: e.target.value }`: the input's field
      becomes the typed text, every other field is kept. */
  function SetField(f: PatientForm, i: Input, text: string): (g: PatientForm)
    ensures g.id == f.id
    ensures g.name == (if i.NameInput? then Str(text) else f.name)
    ensures g.gender == (if i.GenderInput? then Str(text) else f.gender)
    ensures g.address == (if i.AddressInput? then Str(text) else f.address)
    ensures g.healthFacilityId == (if i.FacilityInput? then Str(text) else f.healthFacilityId)
  {
    match i
    case NameInput => f.(name := Str(text))
    case GenderInput => f.(gender := Str(text))
    case AddressInput => f.(address := Str(text))
    case FacilityInput => f.(healthFacilityId := Str(text))
  }

  datatype Keystroke = Keystroke(input: Input, text: string)

  /** The form after a series of input changes, applied first to last. */
  function Typed(f: PatientForm, ks: seq<Keystroke>): PatientForm
    decreases |ks|
  {
    if ks == [] then f else SetField(Typed(f, ks[..|ks| - 1]), ks[|ks| - 1].input, ks[|ks| - 1].text)
  }

  /** No sequence of input changes alters the form's id. */
  lemma {:induction false} TypingKeepsId(f: PatientForm, ks: seq<Keystroke>)
    ensures Typed(f, ks).id == f.id
    decreases |ks|
  {
    if ks != [] {
      TypingKeepsId(f, ks[..|ks| - 1]);
    }
  }

  // ------------------------------------------------------------ pagination as written

  /** A click on a pagination button of this page: a disabled button does
      nothing; an enabled one moves by exactly one page, unchecked. */
  function UnguardedClick(page: int, totalPages: int, c: Click): int
  {
    match c
    case NextClick => if NextDisabled(page, totalPages) then page else page + 1
    case PrevClick => if PrevDisabled(page) then page else page - 1
  }

  function UnguardedRun(page: int, totalPages: int, clicks: seq<Click>): int
    decreases clicks
  {
    if clicks == [] then page else UnguardedRun(UnguardedClick(page, totalPages, clicks[0]), totalPages, clicks[1..])
  }

  /** With no patients there are 0 pages, Next stays enabled on page 1, and
      each press moves further out of range: page 2, then page 3. */
  lemma UnguardedEscapesOnEmptyList()
    ensures TotalPages(0, PatientsPerPage) == 0
    ensures InRange(1, 0)
    ensures UnguardedRun(1, 0, [NextClick]) == 2 && !InRange(2, 0)
    ensures UnguardedRun(1, 0, [NextClick, NextClick]) == 3
  {
  }

  /** The disabled conditions alone do keep the page in range while the
      number of pages stays the same and is at least one. Neither holds for
      long: an empty list gives 0 pages, and a refetch after a delete can
      lower the count under the current page (`ShrinkingListEscapes`). */
  lemma {:induction false} UnguardedSafeWhenNonEmpty(page: int, totalPages: int, clicks: seq<Click>)
    requires totalPages >= 1 && InRange(page, totalPages)
    ensures InRange(UnguardedRun(page, totalPages, clicks), totalPages)
    decreases clicks
  {
    if clicks != [] {
      UnguardedSafeWhenNonEmpty(UnguardedClick(page, totalPages, clicks[0]), totalPages, clicks[1..]);
    }
  }

  class PatientPage {
    var patients: seq<Patient>
    var currentPage: int
    var selectedPatient: Option<PatientForm>
    var showModal: bool
    var isEdit: bool
    var healthFacilities: seq<FacilityOption>
    /** `JSON.parse(localStorage.getItem('permissions') || '[]')`. */
    const perms: seq<Permission>

    /** The editor is only shown with a form in it. */
    ghost predicate Valid()
      reads this
    {
      showModal ==> selectedPatient.Some?
    }

    /** The page as first rendered, with the grants read from storage. */
    constructor (storage: map<string, Session.Stored>)
      requires Session.ReadPermissions(storage).Parsed?
      ensures Valid() && perms == Session.ReadPermissions(storage).value
      ensures patients == [] && currentPage == 1 && selectedPatient == None
      ensures !showModal && !isEdit && healthFacilities == []
    {
      patients := [];
      currentPage := 1;
      selectedPatient := None;
      showModal := false;
      isEdit := false;
      healthFacilities := [];
      perms := Session.ReadPermissions(storage).value;
    }

    /** The mount effect, given the replies to the fetches it may start:
        patients only with the view grant, facilities always. */
    method Mount(listReply: Reply<seq<Patient>>, dropdownReply: Reply<Dropdown>)
      modifies this`patients, this`healthFacilities
      ensures patients == if Grants(perms, ActivityName, View) then FetchedList(listReply, old(patients)) else old(patients)
      ensures healthFacilities == if dropdownReply.Http? then dropdownReply.data.healthFacilityDropdown else old(healthFacilities)
    {
      var plan := MountPlanFor(perms);
      if plan.fetchList {
        FetchPatientsSettled(listReply);
      }
      if plan.fetchDropdown {
        FetchFacilitiesSettled(dropdownReply);
      }
    }

    method FetchPatientsSettled(reply: Reply<seq<Patient>>)
      modifies this`patients
      ensures patients == FetchedList(reply, old(patients))
    {
      patients := FetchedList(reply, patients);
    }

    method FetchFacilitiesSettled(reply: Reply<Dropdown>)
      modifies this`healthFacilities
      ensures reply.Http? ==> healthFacilities == reply.data.healthFacilityDropdown
      ensures reply.Failed? ==> healthFacilities == old(healthFacilities)
    {
      if reply.Http? {
        healthFacilities := reply.data.healthFacilityDropdown;
      }
    }

    method HandleAddNewPatient()
      modifies this`selectedPatient, this`isEdit, this`showModal
      ensures Valid() && selectedPatient == Some(AddForm) && !isEdit && showModal
    {
      selectedPatient := Some(AddForm);
      isEdit := false;
      showModal := true;
    }

    method HandleEditPatient(p: Patient)
      modifies this`selectedPatient, this`isEdit, this`showModal
      ensures Valid() && selectedPatient == Some(EditForm(p)) && isEdit && showModal
    {
      selectedPatient := Some(EditForm(p));
      isEdit := true;
      showModal := true;
    }

    /** An input's `onChange`, which exists only in the open editor. */
    method ChangeField(i: Input, text: string)
      requires Valid() && showModal
      modifies this`selectedPatient
      ensures Valid() && selectedPatient == Some(SetField(old(selectedPatient).value, i, text))
    {
      selectedPatient := Some(SetField(selectedPatient.value, i, text));
    }

    /** `handleSaveChanges`: the editor's form as it stands, with no audit
        tags; only "00" refetches and closes. */
    method HandleSaveChanges(reply: Reply<Value>) returns (payload: SavePayload, reaction: Reaction)
      requires Valid() && showModal
      modifies this`showModal
      ensures Valid()
      ensures payload == SavePayloadOf(selectedPatient.value)
      ensures reaction == SaveReaction(reply, "Error saving patient.")
      ensures showModal <==> !StatusIs00(reply)
    {
      payload := SavePayloadOf(selectedPatient.value);
      reaction := SaveReaction(reply, "Error saving patient.");
      if reaction.closeModal {
        showModal := false;
      }
    }

    /** `handleDeletePatient`: a confirmed delete sends the soft-delete marker
        and refetches on HTTP 200. */
    method HandleDeletePatient(id: Value, confirmed: bool, reply: Reply<Value>)
      returns (sent: Option<DeletePayload>, reaction: Reaction)
      ensures sent.Some? <==> confirmed
      ensures confirmed ==> sent.value == DeletePayload(id, "1", "admin")
      ensures reaction.refetch <==> confirmed && HttpOk(reply)
      ensures confirmed ==> reaction == DeleteReaction(reply, "Patient deleted successfully!",
                                                       "Failed to delete patient.", "Error deleting patient.")
      ensures !confirmed ==> reaction == Reaction(false, false, Quiet)
    {
      if !confirmed {
        return None, Reaction(false, false, Quiet);
      }
      sent := Some(DeletePayload(id, "1", "admin"));
      reaction := DeleteReaction(reply, "Patient deleted successfully!", "Failed to delete patient.", "Error deleting patient.");
    }

    method HandleCloseModal()
      modifies this`showModal, this`selectedPatient
      ensures Valid() && !showModal && selectedPatient == None
    {
      showModal := false;
      selectedPatient := None;
    }

    function TotalPagesNow(): nat
      reads this
    {
      TotalPages(|patients|, PatientsPerPage)
    }

    /** `handlePrevPage`: one page back, whatever the current page. */
    method HandlePrevPage()
      modifies this`currentPage
      ensures currentPage == old(currentPage) - 1
    {
      currentPage := currentPage - 1;
    }

    /** `handleNextPage`: one page on, whatever the number of pages. */
    method HandleNextPage()
      modifies this`currentPage
      ensures currentPage == old(currentPage) + 1
    {
      currentPage := currentPage + 1;
    }

    /** `currentPatients`: at most 6 rows, the block of the current page. */
    function CurrentPatients(): (r: seq<Patient>)
      reads this
      ensures currentPage >= 1 ==> |r| <= PatientsPerPage
      ensures currentPage >= 1 ==>
        r == patients[Min((currentPage - 1) * PatientsPerPage, |patients|)..Min(currentPage * PatientsPerPage, |patients|)]
    {
      if currentPage >= 1 then PageWindowIsBlock(patients, currentPage, PatientsPerPage); PageWindow(patients, currentPage, PatientsPerPage)
      else PageWindow(patients, currentPage, PatientsPerPage)
    }
  }

  /** The same escape, driven through the page's own handlers: a page with no
      patients, Next enabled on page 1, and after one press the page number
      is past every page there is. */
  method NextOnEmptyPatientList() returns (page: int, total: int, nextWasEnabled: bool)
    ensures nextWasEnabled && total == 0 && page == 2 && !InRange(page, total)
  {
    var p := new PatientPage(map[]);
    p.FetchPatientsSettled(Http(200, Str("00"), []));
    total := p.TotalPagesNow();
    nextWasEnabled := !NextDisabled(p.currentPage, total);
    p.HandleNextPage();
    page := p.currentPage;
  }

  /** The escape without an empty list: seven patients make two pages; on
      page 2 a delete succeeds and its refetch brings six, one page. The page
      number is not reset, so page 2 shows no rows, Next is enabled (2 is not
      1) and one press gives page 3. */
  method ShrinkingListEscapes() returns (shown: seq<Patient>, page: int, total: int, nextWasEnabled: bool)
    ensures shown == [] && total == 1 && nextWasEnabled && page == 3 && !InRange(page, total)
  {
    var rec := Patient(Num(1), Str("A"), Str("F"), Str("B"), Str("1"), Str("H"));
    var p := new PatientPage(map[]);
    p.FetchPatientsSettled(Http(200, Str("00"), seq(7, _ => rec)));
    assert p.TotalPagesNow() == 2;
    p.HandleNextPage();
    var sent, reaction := p.HandleDeletePatient(Num(1), true, Http(200, Str("00"), Null));
    assert reaction.refetch;
    p.FetchPatientsSettled(Http(200, Str("00"), seq(6, _ => rec)));
    total := p.TotalPagesNow();
    shown := p.CurrentPatients();
    nextWasEnabled := !NextDisabled(p.currentPage, total);
    p.HandleNextPage();
    page := p.currentPage;
  }

  /** Without the view grant the mount fetches no patients: the page shows
      an empty list, whatever the backend would have answered. */
  method MountWithoutViewGrant(storage: map<string, Session.Stored>, listReply: Reply<seq<Patient>>)
    returns (shown: seq<Patient>)
    requires Session.ReadPermissions(storage).Parsed?
    requires !Grants(Session.ReadPermissions(storage).value, ActivityName, View)
    ensures shown == []
  {
    var p := new PatientPage(storage);
    p.Mount(listReply, Failed);
    shown := p.CurrentPatients();
  }

  /** Open a record for editing, type into any inputs in any order, and
      save: the body is the typed form and carries the record's own id. */
  method EditTypeAndSave(rec: Patient, ks: seq<Keystroke>, reply: Reply<Value>) returns (payload: SavePayload)
    ensures payload == SavePayloadOf(Typed(EditForm(rec), ks))
    ensures payload.id == rec.id
  {
    var p := new PatientPage(map[]);
    p.HandleEditPatient(rec);
    var n := 0;
    while n < |ks|
      invariant 0 <= n <= |ks|
      invariant p.Valid() && p.showModal
      invariant p.selectedPatient == Some(Typed(EditForm(rec), ks[..n]))
    {
      p.ChangeField(ks[n].input, ks[n].text);
      assert ks[..n + 1][..n] == ks[..n];
      n := n + 1;
    }
    assert ks[..n] == ks;
    TypingKeepsId(EditForm(rec), ks);
    var reaction;
    payload, reaction := p.HandleSaveChanges(reply);
  }
}
