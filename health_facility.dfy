/** The Health Facility page: facilities fetched with the 'Health Facility'
    view grant (no dropdown), an add/edit editor whose save carries audit
    tags, and soft delete. */
module HealthFacility {
  import opened Wire
  import opened Permissions
  import opened EntityPage
  import Session

  const ActivityName: string := "Health Facility"

  datatype Facility = Facility(id: Value, name: Value, district: Value, region: Value, state: Value, country: Value)

  datatype FacilityForm = FacilityForm(id: Value, name: Value, district: Value, region: Value, state: Value, country: Value)

  datatype SavePayload = SavePayload(id: Value, name: Value, district: Value, region: Value, state: Value,
                                     country: Value, tags: AuditTags)

  datatype DeletePayload = DeletePayload(id: Value, isDeleted: string, modifiedBy: string)

  function MountPlanFor(perms: seq<Permission>): (plan: MountPlan)
    ensures plan.fetchList <==> Grants(perms, ActivityName, View)
    ensures !plan.fetchDropdown
  {
    MountPlan(Grants(perms, ActivityName, View), false)
  }

  const AddForm: FacilityForm := FacilityForm(Undefined, Str(""), Str(""), Str(""), Str(""), Str(""))

  /** `handleEditFacility`: all six fields copied as they are. */
  function EditForm(f: Facility): (r: FacilityForm)
    ensures r.id == f.id && r.name == f.name && r.district == f.district
    ensures r.region == f.region && r.state == f.state && r.country == f.country
  {
    FacilityForm(f.id, f.name, f.district, f.region, f.state, f.country)
  }

  function SavePayloadOf(f: FacilityForm, isEdit: bool): SavePayload
  {
    SavePayload(f.id, f.name, f.district, f.region, f.state, f.country, TagsFor(isEdit))
  }

  /** An untouched edit saves the facility exactly as it was fetched, tagged
      as modified by 'admin'; an untouched add saves a blank facility with no
      id, tagged as created by 'admin'. */
  lemma UntouchedSaves(f: Facility)
    ensures var body := SavePayloadOf(EditForm(f), true);
      Facility(body.id, body.name, body.district, body.region, body.state, body.country) == f
      && body.tags == AuditTags("", "admin")
    ensures SavePayloadOf(AddForm, false) ==
      SavePayload(Undefined, Str(""), Str(""), Str(""), Str(""), Str(""), AuditTags("admin", ""))
  {
  }

  /** The editor's inputs; each sets a single field of the form. The id has
      no input. */
  datatype Input = NameInput | DistrictInput | RegionInput | StateInput | CountryInput

  /** `{ ...selectedFacility, <field>: e.target.value }`: the input's field
      becomes the typed text, every other field is kept. */
  function SetField(f: FacilityForm, i: Input, text: string): (g: FacilityForm)
    ensures g.id == f.id
    ensures g.name == (if i.NameInput? then Str(text) else f.name)
    ensures g.district == (if i.DistrictInput? then Str(text) else f.district)
    ensures g.region == (if i.RegionInput? then Str(text) else f.region)
    ensures g.state == (if i.StateInput? then Str(text) else f.state)
    ensures g.country == (if i.CountryInput? then Str(text) else f.country)
  {
    match i
    case NameInput => f.(name := Str(text))
    case DistrictInput => f.(district := Str(text))
    case RegionInput => f.(region := Str(text))
    case StateInput => f.(state := Str(text))
    case CountryInput => f.(country := Str(text))
  }

  datatype Keystroke = Keystroke(input: Input, text: string)

  /** The form after a series of input changes, applied first to last. */
  function Typed(f: FacilityForm, ks: seq<Keystroke>): FacilityForm
    decreases |ks|
  {
    if ks == [] then f else SetField(Typed(f, ks[..|ks| - 1]), ks[|ks| - 1].input, ks[|ks| - 1].text)
  }

  /** No sequence of input changes alters the form's id. */
  lemma {:induction false} TypingKeepsId(f: FacilityForm, ks: seq<Keystroke>)
    ensures Typed(f, ks).id == f.id
    decreases |ks|
  {
    if ks != [] {
      TypingKeepsId(f, ks[..|ks| - 1]);
    }
  }

  class HealthFacilityPage {
    var facilities: seq<Facility>
    var selectedFacility: Option<FacilityForm>
    var showModal: bool
    var isEdit: bool
    /** `JSON.parse(localStorage.getItem('permissions') || '[]')`. */
    const perms: seq<Permission>

    ghost predicate Valid()
      reads this
    {
      showModal ==> selectedFacility.Some?
    }

    /** The page as first rendered, with the grants read from storage. */
    constructor (storage: map<string, Session.Stored>)
      requires Session.ReadPermissions(storage).Parsed?
      ensures Valid() && perms == Session.ReadPermissions(storage).value
      ensures facilities == [] && selectedFacility == None && !showModal && !isEdit
    {
      facilities := [];
      selectedFacility := None;
      showModal := false;
      isEdit := false;
      perms := Session.ReadPermissions(storage).value;
    }

    /** The mount effect, given the reply to the one fetch it may start. */
    method Mount(listReply: Reply<seq<Facility>>)
      modifies this`facilities
      ensures facilities == if Grants(perms, ActivityName, View) then FetchedList(listReply, old(facilities)) else old(facilities)
    {
      if MountPlanFor(perms).fetchList {
        FetchFacilitiesSettled(listReply);
      }
    }

    method FetchFacilitiesSettled(reply: Reply<seq<Facility>>)
      modifies this`facilities
      ensures facilities == FetchedList(reply, old(facilities))
    {
      facilities := FetchedList(reply, facilities);
    }

    method HandleAddNewFacility()
      modifies this`selectedFacility, this`isEdit, this`showModal
      ensures Valid() && selectedFacility == Some(AddForm) && !isEdit && showModal
    {
      selectedFacility := Some(AddForm);
      isEdit := false;
      showModal := true;
    }

    method HandleEditFacility(f: Facility)
      modifies this`selectedFacility, this`isEdit, this`showModal
      ensures Valid() && selectedFacility == Some(EditForm(f)) && isEdit && showModal
    {
      selectedFacility := Some(EditForm(f));
      isEdit := true;
      showModal := true;
    }

    /** An input's `onChange`, which exists only in the open editor. */
    method ChangeField(i: Input, text: string)
      requires Valid() && showModal
      modifies this`selectedFacility
      ensures Valid() && selectedFacility == Some(SetField(old(selectedFacility).value, i, text))
    {
      selectedFacility := Some(SetField(selectedFacility.value, i, text));
    }

    method HandleSaveChanges(reply: Reply<Value>) returns (payload: SavePayload, reaction: Reaction)
      requires Valid() && showModal
      modifies this`showModal
      ensures Valid()
      ensures payload == SavePayloadOf(selectedFacility.value, isEdit)
      ensures reaction == SaveReaction(reply, "Error saving facility.")
      ensures showModal <==> !StatusIs00(reply)
    {
      payload := SavePayloadOf(selectedFacility.value, isEdit);
      reaction := SaveReaction(reply, "Error saving facility.");
      if reaction.closeModal {
        showModal := false;
      }
    }

    method HandleDeleteFacility(id: Value, confirmed: bool, reply: Reply<Value>)
      returns (sent: Option<DeletePayload>, reaction: Reaction)
      ensures sent.Some? <==> confirmed
      ensures confirmed ==> sent.value == DeletePayload(id, "1", "admin")
      ensures reaction.refetch <==> confirmed && HttpOk(reply)
      ensures confirmed ==> reaction == DeleteReaction(reply, "Facility deleted successfully!",
                                                       "Failed to delete facility.", "Error deleting facility.")
      ensures !confirmed ==> reaction == Reaction(false, false, Quiet)
    {
      if !confirmed {
        return None, Reaction(false, false, Quiet);
      }
      sent := Some(DeletePayload(id, "1", "admin"));
      reaction := DeleteReaction(reply, "Facility deleted successfully!", "Failed to delete facility.", "Error deleting facility.");
    }

    method HandleCloseModal()
      modifies this`showModal, this`selectedFacility
      ensures Valid() && !showModal && selectedFacility == None
    {
      showModal := false;
      selectedFacility := None;
    }
  }

  /** Open a facility for editing, type into any inputs in any order, and
      save: the body is the typed form with the facility's own id. */
  method EditTypeAndSave(f: Facility, ks: seq<Keystroke>, reply: Reply<Value>) returns (payload: SavePayload)
    ensures payload == SavePayloadOf(Typed(EditForm(f), ks), true)
    ensures payload.id == f.id
  {
    var p := new HealthFacilityPage(map[]);
    p.HandleEditFacility(f);
    var n := 0;
    while n < |ks|
      invariant 0 <= n <= |ks|
      invariant p.Valid() && p.showModal && p.isEdit
      invariant p.selectedFacility == Some(Typed(EditForm(f), ks[..n]))
    {
      p.ChangeField(ks[n].input, ks[n].text);
      assert ks[..n + 1][..n] == ks[..n];
      n := n + 1;
    }
    assert ks[..n] == ks;
    TypingKeepsId(EditForm(f), ks);
    var reaction;
    payload, reaction := p.HandleSaveChanges(reply);
  }
}
