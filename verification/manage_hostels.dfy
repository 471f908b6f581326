/** The hostel management page: the hostel form's checks, the hostel sent
    when the form passes them, the list of hostels it is appended to, and
    the rooms collected in the form before the hostel is sent. */
module ManageHostels {
  import opened Outcomes
  import opened Seqs
  import opened JsValues

  /** A room typed into the hostel form. The number inputs store
      `Number(value)`, so capacity and occupied are numbers. */
  datatype RoomDraft = RoomDraft(roomNumber: string, roomType: string, capacity: int, occupied: int)

  /** The hostel form. */
  datatype HostelDraft = HostelDraft(
    name: string, hostelType: string, capacity: int, description: string,
    maintenance: int, rooms: seq<RoomDraft>)

  const EmptyHostel := HostelDraft("", "", 1, "", 0, [])
  const EmptyRoom := RoomDraft("", "", 1, 0)

  // ---------------------------------------------------------------- validation

  datatype HostelField = Name | HostelType | Capacity | Description | Maintenance

  /** Whether the check on field `k` fails. `!capacity || capacity < 1` is
      `capacity < 1` for a number. */
  predicate HostelFails(h: HostelDraft, k: HostelField) {
    match k
    case Name => h.name == ""
    case HostelType => h.hostelType == ""
    case Capacity => h.capacity < 1
    case Description => h.description == ""
    case Maintenance => h.maintenance < 0
  }

  function HostelMessage(k: HostelField): string {
    match k
    case Name => "Name is required"
    case HostelType => "Type is required"
    case Capacity => "Capacity must be at least 1"
    case Description => "Description is required"
    case Maintenance => "Maintenance cannot be negative"
  }

  const HostelFields: set<HostelField> := {Name, HostelType, Capacity, Description, Maintenance}

  /** The error map a hostel form should get: each failing field with its
      message. */
  function HostelErrors(h: HostelDraft): map<HostelField, string> {
    map k | k in HostelFields && HostelFails(h, k) :: HostelMessage(k)
  }

  /** A hostel form that passes every check. */
  predicate HostelAccepted(h: HostelDraft) {
    h.name != "" && h.hostelType != "" && h.capacity >= 1 && h.description != "" && h.maintenance >= 0
  }

  /** `validateHostel`: fills the error map check by check. */
  method ValidateHostel(h: HostelDraft) returns (errors: map<HostelField, string>)
    ensures errors == HostelErrors(h)
  {
    errors := map[];
    if h.name == "" { errors := errors[Name := "Name is required"]; }
    if h.hostelType == "" { errors := errors[HostelType := "Type is required"]; }
    if h.capacity == 0 || h.capacity < 1 { errors := errors[Capacity := "Capacity must be at least 1"]; }
    if h.description == "" { errors := errors[Description := "Description is required"]; }
    if h.maintenance < 0 { errors := errors[Maintenance := "Maintenance cannot be negative"]; }
  }

  /** Field `k` is flagged exactly when its check fails, with its message. */
  lemma HostelErrorsAt(h: HostelDraft, k: HostelField)
    ensures k in HostelErrors(h) <==> HostelFails(h, k)
    ensures k in HostelErrors(h) ==> HostelErrors(h)[k] == HostelMessage(k)
  {
  }

  /** Each field is flagged exactly when its check fails, with that
      check's message, and the map is empty exactly when every check passes. */
  lemma HostelErrorsExact(h: HostelDraft)
    ensures forall k :: k in HostelErrors(h) <==> HostelFails(h, k)
    ensures forall k :: k in HostelErrors(h) ==> HostelErrors(h)[k] == HostelMessage(k)
    ensures HostelErrors(h) == map[] <==> HostelAccepted(h)
  {
    forall k
      ensures k in HostelErrors(h) <==> HostelFails(h, k)
      ensures k in HostelErrors(h) ==> HostelErrors(h)[k] == HostelMessage(k)
    {
      HostelErrorsAt(h, k);
    }
    if !HostelAccepted(h) {
      var k :=
        if h.name == "" then Name
        else if h.hostelType == "" then HostelType
        else if h.capacity < 1 then Capacity
        else if h.description == "" then Description
        else Maintenance;
      assert HostelFails(h, k);
    }
  }

  /** The hostel sent to the back end: the form's fields, with
      `Number(capacity)` and `Number(maintenance) || 0`, which on the form's
      numeric fields give the figures themselves, so the payload is the form. */
  function HostelPayload(h: HostelDraft): (p: HostelDraft)
    ensures HostelAccepted(h) ==> HostelAccepted(p)
    ensures p.rooms == h.rooms && p.name == h.name
    ensures p.hostelType == h.hostelType && p.description == h.description
    ensures p.capacity == h.capacity && p.maintenance == h.maintenance
    ensures p == h
  {
    var maintenance := if h.maintenance != 0 then h.maintenance else 0;
    HostelDraft(h.name, h.hostelType, h.capacity, h.description, maintenance, h.rooms)
  }

  /** `response.data?.data || response.data`: the created hostel. */
  function CreatedHostel(body: JsValue): (r: JsValue)
    ensures Truthy(Prop(body, "data")) ==> r == Prop(body, "data")
    ensures !Truthy(Prop(body, "data")) ==> r == body
  {
    Or(Prop(body, "data"), body)
  }

  /** A room draft the "add room" button accepts: a number, a type and a
      non-zero capacity. */
  predicate RoomAccepted(r: RoomDraft) {
    r.roomNumber != "" && r.roomType != "" && r.capacity != 0
  }

  class HostelManager {
    var hostels: seq<JsValue>
    var loading: bool
    var error: Option<string>
    var showAddHostelModal: bool
    var newHostel: HostelDraft
    var newRoom: RoomDraft

    constructor ()
      ensures hostels == [] && loading && error == None && !showAddHostelModal
      ensures newHostel == EmptyHostel && newRoom == EmptyRoom
    {
      hostels := [];
      loading := true;
      error := None;
      showAddHostelModal := false;
      newHostel := EmptyHostel;
      newRoom := EmptyRoom;
    }

    /** `fetchHostels`: the hostel list of the response, or the error text. */
    method FetchHostels(response: ApiResult<JsValue>)
      modifies this
      ensures !loading
      ensures response.Ok? ==> hostels == ListOf(response.value) && error == old(error)
      ensures response.Failed? ==>
                hostels == old(hostels) && error == Some(ErrorText(response.message, "Error loading hostels"))
      ensures newHostel == old(newHostel) && newRoom == old(newRoom) && showAddHostelModal == old(showAddHostelModal)
    {
      match response {
        case Ok(body) =>
          hostels := ListOf(body);
        case Failed(message) =>
          error := Some(ErrorText(message, "Error loading hostels"));
      }
      loading := false;
    }

    /** `handleAddHostel`: nothing is sent while the form has errors; the
        hostel sent always passes the checks; the created hostel is appended
        after the existing ones and both drafts are reset. */
    method HandleAddHostel(response: ApiResult<JsValue>) returns (sent: Option<HostelDraft>)
      modifies this
      ensures sent.Some? <==> HostelAccepted(old(newHostel))
      ensures sent.Some? ==> sent.value == HostelPayload(old(newHostel)) && HostelAccepted(sent.value)
      ensures sent.None? ==>
                error == Some("Please fix the form errors")
                && hostels == old(hostels) && newHostel == old(newHostel) && newRoom == old(newRoom)
                && showAddHostelModal == old(showAddHostelModal)
      ensures sent.Some? && response.Ok? ==>
                hostels == old(hostels) + [CreatedHostel(response.value)]
                && !showAddHostelModal && newHostel == EmptyHostel && newRoom == EmptyRoom
                && error == old(error)
      ensures sent.Some? && response.Failed? ==>
                hostels == old(hostels) && newHostel == old(newHostel) && newRoom == old(newRoom)
                && showAddHostelModal == old(showAddHostelModal)
                && error == Some(ErrorText(response.message, "Error adding hostel"))
      ensures loading == old(loading)
    {
      var errors := ValidateHostel(newHostel);
      HostelErrorsExact(newHostel);
      if |errors| > 0 {
        error := Some("Please fix the form errors");
        return None;
      }
      sent := Some(HostelPayload(newHostel));
      match response {
        case Ok(body) =>
          hostels := hostels + [CreatedHostel(body)];
          showAddHostelModal := false;
          newHostel := EmptyHostel;
          newRoom := EmptyRoom;
        case Failed(message) =>
          error := Some(ErrorText(message, "Error adding hostel"));
      }
    }

    /** `handleAddRoom`: an incomplete room draft changes nothing; otherwise
        the room is added after the form's earlier rooms and the draft is
        cleared. */
    method HandleAddRoom()
      modifies this
      ensures !RoomAccepted(old(newRoom)) ==> newHostel == old(newHostel) && newRoom == old(newRoom)
      ensures RoomAccepted(old(newRoom)) ==>
                newHostel == old(newHostel).(rooms := old(newHostel).rooms + [old(newRoom)])
                && newRoom == EmptyRoom
      ensures hostels == old(hostels) && error == old(error) && loading == old(loading)
      ensures showAddHostelModal == old(showAddHostelModal)
    {
      if newRoom.roomNumber == "" || newRoom.roomType == "" || newRoom.capacity == 0 {
        return;
      }
      var room := RoomDraft(newRoom.roomNumber, newRoom.roomType, newRoom.capacity, newRoom.occupied);
      newHostel := newHostel.(rooms := newHostel.rooms + [room]);
      newRoom := EmptyRoom;
    }
  }
}
