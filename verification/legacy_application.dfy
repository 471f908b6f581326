/** The older allocation page: a fixed list of hostel blocks, the rooms of
    the block picked in the selector, and the ordered checks its submit
    handler runs before accepting an application. */
module LegacyApplication {
  import opened Outcomes
  import opened Seqs
  import opened Text
  import opened JsValues
  import opened RoomAvailability
  import opened StudentApplication

  datatype LegacyHostel = LegacyHostel(id: int, name: string, description: string, rooms: seq<Room>)

  /** The page's own hostel data: one block with two rooms. */
  const Hostels: seq<LegacyHostel> := [
    LegacyHostel(1, "Block A", "Male Hostel", [
      Room(Num(1), "A101", "Standard", 4, 2),
      Room(Num(2), "A102", "Premium", 2, 0)])
  ]

  /** `hostels.find(h => h.id === id)`: the first block with that id. */
  function FindHostel(hostels: seq<LegacyHostel>, id: int): (r: Option<LegacyHostel>)
    ensures r.Some? ==> r.value in hostels && r.value.id == id
    ensures r.None? <==> forall h :: h in hostels ==> h.id != id
  {
    if hostels == [] then None
    else if hostels[0].id == id then Some(hostels[0])
    else
      var r := FindHostel(hostels[1..], id);
      assert forall h :: h in hostels[1..] ==> h in hostels;
      r
  }

  /** The block found is the first one listed with that id. */
  lemma {:induction false} FindHostelFirst(hostels: seq<LegacyHostel>, id: int)
    ensures FindHostel(hostels, id).Some? ==>
              exists k :: 0 <= k < |hostels| && hostels[k] == FindHostel(hostels, id).value
                          && forall j :: 0 <= j < k ==> hostels[j].id != id
  {
    if hostels != [] && hostels[0].id != id {
      var rest := hostels[1..];
      FindHostelFirst(rest, id);
      var r := FindHostel(rest, id);
      assert FindHostel(hostels, id) == r;
      if r.Some? {
        var k :| 0 <= k < |rest| && rest[k] == r.value && forall j :: 0 <= j < k ==> rest[j].id != id;
        assert hostels[k + 1] == r.value;
        assert forall j :: 1 <= j < k + 1 ==> hostels[j] == rest[j - 1];
      }
    } else if hostels != [] {
      assert hostels[0] == FindHostel(hostels, id).value;
    }
  }

  /** The rooms listed for the selector's value: none when nothing (or the
      empty option) is selected, none when the value is no known block's id
      (`parseInt` yielding `NaN` matches no id), else that block's rooms. */
  function RoomsFor(hostels: seq<LegacyHostel>, selected: Option<string>): (rooms: seq<Room>)
    ensures selected == None || selected == Some("") ==> rooms == []
    ensures selected.Some? && ParseInt(selected.value) == None ==> rooms == []
    ensures selected.Some? && selected.value != "" && ParseInt(selected.value).Some? ==>
              match FindHostel(hostels, ParseInt(selected.value).value)
              case None => rooms == []
              case Some(h) => rooms == h.rooms
  {
    if selected.None? || selected.value == "" then []
    else match ParseInt(selected.value)
      case None => []
      case Some(id) =>
        match FindHostel(hostels, id)
        case None => []
        case Some(h) => h.rooms
  }

  /** The rooms offered for the selected block: exactly its rooms with
      space, so each offers at least one place. */
  function AvailableRoomsFor(hostels: seq<LegacyHostel>, selected: Option<string>): (r: seq<Room>)
    ensures forall x :: x in r <==> x in RoomsFor(hostels, selected) && x.occupied < x.capacity
    ensures forall x :: x in r ==> x.capacity - x.occupied >= 1
    ensures IsSubsequence(r, RoomsFor(hostels, selected))
  {
    AvailableRooms(RoomsFor(hostels, selected))
  }

  // ---------------------------------------------------------------- floor shown on a card

  /** `Math.ceil(parseInt(room.number) / 10)` as written: `NaN` (`None`)
      whenever the number does not start with a digit. */
  function FloorAsWritten(number: string): (f: Option<int>)
    ensures (number != [] && !IsDigit(number[0]) && !IsJsWhitespace(number[0])
             && number[0] != '-' && number[0] != '+') ==> f == None
  {
    match ParseInt(number)
    case None => None
    case Some(n) => Some(CeilTenth(n))
  }

  /** A room number that starts with a letter has no floor as written. */
  lemma LetterNumberIsNaN(number: string)
    requires number != [] && 'A' <= number[0] <= 'Z'
    ensures FloorAsWritten(number) == None
  {
  }

  /** Every room of the page's own data shows "Floor: NaN". */
  lemma FloorAsWrittenIsNaN()
    ensures forall r :: r in Hostels[0].rooms ==> FloorAsWritten(r.number) == None
  {
    var rooms := Hostels[0].rooms;
    assert rooms == [Room(Num(1), "A101", "Standard", 4, 2), Room(Num(2), "A102", "Premium", 2, 0)];
    LetterNumberIsNaN("A101");
    LetterNumberIsNaN("A102");
  }

  /** The floor read from the digits of the room number, as the
      room-availability widget does: defined for every number holding a digit. */
  function Floor(number: string): (f: Option<int>)
    ensures f.Some? <==> exists i :: 0 <= i < |number| && IsDigit(number[i])
    ensures f.Some? ==> 10 * (f.value - 1) < DigitsValue(StripNonDigits(number)) <= 10 * f.value
  {
    FloorFromNumber(number)
  }

  /** With the corrected floor, every room of the page's data has one. */
  lemma FloorDefinedForData()
    ensures forall r :: r in Hostels[0].rooms ==> Floor(r.number).Some?
  {
    forall r | r in Hostels[0].rooms
      ensures Floor(r.number).Some?
    {
      assert IsDigit(r.number[1]);
    }
  }

  // ---------------------------------------------------------------- submission

  /** The older form: no e-mail field. */
  datatype LegacyForm = LegacyForm(
    fullName: string, matricNumber: string, department: string, level: string,
    gender: string, phoneNumber: string, emergencyContact: string,
    healthConditions: string, specialRequests: string, traits: Traits)

  const RequiredFields: seq<string> :=
    ["fullName", "matricNumber", "department", "level", "phoneNumber", "emergencyContact"]

  /** `formData[field]` for the required field names. */
  function FieldValue(f: LegacyForm, name: string): string {
    if name == "fullName" then f.fullName
    else if name == "matricNumber" then f.matricNumber
    else if name == "department" then f.department
    else if name == "level" then f.level
    else if name == "phoneNumber" then f.phoneNumber
    else if name == "emergencyContact" then f.emergencyContact
    else ""
  }

  /** `requiredFields.filter(field => !formData[field])`: exactly the empty
      required fields, in declared order. */
  function MissingFields(f: LegacyForm): (missing: seq<string>)
    ensures forall n :: n in missing <==> n in RequiredFields && FieldValue(f, n) == ""
    ensures IsSubsequence(missing, RequiredFields)
  {
    Filter(RequiredFields, n => FieldValue(f, n) == "")
  }

  datatype Submission = Alerted(message: string) | Accepted

  /** `handleSubmit`: the first failing check raises its alert and stops. */
  function CheckSubmission(f: LegacyForm): (r: Submission)
    ensures r == Accepted <==> (MissingFields(f) == [] && IsDigits(f.matricNumber, 8)
                                && IsDigits(f.phoneNumber, 11) && IsDigits(f.emergencyContact, 11))
    ensures MissingFields(f) != [] ==>
              r == Alerted("Please fill in all required fields: " + Join(MissingFields(f), ", "))
    ensures MissingFields(f) == [] && !IsDigits(f.matricNumber, 8) ==>
              r == Alerted("Please enter a valid 8-digit matric number")
    ensures MissingFields(f) == [] && IsDigits(f.matricNumber, 8)
            && !(IsDigits(f.phoneNumber, 11) && IsDigits(f.emergencyContact, 11)) ==>
              r == Alerted("Please enter valid 11-digit phone numbers")
  {
    var missing := MissingFields(f);
    if |missing| > 0 then Alerted("Please fill in all required fields: " + Join(missing, ", "))
    else if !IsDigits(f.matricNumber, 8) then Alerted("Please enter a valid 8-digit matric number")
    else if !IsDigits(f.phoneNumber, 11) || !IsDigits(f.emergencyContact, 11) then
      Alerted("Please enter valid 11-digit phone numbers")
    else Accepted
  }

  /** Because the required-field check runs first, an empty matric number
      or phone number is reported as a missing field, never as malformed. */
  lemma EmptyFieldReportedAsMissing(f: LegacyForm)
    requires f.matricNumber == "" || f.phoneNumber == "" || f.emergencyContact == ""
    ensures MissingFields(f) != []
    ensures CheckSubmission(f) == Alerted("Please fill in all required fields: " + Join(MissingFields(f), ", "))
  {
    var n := if f.matricNumber == "" then "matricNumber"
             else if f.phoneNumber == "" then "phoneNumber" else "emergencyContact";
    assert n in RequiredFields && FieldValue(f, n) == "";
  }
}
