/** The student's allocation application page: the field checks run before
    an application is sent, the translation of the form's labels into the
    back end's enumerations, the trimming of empty personality traits, the
    three-hobby limit, and the submit handler. */
module StudentApplication {
  import opened Outcomes
  import opened Seqs
  import opened Text
  import opened JsValues
  import opened RoomAvailability

  datatype Traits = Traits(
    sleepSchedule: string, studyHabits: string, cleanlinessLevel: string,
    socialPreference: string, noisePreference: string, hobbies: seq<string>,
    musicPreference: string, visitorFrequency: string)

  /** The application form as typed in; every text field starts empty. */
  datatype ApplicationForm = ApplicationForm(
    fullName: string, email: string, matricNumber: string, department: string,
    level: string, gender: string, phoneNumber: string, emergencyContact: string,
    healthConditions: string, specialRequests: string, traits: Traits)

  const EmptyForm := ApplicationForm("", "", "", "", "", "", "", "", "", "",
                                     Traits("", "", "", "", "", [], "", ""))

  // ---------------------------------------------------------------- validation

  /** The keys of the page's error map: the checked fields and the
      submission as a whole. `KeyName` is the property name on the page. */
  datatype FormKey =
    | FullName | MatricNumber | EmergencyContact | Level | Gender
    | Hobbies | PhoneNumber | SleepSchedule | StudyHabits | Submit

  function KeyName(k: FormKey): string {
    match k
    case FullName => "fullName"
    case MatricNumber => "matricNumber"
    case EmergencyContact => "emergencyContact"
    case Level => "level"
    case Gender => "gender"
    case Hobbies => "hobbies"
    case PhoneNumber => "phoneNumber"
    case SleepSchedule => "sleepSchedule"
    case StudyHabits => "studyHabits"
    case Submit => "submit"
  }

  /** Whether the check for key `k` fails on form `f`; `Submit` is not a field check. */
  predicate Fails(f: ApplicationForm, k: FormKey) {
    match k
    case FullName => f.fullName == ""
    case MatricNumber => !IsDigits(f.matricNumber, 8)
    case EmergencyContact => !IsDigits(f.emergencyContact, 11)
    case Level => f.level == ""
    case Gender => f.gender == ""
    case Hobbies => |f.traits.hobbies| < 1
    case PhoneNumber => !IsDigits(f.phoneNumber, 11)
    case SleepSchedule => f.traits.sleepSchedule == ""
    case StudyHabits => f.traits.studyHabits == ""
    case Submit => false
  }

  /** The message left under key `k` once all checks have run. An empty
      matric number is first told it is required, then told it must be 8
      digits; the second message is the one that stays. */
  function ErrorMessage(k: FormKey): string {
    match k
    case FullName => "Name is required"
    case MatricNumber => "Must be 8 digits"
    case EmergencyContact => "Must be 11 digits"
    case PhoneNumber => "Must be 11 digits"
    case Level => "Level is required"
    case Gender => "Gender is required"
    case Hobbies => "Select at least one hobby"
    case _ => "Required"
  }

  /** The error map the validator produces for `f`. */
  function ErrorsFor(f: ApplicationForm): map<FormKey, string> {
    map k | k in AllKeys && Fails(f, k) :: ErrorMessage(k)
  }

  const AllKeys: set<FormKey> := {FullName, MatricNumber, EmergencyContact, Level, Gender,
                                  Hobbies, PhoneNumber, SleepSchedule, StudyHabits, Submit}

  /** A form the validator accepts, stated field by field. Email, department,
      cleanliness and noise preference play no part. */
  predicate FormAccepted(f: ApplicationForm) {
    && f.fullName != "" && f.level != "" && f.gender != ""
    && f.traits.sleepSchedule != "" && f.traits.studyHabits != ""
    && |f.traits.hobbies| >= 1
    && IsDigits(f.matricNumber, 8)
    && IsDigits(f.phoneNumber, 11) && IsDigits(f.emergencyContact, 11)
  }

  /** The position of each check in `validateForm`; `Submit` comes after all of them. */
  function Rank(k: FormKey): nat {
    match k
    case FullName => 0
    case MatricNumber => 1
    case EmergencyContact => 2
    case Level => 3
    case Gender => 4
    case Hobbies => 5
    case PhoneNumber => 6
    case SleepSchedule => 7
    case StudyHabits => 8
    case Submit => 9
  }

  /** The check at position `n` of `validateForm`. */
  function KeyAt(n: nat): (k: FormKey)
    requires n < 9
    ensures Rank(k) == n
  {
    if n == 0 then FullName
    else if n == 1 then MatricNumber
    else if n == 2 then EmergencyContact
    else if n == 3 then Level
    else if n == 4 then Gender
    else if n == 5 then Hobbies
    else if n == 6 then PhoneNumber
    else if n == 7 then SleepSchedule
    else StudyHabits
  }

  /** Each check has its own position. */
  lemma KeyAtRank(k: FormKey)
    requires Rank(k) < 9
    ensures KeyAt(Rank(k)) == k
  {
  }

  /** The error map after the first `n` checks, applied one after another. */
  function ErrorsAfter(f: ApplicationForm, n: nat): map<FormKey, string>
    requires n <= 9
  {
    if n == 0 then map[]
    else
      var k := KeyAt(n - 1);
      Flag(ErrorsAfter(f, n - 1), k, Fails(f, k), ErrorMessage(k))
  }

  /** Applying the first `n` checks in order records exactly the failing
      checks among them, each with its message. */
  lemma {:induction false} ErrorsAfterChecks(f: ApplicationForm, n: nat)
    requires n <= 9
    ensures forall k :: k in ErrorsAfter(f, n) <==> Rank(k) < n && Fails(f, k)
    ensures forall k :: k in ErrorsAfter(f, n) ==> ErrorsAfter(f, n)[k] == ErrorMessage(k)
  {
    if n > 0 {
      ErrorsAfterChecks(f, n - 1);
      var key := KeyAt(n - 1);
      forall k | Rank(k) == n - 1
        ensures k == key
      {
        KeyAtRank(k);
      }
    }
  }

  /** Once all nine checks have run, the map is `ErrorsFor(f)`. */
  lemma ErrorsAfterAllChecks(f: ApplicationForm)
    ensures ErrorsAfter(f, 9) == ErrorsFor(f)
  {
    ErrorsAfterChecks(f, 9);
    var m := ErrorsAfter(f, 9);
    forall k
      ensures k in m <==> k in ErrorsFor(f)
    {
      match k
      case Submit =>
      case _ => assert Rank(k) < 9 && k in AllKeys;
    }
  }

  /** One check of `validateForm`: when it fails, its message is recorded under its key. */
  function Flag(errors: map<FormKey, string>, k: FormKey, failed: bool, message: string): (r: map<FormKey, string>)
  {
    if failed then errors[k := message] else errors
  }

  /** `validateForm`: fills an error map check by check. */
  method ValidateForm(f: ApplicationForm) returns (errors: map<FormKey, string>)
    ensures errors == ErrorsFor(f)
  {
    errors := map[];
    errors := Flag(errors, FullName, f.fullName == "", "Name is required");
    assert errors == ErrorsAfter(f, 1);
    errors := Flag(errors, MatricNumber, f.matricNumber == "", "Matric number is required");
    errors := Flag(errors, MatricNumber, !IsDigits(f.matricNumber, 8), "Must be 8 digits");
    assert errors == ErrorsAfter(f, 2);
    errors := Flag(errors, EmergencyContact, !IsDigits(f.emergencyContact, 11), "Must be 11 digits");
    assert errors == ErrorsAfter(f, 3);
    errors := Flag(errors, Level, f.level == "", "Level is required");
    assert errors == ErrorsAfter(f, 4);
    errors := Flag(errors, Gender, f.gender == "", "Gender is required");
    assert errors == ErrorsAfter(f, 5);
    errors := Flag(errors, Hobbies, |f.traits.hobbies| < 1, "Select at least one hobby");
    assert errors == ErrorsAfter(f, 6);
    errors := Flag(errors, PhoneNumber, !IsDigits(f.phoneNumber, 11), "Must be 11 digits");
    assert errors == ErrorsAfter(f, 7);
    errors := Flag(errors, SleepSchedule, f.traits.sleepSchedule == "", "Required");
    assert errors == ErrorsAfter(f, 8);
    errors := Flag(errors, StudyHabits, f.traits.studyHabits == "", "Required");
    assert errors == ErrorsAfter(f, 9);
    ErrorsAfterAllChecks(f);
  }

  /** What the validator reports: field errors only, each digit pattern
      flagged exactly when it is not met, the later "Must be 8 digits"
      message winning over "required" for an empty matric number, and no
      error at all exactly when the form is acceptable. */
  lemma ValidationErrors(f: ApplicationForm)
    ensures Submit !in ErrorsFor(f)
    ensures MatricNumber in ErrorsFor(f) <==> !IsDigits(f.matricNumber, 8)
    ensures f.matricNumber == "" ==> ErrorsFor(f)[MatricNumber] == "Must be 8 digits"
    ensures PhoneNumber in ErrorsFor(f) <==> !IsDigits(f.phoneNumber, 11)
    ensures EmergencyContact in ErrorsFor(f) <==> !IsDigits(f.emergencyContact, 11)
    ensures Hobbies in ErrorsFor(f) <==> f.traits.hobbies == []
    ensures ErrorsFor(f) == map[] <==> FormAccepted(f)
  {
    if !FormAccepted(f) {
      var k :| k in AllKeys && Fails(f, k);
      assert k in ErrorsFor(f);
    }
  }

  // ---------------------------------------------------------------- labels to enumerations

  /** Sleep schedule label to enumeration; any other non-empty label is "flexible". */
  function MapSleepSchedule(v: string): (r: string)
    ensures r == "" <==> v == ""
    ensures r in {"", "early", "late", "flexible"}
    ensures v == "Early Bird (Before 10PM)" ==> r == "early"
    ensures v == "Night Owl (After 10PM)" ==> r == "late"
    ensures v !in {"", "Early Bird (Before 10PM)", "Night Owl (After 10PM)"} ==> r == "flexible"
  {
    if v == "Early Bird (Before 10PM)" then "early"
    else if v == "Night Owl (After 10PM)" then "late"
    else if v != "" then "flexible" else ""
  }

  /** Study habit label to enumeration; "Library", "Mixed" and any other
      non-empty label are "mixed". */
  function MapStudyHabits(v: string): (r: string)
    ensures r == "" <==> v == ""
    ensures r in {"", "quiet", "group", "mixed"}
    ensures v == "In Room" ==> r == "quiet"
    ensures v == "Study Groups" ==> r == "group"
    ensures v !in {"", "In Room", "Study Groups"} ==> r == "mixed"
  {
    if v == "In Room" then "quiet"
    else if v == "Study Groups" then "group"
    else if v != "" then "mixed" else ""
  }

  /** Cleanliness label to a level: 5, 3 or 2, and 3 when nothing was chosen. */
  function MapCleanliness(v: string): (r: int)
    ensures r in {2, 3, 5}
    ensures v == "" ==> r == 3
    ensures v == "Very Organized" ==> r == 5
    ensures v == "Moderately Tidy" ==> r == 3
    ensures v !in {"", "Very Organized", "Moderately Tidy"} ==> r == 2
  {
    if v == "" then 3
    else if v == "Very Organized" then 5
    else if v == "Moderately Tidy" then 3
    else 2
  }

  /** Social preference label to enumeration; any other non-empty label is "introvert". */
  function MapSocialPreference(v: string): (r: string)
    ensures r == "" <==> v == ""
    ensures r in {"", "extrovert", "balanced", "introvert"}
    ensures v == "Very Social" ==> r == "extrovert"
    ensures v == "Moderately Social" ==> r == "balanced"
    ensures v !in {"", "Very Social", "Moderately Social"} ==> r == "introvert"
  {
    if v == "Very Social" then "extrovert"
    else if v == "Moderately Social" then "balanced"
    else if v != "" then "introvert" else ""
  }

  /** Noise preference label to enumeration; any other non-empty label is "noisy". */
  function MapNoise(v: string): (r: string)
    ensures r == "" <==> v == ""
    ensures r in {"", "quiet", "tolerant", "noisy"}
    ensures v == "Prefer Quiet" ==> r == "quiet"
    ensures v == "Moderate Noise OK" ==> r == "tolerant"
    ensures v !in {"", "Prefer Quiet", "Moderate Noise OK"} ==> r == "noisy"
  {
    if v == "Prefer Quiet" then "quiet"
    else if v == "Moderate Noise OK" then "tolerant"
    else if v != "" then "noisy" else ""
  }

  /** Visitor frequency label to enumeration; any other non-empty label is "often". */
  function MapVisitor(v: string): (r: string)
    ensures r == "" <==> v == ""
    ensures r in {"", "rarely", "sometimes", "often"}
    ensures v == "Rarely" ==> r == "rarely"
    ensures v == "Occasionally" ==> r == "sometimes"
    ensures v !in {"", "Rarely", "Occasionally"} ==> r == "often"
  {
    if v == "Rarely" then "rarely"
    else if v == "Occasionally" then "sometimes"
    else if v != "" then "often" else ""
  }

  // ---------------------------------------------------------------- request payload

  /** The personality traits sent, as the ordered entries of an object. */
  function TraitsPayload(t: Traits): seq<(string, JsValue)> {
    [ ("sleepSchedule", Str(MapSleepSchedule(t.sleepSchedule))),
      ("studyHabits", Str(MapStudyHabits(t.studyHabits))),
      ("cleanlinessLevel", Num(MapCleanliness(t.cleanlinessLevel))),
      ("socialPreference", Str(MapSocialPreference(t.socialPreference))),
      ("noisePreference", Str(MapNoise(t.noisePreference))),
      ("hobbies", Arr(StrItems(t.hobbies))),
      ("musicPreference", Str(t.musicPreference)),
      ("visitorFrequency", Str(MapVisitor(t.visitorFrequency))) ]
  }

  /** A trait value worth sending: not "", not `undefined`, not an empty array. */
  predicate Kept(v: JsValue) {
    v != Str("") && v != Undefined && !(v.Arr? && |v.items| == 0)
  }

  predicate KeptEntry(e: (string, JsValue)) {
    Kept(e.1)
  }

  /** `compactTraits`: drops exactly the entries whose value is "",
      `undefined` or an empty array, and keeps every other entry as it was,
      in order. */
  function CompactTraits(entries: seq<(string, JsValue)>): (r: seq<(string, JsValue)>)
    ensures forall e :: e in r <==> e in entries && Kept(e.1)
    ensures forall e :: e in entries && !Kept(e.1) ==> e !in r
    ensures IsSubsequence(r, entries)
  {
    Filter(entries, KeptEntry)
  }

  /** The cleanliness level is always sent. */
  lemma CleanlinessAlwaysSent(t: Traits)
    ensures ("cleanlinessLevel", Num(MapCleanliness(t.cleanlinessLevel))) in CompactTraits(TraitsPayload(t))
  {
    var p := TraitsPayload(t);
    assert p[2] in p;
  }

  /** The hobbies are sent exactly when at least one was chosen. */
  lemma HobbiesSentIffChosen(t: Traits)
    ensures (exists e :: e in CompactTraits(TraitsPayload(t)) && e.0 == "hobbies") <==> |t.hobbies| >= 1
  {
    var p := TraitsPayload(t);
    var hobbies := p[5];
    assert hobbies in p;
    forall e | e in p && e.0 == "hobbies"
      ensures e == hobbies
    {
      var k :| 0 <= k < |p| && p[k] == e;
      assert |p[k].0| == 7;
    }
    if |t.hobbies| >= 1 {
      assert hobbies.1.items[0] == Str(t.hobbies[0]);
      assert hobbies in CompactTraits(p);
    }
  }

  datatype ProfilePayload = ProfilePayload(
    fullName: string, email: string, matricNumber: string, department: string,
    level: string, gender: string, phone: string, emergencyContact: string,
    healthConditions: string, specialRequests: string)

  /** The body of `POST /allocations/apply`. */
  datatype ApplyRequest = ApplyRequest(profile: ProfilePayload,
                                       personalityTraits: seq<(string, JsValue)>, roomId: JsValue)

  function ProfileOf(f: ApplicationForm): ProfilePayload {
    ProfilePayload(f.fullName, f.email, f.matricNumber, f.department, f.level, f.gender,
                   f.phoneNumber, f.emergencyContact, f.healthConditions, f.specialRequests)
  }

  // ---------------------------------------------------------------- hobbies

  /** The hobby checkbox: checking appends and keeps the first three;
      unchecking removes that hobby. */
  function ToggleHobby(hobbies: seq<string>, hobby: string, checked: bool): (r: seq<string>)
    ensures checked ==> |r| <= 3 && r <= hobbies + [hobby]
    ensures checked && |hobbies| < 3 ==> r == hobbies + [hobby]
    ensures checked && |hobbies| >= 3 ==> r == hobbies[..3]
    ensures !checked ==> hobby !in r && (forall h :: h in r <==> h in hobbies && h != hobby)
    ensures !checked ==> IsSubsequence(r, hobbies)
    ensures |hobbies| <= 3 ==> |r| <= 3
  {
    if checked then
      var added := hobbies + [hobby];
      if |added| <= 3 then added else added[..3]
    else Without(hobbies, hobby)
  }

  /** A hobby box that is not ticked is greyed out once three hobbies are chosen. */
  predicate HobbyCheckboxDisabled(hobbies: seq<string>, hobby: string) {
    hobby !in hobbies && |hobbies| >= 3
  }

  /** A click on a box that is not greyed out ticks an unticked hobby or
      unticks a ticked one: the list stays within three hobbies without
      repeats, and only the clicked hobby changes membership. */
  lemma HobbyClick(hobbies: seq<string>, hobby: string)
    requires !HobbyCheckboxDisabled(hobbies, hobby)
    requires |hobbies| <= 3 && Distinct(hobbies)
    ensures var r := ToggleHobby(hobbies, hobby, hobby !in hobbies);
            && |r| <= 3 && Distinct(r)
            && (hobby in r <==> hobby !in hobbies)
            && (forall h :: h != hobby ==> (h in r <==> h in hobbies))
  {
    var r := ToggleHobby(hobbies, hobby, hobby !in hobbies);
    if hobby in hobbies {
      SubsequenceDistinct(r, hobbies);
    } else {
      assert r == hobbies + [hobby];
    }
  }

  // ---------------------------------------------------------------- the page

  class ApplicationPage {
    var selectedRoom: Option<Room>
    var showApplicationForm: bool
    var formData: ApplicationForm
    var isSubmitting: bool
    var formErrors: map<FormKey, string>

    constructor ()
      ensures selectedRoom == None && !showApplicationForm
      ensures formData == EmptyForm && !isSubmitting && formErrors == map[]
    {
      selectedRoom := None;
      showApplicationForm := false;
      formData := EmptyForm;
      isSubmitting := false;
      formErrors := map[];
    }

    /** The "Apply for This Room" button. */
    method ApplyForRoom(room: Room)
      modifies this
      ensures selectedRoom == Some(room) && showApplicationForm
      ensures formData == old(formData) && formErrors == old(formErrors) && isSubmitting == old(isSubmitting)
    {
      selectedRoom := Some(room);
      showApplicationForm := true;
    }

    /** A hobby checkbox changing state; a form holding at most three hobbies keeps at most three. */
    method OnHobbyChange(hobby: string, checked: bool)
      modifies this
      ensures formData == old(formData).(traits := old(formData).traits.(
                hobbies := ToggleHobby(old(formData).traits.hobbies, hobby, checked)))
      ensures |old(formData).traits.hobbies| <= 3 ==> |formData.traits.hobbies| <= 3
      ensures selectedRoom == old(selectedRoom) && formErrors == old(formErrors)
      ensures showApplicationForm == old(showApplicationForm) && isSubmitting == old(isSubmitting)
    {
      var t := formData.traits;
      formData := formData.(traits := t.(hobbies := ToggleHobby(t.hobbies, hobby, checked)));
    }

    /** `handleSubmit`: validate, require a selected room, then send the
        application. `outcome` is what the apply call returns when it is made;
        `request` is the call made, `navigatedTo` the page opened afterwards. */
    method HandleSubmit(outcome: ApiResult<JsValue>) returns (request: Option<ApplyRequest>, navigatedTo: string)
      modifies this
      ensures formData == old(formData) && selectedRoom == old(selectedRoom)
      ensures showApplicationForm == old(showApplicationForm)
      ensures request.Some? <==> FormAccepted(formData) && selectedRoom.Some? && Truthy(selectedRoom.value.id)
      ensures request.Some? ==> request.value == ApplyRequest(ProfileOf(formData),
                CompactTraits(TraitsPayload(formData.traits)), selectedRoom.value.id)
      ensures !FormAccepted(formData) ==> formErrors == ErrorsFor(formData) && formErrors != map[]
      ensures FormAccepted(formData) && request.None? ==> formErrors == map[Submit := "No room selected"]
      ensures request.Some? && outcome.Ok? ==> navigatedTo == "/profile" && formErrors == old(formErrors)
      ensures request.Some? && outcome.Failed? ==>
                navigatedTo == "" && formErrors == map[Submit := ErrorText(outcome.message, "Failed to submit allocation")]
      ensures request.None? ==> navigatedTo == "" && isSubmitting == old(isSubmitting)
      ensures request.Some? ==> !isSubmitting
    {
      var errors := ValidateForm(formData);
      ValidationErrors(formData);
      if |errors| > 0 {
        formErrors := errors;
        return None, "";
      }
      if selectedRoom.None? || !Truthy(selectedRoom.value.id) {
        formErrors := map[Submit := "No room selected"];
        return None, "";
      }
      var sent;
      sent, navigatedTo := SendApplication(outcome);
      request := Some(sent);
    }

    /** The request made once the form passed and a room is selected, and
        what follows it: the profile page on success, the error under
        `Submit` on failure. */
    method SendApplication(outcome: ApiResult<JsValue>) returns (request: ApplyRequest, navigatedTo: string)
      requires selectedRoom.Some?
      modifies this
      ensures formData == old(formData) && selectedRoom == old(selectedRoom)
      ensures request == ApplyRequest(ProfileOf(formData), CompactTraits(TraitsPayload(formData.traits)),
                                      selectedRoom.value.id)
      ensures showApplicationForm == old(showApplicationForm) && !isSubmitting
      ensures outcome.Ok? ==> navigatedTo == "/profile" && formErrors == old(formErrors)
      ensures outcome.Failed? ==>
                navigatedTo == "" && formErrors == map[Submit := ErrorText(outcome.message, "Failed to submit allocation")]
    {
      isSubmitting := true;
      var traits := CompactTraits(TraitsPayload(formData.traits));
      request := ApplyRequest(ProfileOf(formData), traits, selectedRoom.value.id);
      match outcome {
        case Ok(_) =>
          navigatedTo := "/profile";
        case Failed(message) =>
          navigatedTo := "";
          formErrors := map[Submit := ErrorText(message, "Failed to submit allocation")];
      }
      isSubmitting := false;
    }
  }
}
