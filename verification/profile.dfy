/** The student profile page: the profile and preference draft built from
    the back end's answer, the student's complaints, the hobbies editor, the
    cleanliness meter, and the edit / save / cancel cycle of the profile. */
module StudentProfile {
  import opened Outcomes
  import opened Seqs
  import opened Text
  import opened JsValues

  // ---------------------------------------------------------------- allocation

  /** `alloc?.status ? (alloc.status === 'approved' ? 'Allocated' : alloc.status) : 'Pending'`:
      an approved allocation shows as "Allocated", any other set status
      shows as itself, and a missing allocation or status as "Pending"; the
      shown value is never empty and never the raw word "approved". */
  function AllocationStatus(alloc: JsValue): (shown: JsValue)
    ensures Prop(alloc, "status") == Str("approved") ==> shown == Str("Allocated")
    ensures Truthy(Prop(alloc, "status")) && Prop(alloc, "status") != Str("approved") ==>
              shown == Prop(alloc, "status")
    ensures !Truthy(Prop(alloc, "status")) ==> shown == Str("Pending")
    ensures Truthy(shown) && shown != Str("approved")
  {
    var status := Prop(alloc, "status");
    if Truthy(status) then (if status == Str("approved") then Str("Allocated") else status)
    else Str("Pending")
  }

  /** `alloc?.allocatedAt ? String(alloc.allocatedAt).slice(0,10) : ''`:
      at most ten characters, the start of the timestamp's text. */
  function ApplicationDate(alloc: JsValue): (date: string)
    ensures |date| <= 10
    ensures Truthy(Prop(alloc, "allocatedAt")) ==> date <= ToJsString(Prop(alloc, "allocatedAt"))
    ensures Truthy(Prop(alloc, "allocatedAt")) && |ToJsString(Prop(alloc, "allocatedAt"))| >= 10 ==> |date| == 10
    ensures !Truthy(Prop(alloc, "allocatedAt")) ==> date == ""
  {
    var at := Prop(alloc, "allocatedAt");
    if Truthy(at) then Prefix(ToJsString(at), 10) else ""
  }

  // ---------------------------------------------------------------- profile record

  /** The profile record; a property the record was never given reads as
      `Undefined`. */
  datatype ProfileRecord = ProfileRecord(
    id: JsValue, name: JsValue, regNumber: JsValue, email: JsValue, phone: JsValue,
    gender: JsValue, level: JsValue, department: JsValue, profilePic: JsValue,
    allocationStatus: JsValue, hostel: JsValue, hostelId: JsValue, roomNumber: JsValue,
    applicationDate: JsValue, personality: JsValue, roommate: JsValue, roommateMatch: JsValue)

  /** The record's property names. */
  datatype ProfileField =
    | Id | Name | RegNumber | Email | Phone | Gender | Level | Department | ProfilePic
    | AllocationStatusField | Hostel | HostelId | RoomNumber | ApplicationDateField
    | Personality | Roommate | RoommateMatch

  /** `{}`: a record with no property set. */
  const BlankRecord := ProfileRecord(
    Undefined, Undefined, Undefined, Undefined, Undefined, Undefined, Undefined, Undefined, Undefined,
    Undefined, Undefined, Undefined, Undefined, Undefined, Undefined, Undefined, Undefined)

  /** `record[field]`. */
  function Get(p: ProfileRecord, f: ProfileField): JsValue {
    match f
    case Id => p.id
    case Name => p.name
    case RegNumber => p.regNumber
    case Email => p.email
    case Phone => p.phone
    case Gender => p.gender
    case Level => p.level
    case Department => p.department
    case ProfilePic => p.profilePic
    case AllocationStatusField => p.allocationStatus
    case Hostel => p.hostel
    case HostelId => p.hostelId
    case RoomNumber => p.roomNumber
    case ApplicationDateField => p.applicationDate
    case Personality => p.personality
    case Roommate => p.roommate
    case RoommateMatch => p.roommateMatch
  }

  /** `{...record, [field]: value}`: the named property reads `value`, every
      other property reads as before. */
  function With(p: ProfileRecord, f: ProfileField, v: JsValue): (r: ProfileRecord)
    ensures forall g :: Get(r, g) == if g == f then v else Get(p, g)
  {
    match f
    case Id => p.(id := v)
    case Name => p.(name := v)
    case RegNumber => p.(regNumber := v)
    case Email => p.(email := v)
    case Phone => p.(phone := v)
    case Gender => p.(gender := v)
    case Level => p.(level := v)
    case Department => p.(department := v)
    case ProfilePic => p.(profilePic := v)
    case AllocationStatusField => p.(allocationStatus := v)
    case Hostel => p.(hostel := v)
    case HostelId => p.(hostelId := v)
    case RoomNumber => p.(roomNumber := v)
    case ApplicationDateField => p.(applicationDate := v)
    case Personality => p.(personality := v)
    case Roommate => p.(roommate := v)
    case RoommateMatch => p.(roommateMatch := v)
  }

  /** The fields shown with a '-' placeholder when the back end has none. */
  const PlaceholderFields: set<ProfileField> := {Name, RegNumber, Email, Phone, Gender, Level, Department}

  /** `setProfileData({...})` on load: the profile record built from the
      `personal` and `allocation` parts of the answer. */
  function ProfileOf(personal: JsValue, alloc: JsValue): ProfileRecord {
    ProfileRecord(
      Or(Prop(personal, "_id"), Prop(personal, "id")),
      Or(Prop(personal, "fullName"), Or(Prop(personal, "name"), Str("-"))),
      Or(Prop(personal, "matricNumber"), Str("-")),
      Or(Prop(personal, "email"), Str("-")),
      Or(Prop(personal, "phone"), Str("-")),
      Or(Prop(personal, "gender"), Str("-")),
      Or(Prop(personal, "level"), Str("-")),
      Or(Prop(personal, "department"), Str("-")),
      Or(Prop(personal, "profilePic"), Or(Prop(personal, "avatarUrl"), Str(""))),
      AllocationStatus(alloc),
      Or(Prop(alloc, "hostel"), Str("")),
      Or(Prop(alloc, "hostelId"), Str("")),
      Or(Prop(alloc, "roomNumber"), Str("")),
      Str(ApplicationDate(alloc)),
      Obj(map[
        "type" := Str("Custom"),
        "traits" := Arr(ArrayOrEmpty(Prop(Prop(personal, "personalityTraits"), "hobbies"))),
        "bio" := Str("")]),
      Str("-"),
      Null)
  }

  /** The record built on load: every placeholder field is filled (never
      empty), the status follows `AllocationStatus`, the date
      `ApplicationDate`, and the personality carries the saved hobbies when
      they are an array. */
  lemma ProfileOfFilled(personal: JsValue, alloc: JsValue)
    ensures var p := ProfileOf(personal, alloc);
            && (forall f :: f in PlaceholderFields ==> Truthy(Get(p, f)))
            && p.allocationStatus == AllocationStatus(alloc)
            && p.applicationDate == Str(ApplicationDate(alloc))
            && Prop(p.personality, "traits") == Arr(ArrayOrEmpty(Prop(Prop(personal, "personalityTraits"), "hobbies")))
  {
    assert Truthy(Str("-"));
  }

  /** `record?.[field]` on a record that may be `null`. */
  function FieldOf(record: Option<ProfileRecord>, f: ProfileField): JsValue {
    if record.Some? then Get(record.value, f) else Undefined
  }

  // ---------------------------------------------------------------- hobbies editor

  /** `hobbies.join(', ')`, as the hobbies input shows the list. */
  function HobbiesText(hobbies: seq<JsValue>): string {
    Join(seq(|hobbies|, k requires 0 <= k < |hobbies| =>
      if hobbies[k] == Undefined || hobbies[k] == Null then "" else ToJsString(hobbies[k])), ", ")
  }

  /** `text.split(',').map(s => s.trim())`. */
  function TrimmedPieces(text: string): (pieces: seq<string>)
    ensures |pieces| == |Split(text, ',')|
    ensures forall k :: 0 <= k < |pieces| ==> pieces[k] == Trim(Split(text, ',')[k])
  {
    var parts := Split(text, ',');
    seq(|parts|, k requires 0 <= k < |parts| => Trim(parts[k]))
  }

  predicate NonEmpty(w: string) {
    w != ""
  }

  /** A hobby the editor can produce: a non-empty, trimmed word without a comma. */
  predicate IsHobbyWord(v: JsValue) {
    v.Str? && v.s != "" && IsTrimmed(v.s) && ',' !in v.s
  }

  /** The trimmed text of a comma-free piece holds no comma. */
  lemma TrimKeepsOut(s: string, c: char)
    requires c !in s
    ensures c !in Trim(s)
  {
    var t := TrimStart(s);
    SliceKeepsOut(s, c, |s| - |t|, |s|);
    var r := TrimEnd(t);
    SliceKeepsOut(t, c, 0, |r|);
  }

  /** A slice of a text without `c` has no `c` either. */
  lemma SliceKeepsOut(s: string, c: char, i: nat, j: nat)
    requires c !in s && i <= j <= |s|
    ensures c !in s[i..j]
  {
    forall x | 0 <= x < j - i
      ensures s[i..j][x] != c
    {
      assert s[i..j][x] == s[i + x];
    }
  }

  /** A non-empty trimmed piece of the hobbies text is a hobby word. */
  lemma PieceIsWord(text: string, w: string)
    requires w in TrimmedPieces(text) && w != ""
    ensures IsHobbyWord(Str(w))
  {
    var pieces := TrimmedPieces(text);
    var j :| 0 <= j < |pieces| && pieces[j] == w;
    var parts := Split(text, ',');
    assert w == Trim(parts[j]) && ',' !in parts[j];
    TrimKeepsOut(parts[j], ',');
  }

  /** `text.split(',').map(s => s.trim()).filter(Boolean)` as strings. */
  function HobbyWords(text: string): (words: seq<string>)
    ensures forall w :: w in words ==> IsHobbyWord(Str(w))
    ensures |words| <= |Split(text, ',')|
  {
    var words := Filter(TrimmedPieces(text), NonEmpty);
    assert forall w :: w in words ==> IsHobbyWord(Str(w)) by {
      forall w | w in words
        ensures IsHobbyWord(Str(w))
      {
        PieceIsWord(text, w);
      }
    }
    words
  }

  /** `text.split(',').map(s => s.trim()).filter(Boolean)`: the typed
      hobbies, each a non-empty trimmed word without a comma. */
  function ParseHobbies(text: string): (hobbies: seq<JsValue>)
    ensures forall h :: h in hobbies ==> IsHobbyWord(h)
    ensures |hobbies| <= |Split(text, ',')|
  {
    var words := HobbyWords(text);
    assert forall k :: 0 <= k < |words| ==> words[k] in words;
    seq(|words|, k requires 0 <= k < |words| => Str(words[k]))
  }

  /** The pieces `Join(ws, ", ")` splits into at the commas: the first word,
      then each later word with the space that followed its comma. */
  function Spaced(ws: seq<string>): (pieces: seq<string>)
    ensures |pieces| == |ws|
  {
    seq(|ws|, k requires 0 <= k < |ws| => if k == 0 then ws[0] else " " + ws[k])
  }

  /** Putting a space before the first piece puts it before the joined text. */
  lemma JoinFrontSpace(first: string, rest: seq<string>)
    ensures Join([" " + first] + rest, ",") == " " + Join([first] + rest, ",")
  {
    var spaced := [" " + first] + rest;
    var plain := [first] + rest;
    if rest == [] {
      assert spaced == [" " + first] && plain == [first];
    } else {
      assert spaced[1..] == rest && plain[1..] == rest;
      calc {
        Join(spaced, ",");
        (" " + first) + "," + Join(rest, ",");
        " " + (first + "," + Join(rest, ","));
        " " + Join(plain, ",");
      }
    }
  }

  /** The spaced pieces of two or more words: the first word, then the
      spaced pieces of the rest with a space put before the first of them. */
  lemma SpacedCons(ws: seq<string>)
    requires |ws| >= 2
    ensures Spaced(ws) == [ws[0]] + ([" " + Spaced(ws[1..])[0]] + Spaced(ws[1..])[1..])
  {
    var tail := Spaced(ws[1..]);
    var whole := [ws[0]] + ([" " + tail[0]] + tail[1..]);
    forall k | 0 <= k < |ws|
      ensures Spaced(ws)[k] == whole[k]
    {
      if k >= 2 {
        assert whole[k] == tail[k - 1];
      }
    }
  }

  lemma {:induction false} JoinSpaced(ws: seq<string>)
    requires |ws| >= 1
    ensures Join(ws, ", ") == Join(Spaced(ws), ",")
    decreases |ws|
  {
    if |ws| > 1 {
      JoinSpaced(ws[1..]);
      var tail := Spaced(ws[1..]);
      var rest := [" " + tail[0]] + tail[1..];
      SpacedCons(ws);
      JoinFrontSpace(tail[0], tail[1..]);
      assert [tail[0]] + tail[1..] == tail;
      assert Join(Spaced(ws), ",") == ws[0] + "," + Join(rest, ",");
      assert Join(ws, ", ") == ws[0] + ", " + Join(ws[1..], ", ");
    }
  }

  /** The text shown for hobby words is the words joined with ", ". */
  lemma HobbiesTextOfWords(hobbies: seq<JsValue>)
    requires forall k :: 0 <= k < |hobbies| ==> hobbies[k].Str?
    ensures HobbiesText(hobbies) == Join(seq(|hobbies|, k requires 0 <= k < |hobbies| => hobbies[k].s), ", ")
  {
    var ws := seq(|hobbies|, k requires 0 <= k < |hobbies| => hobbies[k].s);
    var shown := seq(|hobbies|, k requires 0 <= k < |hobbies| =>
      if hobbies[k] == Undefined || hobbies[k] == Null then "" else ToJsString(hobbies[k]));
    assert shown == ws;
  }

  /** Splitting words joined with ", " at the commas gives the spaced words. */
  lemma SplitSpaced(ws: seq<string>)
    requires |ws| >= 1
    requires forall k :: 0 <= k < |ws| ==> ',' !in ws[k]
    ensures Split(Join(ws, ", "), ',') == Spaced(ws)
  {
    JoinSpaced(ws);
    var sp := Spaced(ws);
    forall k | 0 <= k < |sp|
      ensures ',' !in sp[k]
    {
      if k > 0 {
        assert sp[k] == " " + ws[k];
      }
    }
    SplitJoin(sp, ',');
  }

  /** Trimming the spaced pieces of trimmed words gives the words back. */
  lemma TrimSpaced(ws: seq<string>)
    requires forall k :: 0 <= k < |ws| ==> IsTrimmed(ws[k])
    ensures seq(|ws|, k requires 0 <= k < |ws| => Trim(Spaced(ws)[k])) == ws
  {
    forall k | 0 <= k < |ws|
      ensures Trim(Spaced(ws)[k]) == ws[k]
    {
      if k > 0 {
        assert Spaced(ws)[k] == " " + ws[k];
        TrimAfterSpace(ws[k]);
      }
    }
  }

  /** Reading back words joined with ", " gives the words. */
  lemma WordsOfJoined(ws: seq<string>)
    requires forall k :: 0 <= k < |ws| ==> IsHobbyWord(Str(ws[k]))
    ensures HobbyWords(Join(ws, ", ")) == ws
  {
    if ws == [] {
      EmptyTextHasNoWords();
    } else {
      var text := Join(ws, ", ");
      SplitSpaced(ws);
      TrimSpaced(ws);
      assert TrimmedPieces(text) == ws;
      assert forall w :: w in ws ==> NonEmpty(w);
    }
  }

  lemma EmptyTextHasNoWords()
    ensures HobbyWords("") == []
  {
    assert Split("", ',') == [""];
    assert TrimmedPieces("") == [""];
  }

  /** The hobbies input round-trips: reading back the text shown for a list
      of hobby words gives the same list. */
  lemma HobbiesRoundTrip(hobbies: seq<JsValue>)
    requires forall k :: 0 <= k < |hobbies| ==> IsHobbyWord(hobbies[k])
    ensures ParseHobbies(HobbiesText(hobbies)) == hobbies
  {
    var ws := seq(|hobbies|, k requires 0 <= k < |hobbies| => hobbies[k].s);
    HobbiesTextOfWords(hobbies);
    WordsOfJoined(ws);
    assert HobbyWords(HobbiesText(hobbies)) == ws;
  }

  /** Editing the hobbies text is idempotent: re-reading the text shown for
      a parsed list changes nothing. */
  lemma ParseHobbiesStable(text: string)
    ensures ParseHobbies(HobbiesText(ParseHobbies(text))) == ParseHobbies(text)
  {
    var h := ParseHobbies(text);
    assert forall k :: 0 <= k < |h| ==> h[k] in h;
    HobbiesRoundTrip(h);
  }

  /** `(traitsDraft.hobbies || []).slice(0,3)`: the hobby tags shown, the
      first three at most. */
  function ShownHobbyTags(hobbies: seq<JsValue>): (tags: seq<JsValue>)
    ensures |tags| == if |hobbies| < 3 then |hobbies| else 3
    ensures tags <= hobbies
  {
    if |hobbies| < 3 then hobbies else hobbies[..3]
  }

  // ---------------------------------------------------------------- preference draft

  datatype TraitsDraft = TraitsDraft(
    sleepSchedule: JsValue, studyHabits: JsValue, cleanlinessLevel: Option<int>,
    socialPreference: JsValue, noisePreference: JsValue, hobbies: seq<JsValue>,
    musicPreference: JsValue, visitorFrequency: JsValue)

  const EmptyDraft := TraitsDraft(Str(""), Str(""), Some(3), Str(""), Str(""), [], Str(""), Str(""))

  /** `Number(traitsServer.cleanlinessLevel ?? 3)`: 3 only when the level
      is missing (`null` or `undefined`); a stored 0 is kept. */
  function CleanlinessDefault(level: JsValue): (r: Option<int>)
    ensures level == Undefined || level == Null ==> r == Some(3)
    ensures level.Num? ==> r == Some(level.n)
  {
    ToNumber(Coalesce(level, Num(3)))
  }

  /** The saved hobbies: an array as it is, a string read like the hobbies
      input, anything else none. */
  function HobbiesFrom(v: JsValue): (hobbies: seq<JsValue>)
    ensures v.Arr? ==> hobbies == v.items
    ensures v.Str? ==> hobbies == ParseHobbies(v.s)
    ensures !v.Arr? && !v.Str? ==> hobbies == []
  {
    match v
    case Arr(items) => items
    case Str(s) => ParseHobbies(s)
    case _ => []
  }

  /** `setTraitsDraft({...})` on load. */
  function DraftFromServer(personal: JsValue): (d: TraitsDraft)
    ensures d.hobbies == HobbiesFrom(Prop(Or(Prop(personal, "personalityTraits"), Obj(map[])), "hobbies"))
    ensures d.cleanlinessLevel == CleanlinessDefault(Prop(Or(Prop(personal, "personalityTraits"), Obj(map[])), "cleanlinessLevel"))
  {
    var t := Or(Prop(personal, "personalityTraits"), Obj(map[]));
    TraitsDraft(
      Or(Prop(t, "sleepSchedule"), Str("")), Or(Prop(t, "studyHabits"), Str("")),
      CleanlinessDefault(Prop(t, "cleanlinessLevel")),
      Or(Prop(t, "socialPreference"), Str("")), Or(Prop(t, "noisePreference"), Str("")),
      HobbiesFrom(Prop(t, "hobbies")),
      Or(Prop(t, "musicPreference"), Str("")), Or(Prop(t, "visitorFrequency"), Str("")))
  }

  /** The meter's width in percent: `Math.min(100, Math.max(0, (Number(level)||0) * 20))`.
      A level that is not a number counts as 0; levels 0..5 fill 20% a step. */
  function MeterWidth(level: Option<int>): (width: int)
    ensures 0 <= width <= 100
    ensures level.Some? && 0 <= level.value <= 5 ==> width == 20 * level.value
    ensures level.None? || level.value <= 0 ==> width == 0
    ensures level.Some? && level.value >= 5 ==> width == 100
  {
    var n := if level.Some? then level.value else 0;
    var w := n * 20;
    if w > 100 then 100 else if w < 0 then 0 else w
  }

  /** A wider meter for a higher level. */
  lemma MeterMonotone(a: int, b: int)
    requires a <= b
    ensures MeterWidth(Some(a)) <= MeterWidth(Some(b))
  {
  }

  /** The profile after the preferences are saved:
      `{...prev, personality: {...(prev?.personality || {type: 'Custom', bio: ''}), traits: hobbies}}`.
      Only the personality changes; its traits become the saved hobbies and
      its other properties are kept. */
  function WithSavedTraits(prev: Option<ProfileRecord>, hobbies: seq<JsValue>): (r: ProfileRecord)
    ensures forall g :: g != Personality ==> Get(r, g) == FieldOf(prev, g)
    ensures Prop(r.personality, "traits") == Arr(hobbies)
    ensures Truthy(FieldOf(prev, Personality)) && FieldOf(prev, Personality).Obj? ==>
              forall k :: k != "traits" && k in FieldOf(prev, Personality).props ==>
                Prop(r.personality, k) == FieldOf(prev, Personality).props[k]
  {
    var base := Or(FieldOf(prev, Personality), Obj(map["type" := Str("Custom"), "bio" := Str("")]));
    var spread := if base.Obj? then base.props else map[];
    With(if prev.Some? then prev.value else BlankRecord, Personality, Obj(spread["traits" := Arr(hobbies)]))
  }

  // ---------------------------------------------------------------- complaints

  datatype ComplaintView = ComplaintView(
    id: JsValue, kind: JsValue, description: JsValue, status: JsValue, createdAt: Option<JsValue>)

  /** One complaint as listed: type "Other" and status "Open" when unset,
      the message standing in for a missing description. The timestamp kept
      is the one the date is printed from. */
  function ComplaintOf(c: JsValue): (v: ComplaintView)
    ensures Truthy(v.kind) && Truthy(v.status)
    ensures v.id == Or(Prop(c, "_id"), Prop(c, "id"))
    ensures Truthy(Prop(c, "type")) ==> v.kind == Prop(c, "type")
    ensures !Truthy(Prop(c, "type")) ==> v.kind == Str("Other")
    ensures Truthy(Prop(c, "status")) ==> v.status == Prop(c, "status")
    ensures !Truthy(Prop(c, "status")) ==> v.status == Str("Open")
    ensures Truthy(Prop(c, "description")) ==> v.description == Prop(c, "description")
    ensures !Truthy(Prop(c, "description")) ==> v.description == Prop(c, "message")
    ensures v.createdAt.Some? <==> Truthy(Prop(c, "createdAt"))
  {
    ComplaintView(
      Or(Prop(c, "_id"), Prop(c, "id")),
      Or(Prop(c, "type"), Str("Other")),
      Or(Prop(c, "description"), Prop(c, "message")),
      Or(Prop(c, "status"), Str("Open")),
      if Truthy(Prop(c, "createdAt")) then Some(Prop(c, "createdAt")) else None)
  }

  /** The complaints of a response, one view per item, in order. */
  function ComplaintsOf(body: JsValue): (views: seq<ComplaintView>)
    ensures |views| == |ListOf(body)|
    ensures forall k :: 0 <= k < |views| ==> views[k] == ComplaintOf(ListOf(body)[k])
  {
    var items := ListOf(body);
    seq(|items|, k requires 0 <= k < |items| => ComplaintOf(items[k]))
  }

  // ---------------------------------------------------------------- the page

  /** `(prof.data || {}).personal || {}`, where `prof.data` is the response
      body: the student's own record. */
  function ServerPersonal(body: JsValue): JsValue {
    Or(Prop(Or(body, Obj(map[])), "personal"), Obj(map[]))
  }

  /** `(prof.data || {}).allocation || null`, where `prof.data` is the
      response body: the student's allocation. */
  function ServerAllocation(body: JsValue): JsValue {
    Or(Prop(Or(body, Obj(map[])), "allocation"), Null)
  }

  datatype AlertState = AlertState(open: bool, kind: string, message: string)

  class ProfilePage {
    var loading: bool
    var profileData: Option<ProfileRecord>
    var editedData: Option<ProfileRecord>
    var isEditing: bool
    var showPrefEditor: bool
    var traitsDraft: TraitsDraft
    var complaints: seq<ComplaintView>
    var showComplaintForm: bool
    var complaintType: string
    var complaintDesc: string
    var alert: AlertState

    constructor ()
      ensures loading && profileData == None && editedData == None && !isEditing && !showPrefEditor
      ensures traitsDraft == EmptyDraft && complaints == [] && complaintType == "" && complaintDesc == ""
      ensures alert == AlertState(false, "info", "")
    {
      loading := true;
      profileData := None;
      editedData := None;
      isEditing := false;
      showPrefEditor := false;
      traitsDraft := EmptyDraft;
      complaints := [];
      showComplaintForm := false;
      complaintType := "";
      complaintDesc := "";
      alert := AlertState(false, "info", "");
    }

    /** Both requests of the load effect succeeded: the profile, the draft
        and the complaints are set, and the preference editor opens unless it
        was already shown once. */
    method ShowLoaded(record: ProfileRecord, draft: TraitsDraft, views: seq<ComplaintView>, prefShown: bool)
      modifies this
      ensures profileData == Some(record) && traitsDraft == draft
      ensures complaints == views && showPrefEditor == !prefShown
      ensures alert == old(alert) && isEditing == old(isEditing) && editedData == old(editedData)
      ensures loading == old(loading)
    {
      profileData, traitsDraft, complaints, showPrefEditor := Some(record), draft, views, !prefShown;
    }

    /** The load effect: nothing to load without a student id; when both
        requests succeed the profile, the draft and the complaints are set
        and the preference editor opens unless it was already shown once
        (`prefShown`); a failed request raises an error alert. */
    method Load(studentId: JsValue, prof: ApiResult<JsValue>, comps: ApiResult<JsValue>, prefShown: bool)
      modifies this
      ensures !loading
      ensures !Truthy(studentId) ==>
                profileData == old(profileData) && complaints == old(complaints) && alert == old(alert)
      ensures Truthy(studentId) && prof.Ok? && comps.Ok? ==>
                profileData == Some(ProfileOf(ServerPersonal(prof.value), ServerAllocation(prof.value)))
                && traitsDraft == DraftFromServer(ServerPersonal(prof.value))
                && complaints == ComplaintsOf(comps.value)
                && showPrefEditor == !prefShown
                && alert == old(alert)
      ensures Truthy(studentId) && prof.Failed? ==>
                alert == AlertState(true, "error", ErrorText(prof.message, "Failed to load profile"))
                && profileData == old(profileData) && complaints == old(complaints)
      ensures Truthy(studentId) && prof.Ok? && comps.Failed? ==>
                alert == AlertState(true, "error", ErrorText(comps.message, "Failed to load profile"))
                && profileData == old(profileData) && complaints == old(complaints)
      ensures isEditing == old(isEditing) && editedData == old(editedData)
    {
      if !Truthy(studentId) {
        loading := false;
        return;
      }
      if prof.Failed? {
        alert := AlertState(true, "error", ErrorText(prof.message, "Failed to load profile"));
      } else if comps.Failed? {
        alert := AlertState(true, "error", ErrorText(comps.message, "Failed to load profile"));
      } else {
        var personal := ServerPersonal(prof.value);
        ShowLoaded(ProfileOf(personal, ServerAllocation(prof.value)), DraftFromServer(personal),
                   ComplaintsOf(comps.value), prefShown);
      }
      loading := false;
    }

    /** `handleEdit`: editing starts from a copy of the profile and opens the
        preference editor. */
    method HandleEdit()
      modifies this
      ensures isEditing && showPrefEditor && editedData == profileData
      ensures profileData == old(profileData) && traitsDraft == old(traitsDraft) && alert == old(alert)
    {
      isEditing := true;
      editedData := profileData;
      showPrefEditor := true;
    }

    /** `handleChange`: only the named field of the edited copy changes. */
    method HandleChange(field: ProfileField, value: JsValue)
      modifies this
      ensures editedData == Some(With(if old(editedData).Some? then old(editedData).value else BlankRecord, field, value))
      ensures Get(editedData.value, field) == value
      ensures forall g :: g != field ==> Get(editedData.value, g) == FieldOf(old(editedData), g)
      ensures profileData == old(profileData) && isEditing == old(isEditing) && alert == old(alert)
    {
      var prev := if editedData.Some? then editedData.value else BlankRecord;
      editedData := Some(With(prev, field, value));
    }

    /** `handleCancel`: the edits are dropped and both editors close. */
    method HandleCancel()
      modifies this
      ensures !isEditing && !showPrefEditor && editedData == profileData
      ensures profileData == old(profileData) && alert == old(alert)
    {
      isEditing := false;
      editedData := profileData;
      showPrefEditor := false;
    }

    /** `handleSave`: without a student id nothing is sent and the generic
        failure is shown; otherwise name, phone and level of the edited copy
        are sent, and on success the edited copy becomes the profile. */
    method HandleSave(studentId: JsValue, result: ApiResult<JsValue>)
      returns (request: Option<(JsValue, map<string, JsValue>)>)
      modifies this
      ensures request.Some? <==> Truthy(studentId)
      ensures request.Some? ==>
                request.value == (studentId, map["fullName" := FieldOf(old(editedData), Name),
                                                 "phone" := FieldOf(old(editedData), Phone),
                                                 "level" := FieldOf(old(editedData), Level)])
      ensures request.None? ==>
                alert == AlertState(true, "error", "Failed to update profile")
                && profileData == old(profileData) && isEditing == old(isEditing)
      ensures request.Some? && result.Ok? ==>
                profileData == old(editedData) && !isEditing && !showPrefEditor
                && alert == AlertState(true, "success", "Profile updated successfully!")
      ensures request.Some? && result.Failed? ==>
                alert == AlertState(true, "error", ErrorText(result.message, "Failed to update profile"))
                && profileData == old(profileData) && isEditing == old(isEditing)
      ensures editedData == old(editedData)
    {
      if !Truthy(studentId) {
        alert := AlertState(true, "error", "Failed to update profile");
        return None;
      }
      request := Some((studentId, map["fullName" := FieldOf(editedData, Name),
                                      "phone" := FieldOf(editedData, Phone),
                                      "level" := FieldOf(editedData, Level)]));
      match result {
        case Ok(_) =>
          profileData := editedData;
          isEditing := false;
          showPrefEditor := false;
          alert := AlertState(true, "success", "Profile updated successfully!");
        case Failed(message) =>
          alert := AlertState(true, "error", ErrorText(message, "Failed to update profile"));
      }
    }

    /** The hobbies input's change handler: the draft's hobbies become the
        words typed. */
    method OnHobbiesInput(text: string)
      modifies this
      ensures traitsDraft == old(traitsDraft).(hobbies := ParseHobbies(text))
      ensures profileData == old(profileData) && editedData == old(editedData)
    {
      traitsDraft := traitsDraft.(hobbies := ParseHobbies(text));
    }

    /** `savePersonality`: the draft is sent; on success the profile's
        personality shows the draft's hobbies, every other profile field is
        kept, the editor closes, and the editor is marked as shown for that
        student (`markShown`). */
    method SavePersonality(studentId: JsValue, result: ApiResult<JsValue>)
      returns (sent: TraitsDraft, markShown: bool)
      modifies this
      ensures sent == old(traitsDraft)
      ensures markShown <==> result.Ok? && Truthy(studentId)
      ensures result.Ok? ==>
                profileData == Some(WithSavedTraits(old(profileData), old(traitsDraft).hobbies))
                && !showPrefEditor && alert == AlertState(true, "success", "Personality saved")
      ensures result.Failed? ==>
                profileData == old(profileData) && showPrefEditor == old(showPrefEditor)
                && alert == AlertState(true, "error", ErrorText(result.message, "Failed to save personality"))
      ensures traitsDraft == old(traitsDraft) && editedData == old(editedData)
    {
      sent := traitsDraft;
      markShown := false;
      match result {
        case Ok(_) =>
          profileData := Some(WithSavedTraits(profileData, traitsDraft.hobbies));
          alert := AlertState(true, "success", "Personality saved");
          showPrefEditor := false;
          markShown := Truthy(studentId);
        case Failed(message) =>
          alert := AlertState(true, "error", ErrorText(message, "Failed to save personality"));
      }
    }

    /** `handleSubmitComplaint`: a missing type or description is refused
        with no request; without a student id the generic failure is shown;
        otherwise the complaint is sent, the list is fetched again, and on
        success the list is replaced and the form cleared. */
    method HandleSubmitComplaint(studentId: JsValue, submitted: ApiResult<JsValue>, listed: ApiResult<JsValue>)
      returns (request: Option<(JsValue, string, string)>)
      modifies this
      ensures old(complaintType) == "" || old(complaintDesc) == "" ==>
                request == None
                && alert == AlertState(true, "error", "Please select a type and enter a description.")
                && complaints == old(complaints) && complaintType == old(complaintType)
                && complaintDesc == old(complaintDesc)
      ensures request.Some? <==> old(complaintType) != "" && old(complaintDesc) != "" && Truthy(studentId)
      ensures request.Some? ==> request.value == (studentId, old(complaintType), old(complaintDesc))
      ensures request.Some? && submitted.Ok? && listed.Ok? ==>
                complaints == ComplaintsOf(listed.value) && !showComplaintForm
                && complaintType == "" && complaintDesc == ""
                && alert == AlertState(true, "success", "Complaint submitted successfully!")
      ensures old(complaintType) != "" && old(complaintDesc) != "" && !Truthy(studentId) ==>
                alert == AlertState(true, "error", "Failed to submit complaint")
                && complaints == old(complaints) && showComplaintForm == old(showComplaintForm)
                && complaintType == old(complaintType) && complaintDesc == old(complaintDesc)
      ensures request.Some? && submitted.Failed? ==>
                alert == AlertState(true, "error", ErrorText(submitted.message, "Failed to submit complaint"))
                && complaints == old(complaints) && showComplaintForm == old(showComplaintForm)
                && complaintType == old(complaintType) && complaintDesc == old(complaintDesc)
      ensures request.Some? && submitted.Ok? && listed.Failed? ==>
                alert == AlertState(true, "error", ErrorText(listed.message, "Failed to submit complaint"))
                && complaints == old(complaints) && showComplaintForm == old(showComplaintForm)
                && complaintType == old(complaintType) && complaintDesc == old(complaintDesc)
      ensures profileData == old(profileData) && traitsDraft == old(traitsDraft)
    {
      if complaintType == "" || complaintDesc == "" {
        alert := AlertState(true, "error", "Please select a type and enter a description.");
        return None;
      }
      if !Truthy(studentId) {
        alert := AlertState(true, "error", "Failed to submit complaint");
        return None;
      }
      request := Some((studentId, complaintType, complaintDesc));
      match (submitted, listed) {
        case (Failed(message), _) =>
          alert := AlertState(true, "error", ErrorText(message, "Failed to submit complaint"));
        case (Ok(_), Failed(message)) =>
          alert := AlertState(true, "error", ErrorText(message, "Failed to submit complaint"));
        case (Ok(_), Ok(body)) =>
          complaints := ComplaintsOf(body);
          showComplaintForm := false;
          complaintType := "";
          complaintDesc := "";
          alert := AlertState(true, "success", "Complaint submitted successfully!");
      }
    }
  }
}
