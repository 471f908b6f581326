/** The admin dashboard: the allocation query sent for the status tab, the
    normalisation of allocation rows, the summary counters read from a
    response of unknown shape, the search filters, and the list updates
    made by approving and rejecting applications. */
module AdminDashboard {
  import opened Outcomes
  import opened Seqs
  import opened Text
  import opened JsValues

  // ---------------------------------------------------------------- the query

  /** `statusParam`: the status sent for the tab, compared case-insensitively. */
  function StatusParam(filter: string): (r: Option<string>)
    ensures r.Some? <==> Lower(filter) in {"approved", "rejected", "pending"}
    ensures r.Some? ==> r.value == Lower(filter)
  {
    var f := Lower(filter);
    if f == "approved" then Some("approved")
    else if f == "rejected" then Some("rejected")
    else if f == "pending" then Some("pending")
    else None
  }

  /** The parameters of the allocations request for a tab; no request at
      all on the "Unallocated" tab. A status key is present exactly when the
      tab names a status. */
  function AllocationsQuery(filter: string): (q: Option<map<string, JsValue>>)
    ensures q.None? <==> Lower(filter) == "unallocated"
    ensures q.Some? ==> "limit" in q.value && q.value["limit"] == Num(100)
    ensures q.Some? ==> "page" in q.value && q.value["page"] == Num(1)
    ensures q.Some? ==> ("status" in q.value <==> StatusParam(filter).Some?)
    ensures q.Some? && StatusParam(filter).Some? ==>
              "status" in q.value && q.value["status"] == Str(StatusParam(filter).value)
    ensures q.Some? ==> q.value.Keys <= {"limit", "page", "status"}
  {
    if Lower(filter) == "unallocated" then None
    else
      var base := map["limit" := Num(100), "page" := Num(1)];
      match StatusParam(filter)
      case None => Some(base)
      case Some(s) => Some(base["status" := Str(s)])
  }

  // ---------------------------------------------------------------- rows

  /** One row of the allocations table. `id` is the row's `_id`. */
  datatype AllocationRow = AllocationRow(
    id: JsValue, studentId: JsValue, student: JsValue, roomId: JsValue,
    room: JsValue, session: JsValue, status: string)

  /** The normalisation of one allocation record of the response; every
      row gets a truthy student, room and session label, each the first set
      candidate in the page's order, and the row has a room id exactly when
      the record names a room. */
  function RowOf(a: JsValue): (row: AllocationRow)
    ensures Truthy(row.student) && Truthy(row.room) && Truthy(row.session)
    ensures row.id == Or(Prop(a, "id"), Prop(a, "_id"))
    ensures Truthy(Prop(a, "session")) ==> row.session == Prop(a, "session")
    ensures !Truthy(Prop(a, "session")) ==> row.session == Str("-")
    // the student's label: full name, else matric number, else e-mail, else "Student"
    ensures var s := Prop(a, "student");
            if Truthy(Prop(s, "fullName")) then row.student == Prop(s, "fullName")
            else if Truthy(Prop(s, "matricNumber")) then row.student == Prop(s, "matricNumber")
            else if Truthy(Prop(s, "email")) then row.student == Prop(s, "email")
            else row.student == Str("Student")
    // the student's id: the embedded student's `_id` or `id`, else `studentId`, else null
    ensures var s := Prop(a, "student");
            if Truthy(Prop(s, "_id")) then row.studentId == Prop(s, "_id")
            else if Truthy(Prop(s, "id")) then row.studentId == Prop(s, "id")
            else if Truthy(Prop(a, "studentId")) then row.studentId == Prop(a, "studentId")
            else row.studentId == Null
    // the room's id: the room details' `_id`, else the room's `_id`, else the room itself, else null
    ensures var d, r := Prop(a, "roomDetails"), Prop(a, "room");
            if Truthy(Prop(d, "_id")) then row.roomId == Prop(d, "_id")
            else if Truthy(Prop(r, "_id")) then row.roomId == Prop(r, "_id")
            else if Truthy(r) then row.roomId == r
            else row.roomId == Null
    ensures var d, r := Prop(a, "roomDetails"), Prop(a, "room");
            Truthy(row.roomId) <==> Truthy(Prop(d, "_id")) || Truthy(Prop(r, "_id")) || Truthy(r)
    // the room's label: the room number from the details or the room, else the room itself, else "-"
    ensures var d, r := Prop(a, "roomDetails"), Prop(a, "room");
            if Truthy(Prop(d, "roomNumber")) then row.room == Prop(d, "roomNumber")
            else if Truthy(Prop(r, "roomNumber")) then row.room == Prop(r, "roomNumber")
            else if Truthy(r) then row.room == r
            else row.room == Str("-")
    ensures Truthy(Prop(a, "status")) ==> row.status == ToJsString(Prop(a, "status"))
    ensures !Truthy(Prop(a, "status")) ==> row.status == ""
  {
    var student := Prop(a, "student");
    var details := Prop(a, "roomDetails");
    var room := Prop(a, "room");
    AllocationRow(
      Or(Prop(a, "id"), Prop(a, "_id")),
      Or(Or(Or(Prop(student, "_id"), Prop(student, "id")), Prop(a, "studentId")), Null),
      Or(Or(Or(Prop(student, "fullName"), Prop(student, "matricNumber")), Prop(student, "email")), Str("Student")),
      Or(Or(Or(Prop(details, "_id"), Prop(room, "_id")), room), Null),
      Or(Or(Or(Prop(details, "roomNumber"), Prop(room, "roomNumber")), room), Str("-")),
      Or(Prop(a, "session"), Str("-")),
      ToJsString(Or(Prop(a, "status"), Str(""))))
  }

  /** The rows of an allocations response body: its `data` array, else none. */
  function RowsOf(body: JsValue): (rows: seq<AllocationRow>)
    ensures |rows| == |ArrayOrEmpty(Prop(body, "data"))|
    ensures forall k :: 0 <= k < |rows| ==> rows[k] == RowOf(ArrayOrEmpty(Prop(body, "data"))[k])
  {
    var list := ArrayOrEmpty(Prop(body, "data"));
    seq(|list|, k requires 0 <= k < |list| => RowOf(list[k]))
  }

  /** A student of the unallocated list; `docId` is the student's `_id`. */
  datatype StudentRow = StudentRow(
    docId: JsValue, id: JsValue, fullName: string, matricNumber: string,
    email: string, allocationStatus: JsValue, status: JsValue)

  /** `s._id || s.id`. */
  function StudentKey(s: StudentRow): JsValue {
    Or(s.docId, s.id)
  }

  // ---------------------------------------------------------------- summary counters

  /** Following a dotted path through own properties of truthy values;
      `undefined` as soon as a step is missing. Only objects have own
      properties here: `hasOwnProperty` on a string or an array also holds
      for `length` and for indices, but no summary key path names either. */
  function Resolve(cur: JsValue, parts: seq<string>): JsValue
    decreases |parts|
  {
    if parts == [] then cur
    else if Truthy(cur) && HasOwn(cur, parts[0]) then Resolve(cur.props[parts[0]], parts[1..])
    else Undefined
  }

  /** The value a dotted key such as `"totals.students"` reaches in `obj`. */
  function ValueAt(obj: JsValue, key: string): JsValue {
    Resolve(obj, Split(key, '.'))
  }

  /** The number found at the first key that reaches one, else 0. */
  function FirstNumber(obj: JsValue, keys: seq<string>): int
    decreases |keys|
  {
    if keys == [] then 0
    else if ValueAt(obj, keys[0]).Num? then ValueAt(obj, keys[0]).n
    else FirstNumber(obj, keys[1..])
  }

  /** The value is that of the first key reaching a number; keys that reach
      a missing or non-numeric value before it are skipped. */
  lemma {:induction false} FirstNumberIsFirstHit(obj: JsValue, keys: seq<string>, i: nat)
    requires i < |keys| && ValueAt(obj, keys[i]).Num?
    requires forall j :: 0 <= j < i ==> !ValueAt(obj, keys[j]).Num?
    ensures FirstNumber(obj, keys) == ValueAt(obj, keys[i]).n
  {
    if i > 0 {
      assert forall j :: 0 <= j < i - 1 ==> keys[1..][j] == keys[j + 1];
      FirstNumberIsFirstHit(obj, keys[1..], i - 1);
    }
  }

  /** When no key reaches a number the counter shows 0. */
  lemma {:induction false} NoHitGivesZero(obj: JsValue, keys: seq<string>)
    requires forall j :: 0 <= j < |keys| ==> !ValueAt(obj, keys[j]).Num?
    ensures FirstNumber(obj, keys) == 0
  {
    if keys != [] {
      assert forall j :: 0 <= j < |keys| - 1 ==> keys[1..][j] == keys[j + 1];
      NoHitGivesZero(obj, keys[1..]);
    }
  }

  /** `pickSummary`: try each key path in turn, walking it with a cursor. */
  method PickSummary(obj: JsValue, keys: seq<string>) returns (r: int)
    ensures r == FirstNumber(obj, keys)
  {
    var i := 0;
    assert keys[0..] == keys;
    while i < |keys|
      invariant 0 <= i <= |keys|
      invariant FirstNumber(obj, keys[i..]) == FirstNumber(obj, keys)
    {
      var parts := Split(keys[i], '.');
      var cur := obj;
      var j := 0;
      assert parts[0..] == parts;
      while j < |parts|
        invariant 0 <= j <= |parts|
        invariant Resolve(cur, parts[j..]) == Resolve(obj, parts)
      {
        assert parts[j..][0] == parts[j] && parts[j..][1..] == parts[j + 1..];
        if Truthy(cur) && HasOwn(cur, parts[j]) {
          cur := cur.props[parts[j]];
          j := j + 1;
        } else {
          cur := Undefined;
          break;
        }
      }
      assert cur == ValueAt(obj, keys[i]);
      assert keys[i..][0] == keys[i] && keys[i..][1..] == keys[i + 1..];
      if cur.Num? {
        return cur.n;
      }
      i := i + 1;
    }
    return 0;
  }

  const StudentKeys: seq<string> :=
    ["totals.students", "counts.students", "stats.students", "students", "studentsCount", "totalStudents"]
  const HostelKeys: seq<string> :=
    ["totals.hostels", "counts.hostels", "stats.hostels", "hostels", "hostelsCount", "totalHostels"]
  const RoomKeys: seq<string> :=
    ["totals.rooms", "counts.rooms", "stats.rooms", "rooms", "roomsCount", "totalRooms"]
  const PendingKeys: seq<string> :=
    ["allocations.pending", "counts.pending", "stats.pending", "pending", "allocationsPending", "pendingAllocations"]

  /** `sumRes?.data?.data ?? sumRes?.data ?? null` for a response body. */
  function SummaryOf(body: JsValue): (r: JsValue)
    ensures Prop(body, "data") != Undefined && Prop(body, "data") != Null ==> r == Prop(body, "data")
    ensures (Prop(body, "data") == Undefined || Prop(body, "data") == Null) ==>
              r == (if body == Undefined || body == Null then Null else body)
    ensures r != Undefined
  {
    Coalesce(Prop(body, "data"), Coalesce(body, Null))
  }

  // ---------------------------------------------------------------- search filters

  /** `v?.toString?.().toLowerCase?.() || ''`. */
  function LowerText(v: JsValue): string {
    if v == Undefined || v == Null then "" else Lower(ToJsString(v))
  }

  predicate MatchesAllocation(q: string, a: AllocationRow) {
    Contains(LowerText(a.student), q) || Contains(LowerText(a.room), q) || Contains(LowerText(a.session), q)
  }

  /** `filteredAllocations`: everything for a blank query, else the rows
      whose student, room or session contains it, in order. */
  function FilteredAllocations(rows: seq<AllocationRow>, search: string): (r: seq<AllocationRow>)
    ensures Lower(Trim(search)) == "" ==> r == rows
    ensures forall a :: a in r <==> a in rows && (Lower(Trim(search)) == "" || MatchesAllocation(Lower(Trim(search)), a))
    ensures IsSubsequence(r, rows)
    ensures Lower(Trim(search)) != "" ==> forall a {:trigger multiset(r)[a]} ::
              multiset(r)[a] == if MatchesAllocation(Lower(Trim(search)), a) then multiset(rows)[a] else 0
  {
    var q := Lower(Trim(search));
    SubsequenceOfItself(rows);
    if q == "" then rows else Filter(rows, a => MatchesAllocation(q, a))
  }

  /** `(s.allocationStatus || s.status || '').toString().toLowerCase()`. */
  function StatusText(s: StudentRow): string {
    Lower(ToJsString(Or(Or(s.allocationStatus, s.status), Str(""))))
  }

  predicate Unallocated(s: StudentRow) {
    StatusText(s) in {"pending", "none", ""}
  }

  predicate MatchesStudent(q: string, s: StudentRow) {
    Contains(Lower(s.fullName), q) || Contains(Lower(s.matricNumber), q) || Contains(Lower(s.email), q)
  }

  /** `filteredUnallocated`: the students with no decided allocation, then
      the name / matric / e-mail search; order is kept. */
  function FilteredUnallocated(students: seq<StudentRow>, search: string): (r: seq<StudentRow>)
    ensures forall s :: s in r <==> s in students && Unallocated(s)
                                    && (Lower(Trim(search)) == "" || MatchesStudent(Lower(Trim(search)), s))
    ensures IsSubsequence(r, students)
  {
    var base := Filter(students, Unallocated);
    var q := Lower(Trim(search));
    if q == "" then base
    else
      var r := Filter(base, s => MatchesStudent(q, s));
      assert r == Filter(students, s => Unallocated(s) && MatchesStudent(q, s)) by {
        FilterTwice(students, Unallocated, s => MatchesStudent(q, s), s => Unallocated(s) && MatchesStudent(q, s));
      }
      r
  }

  /** The rows the table shows for the tab: all on "all", else those whose
      status equals the tab's name ignoring case. */
  function VisibleRows(rows: seq<AllocationRow>, filter: string): (r: seq<AllocationRow>)
    ensures filter == "all" ==> r == rows
    ensures filter != "all" ==> forall a :: a in r <==> a in rows && Lower(a.status) == Lower(filter)
    ensures IsSubsequence(r, rows)
    ensures filter != "all" ==> forall a {:trigger multiset(r)[a]} ::
              multiset(r)[a] == if Lower(a.status) == Lower(filter) then multiset(rows)[a] else 0
  {
    SubsequenceOfItself(rows);
    if filter == "all" then rows else Filter(rows, (a: AllocationRow) => Lower(a.status) == Lower(filter))
  }

  /** `Math.max(0, capacity - occupied)`: the places left shown for a room option. */
  function RoomsLeft(capacity: int, occupied: int): (left: int)
    ensures left >= 0 && left >= capacity - occupied
    ensures left == 0 || left == capacity - occupied
  {
    if capacity - occupied > 0 then capacity - occupied else 0
  }

  // ---------------------------------------------------------------- list updates

  function SetStatus(rows: seq<AllocationRow>, id: JsValue, status: string): (r: seq<AllocationRow>)
    ensures |r| == |rows|
    ensures forall k :: 0 <= k < |r| ==> r[k] == if rows[k].id == id then rows[k].(status := status) else rows[k]
  {
    seq(|rows|, k requires 0 <= k < |rows| => if rows[k].id == id then rows[k].(status := status) else rows[k])
  }

  /** The rows other than those with id `id`, in order. */
  function WithoutRow(rows: seq<AllocationRow>, id: JsValue): (r: seq<AllocationRow>)
    ensures forall a :: a in r <==> a in rows && a.id != id
    ensures IsSubsequence(r, rows)
    ensures forall a {:trigger multiset(r)[a]} :: multiset(r)[a] == if a.id != id then multiset(rows)[a] else 0
  {
    Filter(rows, (a: AllocationRow) => a.id != id)
  }

  /** The table after a decision on row `id`: its status replaced, and on
      the Pending tab the row dropped. */
  function Decide(rows: seq<AllocationRow>, id: JsValue, status: string, filter: string): seq<AllocationRow> {
    var updated := SetStatus(rows, id, status);
    if Lower(filter) == "pending" then WithoutRow(updated, id) else updated
  }

  lemma {:induction false} DropAfterSetStatus(rows: seq<AllocationRow>, id: JsValue, status: string)
    ensures WithoutRow(SetStatus(rows, id, status), id) == WithoutRow(rows, id)
  {
    if rows != [] {
      var u := SetStatus(rows, id, status);
      DropAfterSetStatus(rows[1..], id, status);
      assert u[1..] == SetStatus(rows[1..], id, status);
      assert u[0].id == rows[0].id;
      assert u[0].id != id ==> u[0] == rows[0];
    }
  }

  /** A decision changes only the target: on the Pending tab the target row
      disappears and every other row stays, in order; on any other tab each
      row keeps its place and only rows with that id get the new status. */
  lemma DecideOnlyTarget(rows: seq<AllocationRow>, id: JsValue, status: string, filter: string)
    ensures Lower(filter) == "pending" ==> Decide(rows, id, status, filter) == WithoutRow(rows, id)
    ensures Lower(filter) != "pending" ==>
              |Decide(rows, id, status, filter)| == |rows|
              && forall k :: 0 <= k < |rows| ==>
                   Decide(rows, id, status, filter)[k] == if rows[k].id == id then rows[k].(status := status) else rows[k]
  {
    DropAfterSetStatus(rows, id, status);
  }

  /** The students other than the one with key `key`, in order. */
  function WithoutStudent(students: seq<StudentRow>, key: JsValue): (r: seq<StudentRow>)
    ensures forall s :: s in r <==> s in students && StudentKey(s) != key
    ensures IsSubsequence(r, students)
    ensures forall s {:trigger multiset(r)[s]} ::
              multiset(r)[s] == if StudentKey(s) != key then multiset(students)[s] else 0
  {
    Filter(students, s => StudentKey(s) != key)
  }

  /** The first row with that id (`allocationsData.find`). */
  function FindRow(rows: seq<AllocationRow>, id: JsValue): (r: Option<AllocationRow>)
    ensures r.Some? ==> r.value in rows && r.value.id == id
    ensures r.None? <==> forall a :: a in rows ==> a.id != id
  {
    if rows == [] then None
    else if rows[0].id == id then Some(rows[0])
    else FindRow(rows[1..], id)
  }

  // ---------------------------------------------------------------- the page

  datatype AlertState = AlertState(open: bool, kind: string, message: string)

  /** The approval modal. `allocationId` is `null` when approving a student
      from the unallocated list; `roomId` is the picked option's value. */
  datatype ApproveModal = ApproveModal(
    open: bool, allocationId: JsValue, studentId: JsValue, studentName: JsValue,
    hostelId: string, roomId: string, rooms: seq<JsValue>, hostels: seq<JsValue>, loading: bool)

  const ClosedModal := ApproveModal(false, Null, Null, Str(""), "", "", [], [], false)

  class DashboardPage {
    var allocationsData: seq<AllocationRow>
    var unallocated: seq<StudentRow>
    var filter: string
    var search: string
    var summary: JsValue
    var modal: ApproveModal
    var alert: AlertState

    constructor ()
      ensures allocationsData == [] && unallocated == [] && filter == "Pending" && search == ""
      ensures summary == Null && modal == ClosedModal && !alert.open
    {
      allocationsData := [];
      unallocated := [];
      filter := "Pending";
      search := "";
      summary := Null;
      modal := ClosedModal;
      alert := AlertState(false, "info", "");
    }

    /** The load for the current tab: the summary and the allocations
        response (not requested on the "Unallocated" tab, where the list is
        empty); either failing raises an error alert. */
    method Load(sumRes: ApiResult<JsValue>, allocRes: ApiResult<JsValue>)
      returns (query: Option<map<string, JsValue>>)
      modifies this
      ensures query == AllocationsQuery(filter)
      ensures filter == old(filter) && search == old(search) && unallocated == old(unallocated) && modal == old(modal)
      ensures sumRes.Ok? && (query.None? || allocRes.Ok?) ==>
                summary == SummaryOf(sumRes.value)
                && allocationsData == (if query.None? then [] else RowsOf(allocRes.value))
                && alert == old(alert)
      ensures sumRes.Failed? ==>
                allocationsData == old(allocationsData) && summary == old(summary)
                && alert == AlertState(true, "error", ErrorText(sumRes.message, "Failed to load dashboard data"))
      ensures sumRes.Ok? && query.Some? && allocRes.Failed? ==>
                allocationsData == old(allocationsData) && summary == old(summary)
                && alert == AlertState(true, "error", ErrorText(allocRes.message, "Failed to load dashboard data"))
    {
      query := AllocationsQuery(filter);
      if sumRes.Failed? {
        alert := AlertState(true, "error", ErrorText(sumRes.message, "Failed to load dashboard data"));
        return;
      }
      if query.Some? && allocRes.Failed? {
        alert := AlertState(true, "error", ErrorText(allocRes.message, "Failed to load dashboard data"));
        return;
      }
      summary := SummaryOf(sumRes.value);
      allocationsData := if query.None? then [] else RowsOf(allocRes.value);
    }

    /** `openApproveModal` once the hostels call has returned. A missing
        target row makes the page's own property access fail, which shows
        the hostel-loading alert. */
    method OpenApproveModal(target: Option<AllocationRow>, hostelsRes: ApiResult<JsValue>)
      modifies this
      ensures allocationsData == old(allocationsData) && unallocated == old(unallocated)
      ensures filter == old(filter) && search == old(search) && summary == old(summary)
      ensures hostelsRes.Ok? && target.Some? ==>
                modal == ApproveModal(true, target.value.id, target.value.studentId, target.value.student,
                                      "", "", [], ListOf(hostelsRes.value), false)
                && alert == old(alert)
      ensures hostelsRes.Ok? && target.None? ==>
                modal == old(modal) && alert == AlertState(true, "error", "Failed to load hostels")
      ensures hostelsRes.Failed? ==>
                modal == old(modal)
                && alert == AlertState(true, "error", ErrorText(hostelsRes.message, "Failed to load hostels"))
    {
      match hostelsRes {
        case Failed(message) =>
          alert := AlertState(true, "error", ErrorText(message, "Failed to load hostels"));
        case Ok(body) =>
          if target.None? {
            alert := AlertState(true, "error", "Failed to load hostels");
          } else {
            var t := target.value;
            modal := ApproveModal(true, t.id, t.studentId, t.student, "", "", [], ListOf(body), false);
          }
      }
    }

    /** `handleApprove`: a row that already has a room is approved by a
        status update (the returned request); any other row opens the
        room-assignment modal instead, and no status update is sent. */
    method HandleApprove(id: JsValue, student: string, update: ApiResult<JsValue>, hostelsRes: ApiResult<JsValue>)
      returns (request: Option<(JsValue, string)>)
      modifies this
      ensures request.Some? <==> (var t := FindRow(old(allocationsData), id); t.Some? && Truthy(t.value.roomId))
      ensures request.Some? ==> request.value == (id, "approved")
      ensures unallocated == old(unallocated) && filter == old(filter) && search == old(search)
      ensures request.Some? && update.Ok? ==>
                allocationsData == Decide(old(allocationsData), id, "approved", filter)
                && alert == AlertState(true, "success", "Approved allocation for " + student)
                && modal == old(modal)
      ensures request.Some? && update.Failed? ==>
                allocationsData == old(allocationsData) && modal == old(modal)
                && alert == AlertState(true, "error", ErrorText(update.message, "Failed to approve"))
      ensures summary == old(summary)
      ensures request.None? ==> allocationsData == old(allocationsData)
      ensures request.None? && hostelsRes.Ok? && FindRow(old(allocationsData), id).Some? ==>
                (var t := FindRow(old(allocationsData), id).value;
                 modal == ApproveModal(true, t.id, t.studentId, t.student, "", "", [], ListOf(hostelsRes.value), false))
                && alert == old(alert)
      ensures request.None? && hostelsRes.Ok? && FindRow(old(allocationsData), id).None? ==>
                modal == old(modal) && alert == AlertState(true, "error", "Failed to load hostels")
      ensures request.None? && hostelsRes.Failed? ==>
                modal == old(modal)
                && alert == AlertState(true, "error", ErrorText(hostelsRes.message, "Failed to load hostels"))
    {
      var target := FindRow(allocationsData, id);
      if target.Some? && Truthy(target.value.roomId) {
        request := Some((id, "approved"));
        match update {
          case Ok(_) =>
            allocationsData := Decide(allocationsData, id, "approved", filter);
            alert := AlertState(true, "success", "Approved allocation for " + student);
          case Failed(message) =>
            alert := AlertState(true, "error", ErrorText(message, "Failed to approve"));
        }
      } else {
        request := None;
        OpenApproveModal(target, hostelsRes);
      }
    }

    /** `handleReject`: a status update, then the same list change as approving. */
    method HandleReject(id: JsValue, student: string, update: ApiResult<JsValue>)
      returns (request: (JsValue, string))
      modifies this
      ensures request == (id, "rejected")
      ensures unallocated == old(unallocated) && filter == old(filter) && search == old(search)
      ensures modal == old(modal) && summary == old(summary)
      ensures update.Ok? ==>
                allocationsData == Decide(old(allocationsData), id, "rejected", filter)
                && alert == AlertState(true, "error", "Rejected allocation for " + student)
      ensures update.Failed? ==>
                allocationsData == old(allocationsData)
                && alert == AlertState(true, "error", ErrorText(update.message, "Failed to reject"))
    {
      request := (id, "rejected");
      match update {
        case Ok(_) =>
          allocationsData := Decide(allocationsData, id, "rejected", filter);
          alert := AlertState(true, "error", "Rejected allocation for " + student);
        case Failed(message) =>
          alert := AlertState(true, "error", ErrorText(message, "Failed to reject"));
      }
    }

    /** `handleApproveUnallocated`: the modal for a student with no allocation record. */
    method HandleApproveUnallocated(row: StudentRow, hostelsRes: ApiResult<JsValue>)
      modifies this
      ensures allocationsData == old(allocationsData) && unallocated == old(unallocated)
      ensures filter == old(filter) && search == old(search) && summary == old(summary)
      ensures hostelsRes.Ok? ==>
                modal == ApproveModal(true, Null, StudentKey(row), Str(row.fullName), "", "", [],
                                      ListOf(hostelsRes.value), false)
                && alert == old(alert)
      ensures hostelsRes.Failed? ==>
                modal == old(modal)
                && alert == AlertState(true, "error", ErrorText(hostelsRes.message, "Failed to load hostels"))
    {
      OpenApproveModal(Some(AllocationRow(Null, StudentKey(row), Str(row.fullName), Undefined, Undefined,
                                          Undefined, "")), hostelsRes);
    }

    /** `handleRejectUnallocated`: look up the student's allocation, reject it,
        and drop the student from the list. */
    method HandleRejectUnallocated(row: StudentRow, statusRes: ApiResult<JsValue>, update: ApiResult<JsValue>)
      returns (request: Option<(JsValue, string)>)
      modifies this
      ensures allocationsData == old(allocationsData) && modal == old(modal)
      ensures request.Some? <==> statusRes.Ok? && Truthy(Or(Prop(statusRes.value, "id"), Prop(statusRes.value, "_id")))
      ensures request.Some? ==> request.value == (Or(Prop(statusRes.value, "id"), Prop(statusRes.value, "_id")), "rejected")
      ensures statusRes.Ok? && request.None? ==>
                unallocated == old(unallocated)
                && alert == AlertState(true, "error", "No pending allocation found to reject for this student")
      ensures request.Some? && update.Ok? ==>
                unallocated == WithoutStudent(old(unallocated), StudentKey(row))
      ensures request.None? || update.Failed? ==> unallocated == old(unallocated)
      ensures statusRes.Failed? ==>
                alert == AlertState(true, "error", ErrorText(statusRes.message, "Failed to reject allocation"))
      ensures request.Some? && update.Ok? ==>
                alert == AlertState(true, "success", "Rejected allocation for " + row.fullName)
      ensures request.Some? && update.Failed? ==>
                alert == AlertState(true, "error", ErrorText(update.message, "Failed to reject allocation"))
      ensures filter == old(filter) && search == old(search) && summary == old(summary)
    {
      request := None;
      var sid := StudentKey(row);
      match statusRes {
        case Failed(message) =>
          alert := AlertState(true, "error", ErrorText(message, "Failed to reject allocation"));
        case Ok(body) =>
          var aid := Or(Or(Prop(body, "id"), Prop(body, "_id")), Null);
          if !Truthy(aid) {
            alert := AlertState(true, "error", "No pending allocation found to reject for this student");
          } else {
            request := Some((aid, "rejected"));
            match update {
              case Ok(_) =>
                unallocated := WithoutStudent(unallocated, sid);
                alert := AlertState(true, "success", "Rejected allocation for " + row.fullName);
              case Failed(message) =>
                alert := AlertState(true, "error", ErrorText(message, "Failed to reject allocation"));
            }
          }
      }
    }

    /** `submitApproval`: refuses without a student and a room; on success
        drops the pending row with that allocation id, drops the student
        from the unallocated list only when there was no allocation id, and
        closes the modal. `request` is the allocation created. */
    method SubmitApproval(create: ApiResult<JsValue>) returns (request: Option<(JsValue, string)>)
      modifies this
      ensures request.Some? <==> Truthy(old(modal).studentId) && old(modal).roomId != ""
      ensures request.Some? ==> request.value == (old(modal).studentId, old(modal).roomId)
      ensures request.None? ==>
                allocationsData == old(allocationsData) && unallocated == old(unallocated) && modal == old(modal)
                && alert == AlertState(true, "error", "Select a hostel and room to approve")
      ensures request.Some? && create.Ok? ==>
                allocationsData == WithoutRow(old(allocationsData), old(modal).allocationId)
                && unallocated == (if Truthy(old(modal).allocationId) then old(unallocated)
                                   else WithoutStudent(old(unallocated), old(modal).studentId))
                && modal == ClosedModal
                && alert == AlertState(true, "success", "Allocation approved")
      ensures request.Some? && create.Failed? ==>
                allocationsData == old(allocationsData) && unallocated == old(unallocated)
                && modal == old(modal).(loading := false)
                && alert == AlertState(true, "error", ErrorText(create.message, "Failed to approve allocation"))
      ensures filter == old(filter) && search == old(search) && summary == old(summary)
    {
      var allocationId := modal.allocationId;
      var studentId := modal.studentId;
      var roomId := modal.roomId;
      if !Truthy(studentId) || roomId == "" {
        alert := AlertState(true, "error", "Select a hostel and room to approve");
        return None;
      }
      modal := modal.(loading := true);
      request := Some((studentId, roomId));
      match create {
        case Ok(_) =>
          allocationsData := WithoutRow(allocationsData, allocationId);
          if !Truthy(allocationId) && Truthy(studentId) {
            unallocated := WithoutStudent(unallocated, studentId);
          }
          modal := ClosedModal;
          alert := AlertState(true, "success", "Allocation approved");
        case Failed(message) =>
          modal := modal.(loading := false);
          alert := AlertState(true, "error", ErrorText(message, "Failed to approve allocation"));
      }
    }
  }
}
