/** The administrator's complaints page: the complaints of one student, the
    student search behind the picker, resolving a complaint (which drops it
    from the list) and answering one (which clears its draft). */
module AdminComplaints {
  import opened Outcomes
  import opened Seqs
  import opened Text
  import opened JsValues

  /** The complaints of a response: its `items` array, else its `data`
      array, else the body when it is an array, else none. */
  function ComplaintItems(body: JsValue): (items: seq<JsValue>)
    ensures Prop(body, "items").Arr? ==> items == Prop(body, "items").items
    ensures !Prop(body, "items").Arr? && Prop(body, "data").Arr? ==> items == Prop(body, "data").items
    ensures !Prop(body, "items").Arr? && !Prop(body, "data").Arr? && body.Arr? ==> items == body.items
    ensures !Prop(body, "items").Arr? && !Prop(body, "data").Arr? && !body.Arr? ==> items == []
  {
    var candidates := [Prop(body, "items"), Prop(body, "data"), body];
    assert candidates[0] == Prop(body, "items") && candidates[1] == Prop(body, "data") && candidates[2] == body;
    FirstArray(candidates)
  }

  // ---------------------------------------------------------------- student search

  /** The search runs only for a query of two characters or more. */
  predicate ShouldSearch(query: string) {
    query != "" && |query| >= 2
  }

  datatype StudentOption = StudentOption(id: JsValue, display: string)

  /** `` `${s.fullName} (${s.matricNumber || s.email})` ``: the name, then the
      matric number (or, without one, the e-mail) in parentheses. */
  function OptionLabel(s: JsValue): (caption: string)
    ensures ToJsString(Prop(s, "fullName")) + " (" <= caption
    ensures |caption| >= 3 && caption[|caption| - 1] == ')'
    ensures Truthy(Prop(s, "matricNumber")) ==>
              caption == ToJsString(Prop(s, "fullName")) + " (" + ToJsString(Prop(s, "matricNumber")) + ")"
    ensures !Truthy(Prop(s, "matricNumber")) ==>
              caption == ToJsString(Prop(s, "fullName")) + " (" + ToJsString(Prop(s, "email")) + ")"
  {
    var name := ToJsString(Prop(s, "fullName"));
    var tag := ToJsString(Or(Prop(s, "matricNumber"), Prop(s, "email")));
    var caption := name + " (" + tag + ")";
    assert (name + " (") <= caption by {
      assert caption[..|name| + 2] == name + " (";
    }
    caption
  }

  /** The picker's options for a search response: its `items` array, else
      its `data` array, one option per student in order. */
  function StudentOptions(body: JsValue): (options: seq<StudentOption>)
    ensures Prop(body, "items").Arr? ==> |options| == |Prop(body, "items").items|
    ensures !Prop(body, "items").Arr? && Prop(body, "data").Arr? ==> |options| == |Prop(body, "data").items|
    ensures !Prop(body, "items").Arr? && !Prop(body, "data").Arr? ==> options == []
    ensures forall k :: 0 <= k < |options| ==>
              var s := FirstArray([Prop(body, "items"), Prop(body, "data")])[k];
              options[k] == StudentOption(Or(Prop(s, "id"), Prop(s, "_id")), OptionLabel(s))
  {
    var candidates := [Prop(body, "items"), Prop(body, "data")];
    assert candidates[0] == Prop(body, "items") && candidates[1] == Prop(body, "data");
    var students := FirstArray(candidates);
    seq(|students|, k requires 0 <= k < |students| =>
      StudentOption(Or(Prop(students[k], "id"), Prop(students[k], "_id")), OptionLabel(students[k])))
  }

  // ---------------------------------------------------------------- resolving

  /** `c._id || c.id`. */
  function ComplaintKey(c: JsValue): JsValue {
    Or(Prop(c, "_id"), Prop(c, "id"))
  }

  /** A complaint other than the one with key `id`. */
  predicate OtherComplaint(c: JsValue, id: JsValue) {
    ComplaintKey(c) != id
  }

  /** `prev.filter(c => (c._id || c.id) !== complaintId)`: the other
      complaints, in their order. */
  function WithoutComplaint(items: seq<JsValue>, id: JsValue): (rest: seq<JsValue>)
    ensures forall c :: c in rest <==> c in items && OtherComplaint(c, id)
    ensures IsSubsequence(rest, items)
    ensures (forall c :: c in items ==> OtherComplaint(c, id)) ==> rest == items
    ensures forall c {:trigger multiset(rest)[c]} ::
              multiset(rest)[c] == if OtherComplaint(c, id) then multiset(items)[c] else 0
  {
    Filter(items, (c: JsValue) => OtherComplaint(c, id))
  }

  /** Complaints with distinct keys: resolving one that is listed removes
      exactly one item. */
  lemma {:induction false} ResolveRemovesOne(items: seq<JsValue>, id: JsValue)
    requires forall i, j :: 0 <= i < j < |items| ==> ComplaintKey(items[i]) != ComplaintKey(items[j])
    requires exists i :: 0 <= i < |items| && ComplaintKey(items[i]) == id
    ensures |WithoutComplaint(items, id)| == |items| - 1
  {
    var rest := items[1..];
    assert forall j :: 0 <= j < |rest| ==> rest[j] == items[j + 1];
    if ComplaintKey(items[0]) == id {
      assert WithoutComplaint(items, id) == WithoutComplaint(rest, id);
      forall c | c in rest
        ensures OtherComplaint(c, id)
      {
        var j :| 0 <= j < |rest| && rest[j] == c;
        assert ComplaintKey(items[0]) != ComplaintKey(items[j + 1]);
      }
    } else {
      assert WithoutComplaint(items, id) == [items[0]] + WithoutComplaint(rest, id);
      var i :| 0 <= i < |items| && ComplaintKey(items[i]) == id;
      assert ComplaintKey(rest[i - 1]) == id;
      ResolveRemovesOne(rest, id);
    }
  }

  // ---------------------------------------------------------------- the page

  class ComplaintsPage {
    var items: seq<JsValue>
    var loading: bool
    var error: Option<string>
    var studentId: JsValue
    var query: string
    var options: seq<StudentOption>
    var responseDraft: map<JsValue, string>

    constructor ()
      ensures items == [] && !loading && error == None && studentId == Str("") && query == ""
      ensures options == [] && responseDraft == map[]
    {
      items := [];
      loading := false;
      error := None;
      studentId := Str("");
      query := "";
      options := [];
      responseDraft := map[];
    }

    /** `fetchComplaints`: nothing happens without a student id; otherwise
        the list becomes the response's complaints, or the error is shown. */
    method FetchComplaints(sid: JsValue, response: ApiResult<JsValue>)
      modifies this
      ensures !Truthy(sid) ==>
                items == old(items) && loading == old(loading) && error == old(error)
      ensures Truthy(sid) && response.Ok? ==>
                items == ComplaintItems(response.value) && !loading && error == None
      ensures Truthy(sid) && response.Failed? ==>
                items == old(items) && !loading
                && error == Some(ErrorText(response.message, "Error loading complaints"))
      ensures studentId == old(studentId) && query == old(query) && options == old(options)
      ensures responseDraft == old(responseDraft)
    {
      if !Truthy(sid) {
        return;
      }
      loading := true;
      error := None;
      match response {
        case Ok(body) =>
          items := ComplaintItems(body);
        case Failed(message) =>
          error := Some(ErrorText(message, "Error loading complaints"));
      }
      loading := false;
    }

    /** The debounced search: a query shorter than two characters clears the
        options and asks nothing; otherwise the students found become the
        options, and a failed search changes nothing. */
    method Search(response: ApiResult<JsValue>) returns (asked: bool)
      modifies this
      ensures asked <==> ShouldSearch(query)
      ensures !asked ==> options == []
      ensures asked && response.Ok? ==> options == StudentOptions(response.value)
      ensures asked && response.Failed? ==> options == old(options)
      ensures items == old(items) && studentId == old(studentId) && query == old(query)
      ensures error == old(error) && responseDraft == old(responseDraft)
    {
      if query == "" || |query| < 2 {
        options := [];
        return false;
      }
      asked := true;
      match response {
        case Ok(body) =>
          options := StudentOptions(body);
        case Failed(_) =>
      }
    }

    /** Picking an option selects that student, shows the label in the search
        box and closes the list. */
    method SelectOption(option: StudentOption)
      modifies this
      ensures studentId == option.id && query == option.display && options == []
      ensures items == old(items) && error == old(error) && responseDraft == old(responseDraft)
    {
      studentId := option.id;
      query := option.display;
      options := [];
    }

    /** `handleResolve`: on success the complaint leaves the list and the
        rest keep their order. */
    method HandleResolve(complaintId: JsValue, response: ApiResult<JsValue>)
      modifies this
      ensures response.Ok? ==> items == WithoutComplaint(old(items), complaintId) && error == old(error)
      ensures response.Failed? ==>
                items == old(items) && error == Some(ErrorText(response.message, "Failed to resolve complaint"))
      ensures studentId == old(studentId) && responseDraft == old(responseDraft) && options == old(options)
    {
      match response {
        case Ok(_) =>
          items := WithoutComplaint(items, complaintId);
        case Failed(message) =>
          error := Some(ErrorText(message, "Failed to resolve complaint"));
      }
    }

    /** `handleRespond`: a missing or blank draft is refused with no request;
        otherwise the draft is sent, and on success only that complaint's
        draft is cleared and the student's complaints are fetched again. */
    method HandleRespond(complaintId: JsValue, response: ApiResult<JsValue>, refreshed: ApiResult<JsValue>)
      returns (request: Option<(JsValue, string)>)
      modifies this
      ensures request.Some? <==> complaintId in old(responseDraft) && Trim(old(responseDraft)[complaintId]) != ""
      ensures request.None? ==>
                error == Some("Please enter a response")
                && items == old(items) && responseDraft == old(responseDraft)
      ensures request.Some? ==> request.value == (complaintId, old(responseDraft)[complaintId])
      ensures request.Some? && response.Ok? ==>
                responseDraft == old(responseDraft)[complaintId := ""]
                && (Truthy(studentId) && refreshed.Ok? ==>
                      items == ComplaintItems(refreshed.value) && error == None && !loading)
                && (Truthy(studentId) && refreshed.Failed? ==>
                      items == old(items) && !loading
                      && error == Some(ErrorText(refreshed.message, "Error loading complaints")))
                && (!Truthy(studentId) ==> items == old(items) && error == old(error))
      ensures request.Some? && response.Failed? ==>
                responseDraft == old(responseDraft) && items == old(items)
                && error == Some(ErrorText(response.message, "Failed to add response"))
      ensures forall k :: k != complaintId ==>
                (k in responseDraft <==> k in old(responseDraft))
                && (k in responseDraft ==> responseDraft[k] == old(responseDraft)[k])
      ensures studentId == old(studentId) && query == old(query) && options == old(options)
    {
      if complaintId !in responseDraft || Trim(responseDraft[complaintId]) == "" {
        error := Some("Please enter a response");
        return None;
      }
      var text := responseDraft[complaintId];
      request := Some((complaintId, text));
      match response {
        case Ok(_) =>
          ClearDraftAndRefresh(complaintId, refreshed);
        case Failed(message) =>
          error := Some(ErrorText(message, "Failed to add response"));
      }
    }

    /** After an answer is accepted: that complaint's draft is emptied and,
        when a student is selected, that student's complaints are fetched
        again. */
    method ClearDraftAndRefresh(complaintId: JsValue, refreshed: ApiResult<JsValue>)
      modifies this
      ensures responseDraft == old(responseDraft)[complaintId := ""]
      ensures Truthy(studentId) && refreshed.Ok? ==>
                items == ComplaintItems(refreshed.value) && error == None && !loading
      ensures Truthy(studentId) && refreshed.Failed? ==>
                items == old(items) && !loading
                && error == Some(ErrorText(refreshed.message, "Error loading complaints"))
      ensures !Truthy(studentId) ==> items == old(items) && error == old(error) && loading == old(loading)
      ensures studentId == old(studentId) && query == old(query) && options == old(options)
    {
      responseDraft := responseDraft[complaintId := ""];
      if Truthy(studentId) {
        FetchComplaints(studentId, refreshed);
      }
    }
  }
}
