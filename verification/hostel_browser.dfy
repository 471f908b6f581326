/** The public hostel page: the rooms of the chosen hostel, narrowed by the
    status selector and the search box, and the card and button shown for
    each room. */
module HostelBrowser {
  import opened Outcomes
  import opened Seqs
  import opened Text
  import opened JsValues
  import opened RoomAvailability

  /** The status selector: "available" keeps rooms with space, "full" keeps
      rooms at capacity, any other value keeps every room. */
  predicate StatusMatches(filter: string, r: Room) {
    if filter == "available" then r.occupied < r.capacity
    else if filter == "full" then r.occupied == r.capacity
    else true
  }

  /** The search box: the room number or type contains the term, ignoring case. */
  predicate SearchMatches(term: string, r: Room) {
    Contains(Lower(r.number), Lower(term)) || Contains(Lower(r.roomType), Lower(term))
  }

  /** `filteredRooms`: the status filter, then the search, keeping order. */
  function FilteredRooms(rooms: seq<Room>, filter: string, term: string): (r: seq<Room>)
    ensures forall x :: x in r <==> x in rooms && StatusMatches(filter, x) && SearchMatches(term, x)
    ensures filter == "available" ==> forall x :: x in r ==> x.occupied < x.capacity
    ensures filter == "full" ==> forall x :: x in r ==> x.occupied == x.capacity
    ensures IsSubsequence(r, rooms)
  {
    var byStatus := Filter(rooms, x => StatusMatches(filter, x));
    var r := Filter(byStatus, x => SearchMatches(term, x));
    FilterTwice(rooms, x => StatusMatches(filter, x), x => SearchMatches(term, x),
                x => StatusMatches(filter, x) && SearchMatches(term, x));
    r
  }

  /** An empty search term matches every room. */
  lemma EmptyTermMatches(r: Room)
    ensures SearchMatches("", r)
  {
    assert Lower("") == "";
  }

  /** With no search term, "available" lists exactly what the availability
      widget lists, and a selector value other than "available" or "full"
      lists every room. */
  lemma UnsearchedFilters(rooms: seq<Room>, filter: string)
    ensures filter == "available" ==> FilteredRooms(rooms, filter, "") == AvailableRooms(rooms)
    ensures filter != "available" && filter != "full" ==> FilteredRooms(rooms, filter, "") == rooms
  {
    forall x ensures SearchMatches("", x) {
      EmptyTermMatches(x);
    }
    var byStatus := Filter(rooms, x => StatusMatches(filter, x));
    assert Filter(byStatus, x => SearchMatches("", x)) == byStatus;
    if filter == "available" {
      FilterSame(rooms, x => StatusMatches(filter, x), HasSpace);
    } else if filter != "full" {
      assert byStatus == rooms;
    }
  }

  /** The class of a room card: "full" exactly at capacity. */
  function CardClass(r: Room): (c: string)
    ensures c == "room-card full" <==> r.occupied == r.capacity
    ensures c == "room-card full" || c == "room-card available"
  {
    "room-card " + (if r.occupied == r.capacity then "full" else "available")
  }

  /** The select button is shown exactly for rooms with space, so never on a
      card classed "full". */
  predicate ShowsSelect(r: Room)
    ensures ShowsSelect(r) <==> HasSpace(r)
    ensures ShowsSelect(r) ==> CardClass(r) == "room-card available"
  {
    r.occupied < r.capacity
  }

  datatype RoomsFetch = RoomsFetch(rooms: seq<JsValue>, error: Option<string>)

  /** `fetchRooms`: the `data` array of the response, else no rooms; a
      failed call yields no rooms and an error text. */
  function FetchRooms(response: ApiResult<JsValue>): (f: RoomsFetch)
    ensures response.Ok? && Prop(response.value, "data").Arr? ==>
              f.rooms == Prop(response.value, "data").items && f.error == None
    ensures response.Ok? && !Prop(response.value, "data").Arr? ==> f.rooms == [] && f.error == None
    ensures response.Failed? ==> f.rooms == [] && f.error == Some(ErrorText(response.message, "Error loading rooms"))
  {
    match response
    case Ok(body) => RoomsFetch(ArrayOrEmpty(Prop(body, "data")), None)
    case Failed(message) => RoomsFetch([], Some(ErrorText(message, "Error loading rooms")))
  }
}
