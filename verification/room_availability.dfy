/** The room-availability widget: which rooms are listed as open, and the
    floor, free places and status badge shown on each card. The student
    application pages and the hostel browser apply the same "has space"
    predicate with filters of their own. */
module RoomAvailability {
  import opened Outcomes
  import opened Seqs
  import opened Text
  import opened JsValues

  /** A room as the pages display it. `number` is the room's label
      (`roomNumber || number` where a page accepts both). */
  datatype Room = Room(id: JsValue, number: string, roomType: string, capacity: int, occupied: int)

  /** A room with at least one free place. */
  predicate HasSpace(r: Room) {
    r.occupied < r.capacity
  }

  /** `rooms.filter(room => room.occupied < room.capacity)`: the rooms with
      space, in their original order, each with at least one free place. */
  function AvailableRooms(rooms: seq<Room>): (r: seq<Room>)
    ensures forall x :: x in r <==> x in rooms && x.occupied < x.capacity
    ensures forall x :: x in r ==> x.capacity - x.occupied >= 1
    ensures IsSubsequence(r, rooms)
    ensures (forall x :: x in rooms ==> x.occupied < x.capacity) ==> r == rooms
    ensures forall x {:trigger multiset(r)[x]} :: multiset(r)[x] == if HasSpace(x) then multiset(rooms)[x] else 0
  {
    Filter(rooms, HasSpace)
  }

  /** `Math.ceil(n / 10)`: the unique `f` with `10 * (f - 1) < n <= 10 * f`. */
  function CeilTenth(n: int): (f: int)
    ensures 10 * (f - 1) < n <= 10 * f
    ensures n >= 1 ==> f >= 1
  {
    (n + 9) / 10
  }

  /** `Math.ceil(parseInt(number.replace(/[^0-9]/g, '')) / 10)`: the floor
      read from the digits of the room number; `None` (`NaN`) when the number
      has no digit at all. */
  function FloorFromNumber(number: string): (f: Option<int>)
    ensures f.None? <==> forall i :: 0 <= i < |number| ==> !IsDigit(number[i])
    ensures f.Some? ==> 10 * (f.value - 1) < DigitsValue(StripNonDigits(number)) <= 10 * f.value
  {
    var digits := StripNonDigits(number);
    match ParseInt(digits)
    case None => None
    case Some(n) => Some(CeilTenth(n))
  }

  /** `room.capacity - room.occupied`. */
  function FreePlaces(r: Room): int {
    r.capacity - r.occupied
  }

  /** The badge: "Full" exactly when the room is at capacity. */
  function StatusLabel(r: Room): (badge: string)
    ensures badge == "Full" <==> r.occupied == r.capacity
    ensures badge == "Full" || badge == "Available"
  {
    if r.occupied == r.capacity then "Full" else "Available"
  }

  /** What one card of the widget shows. */
  datatype RoomCard = RoomCard(number: string, roomType: string, floor: Option<int>,
                               capacity: int, freePlaces: int, status: string)

  function CardFor(r: Room): RoomCard {
    RoomCard(r.number, r.roomType, FloorFromNumber(r.number), r.capacity, FreePlaces(r), StatusLabel(r))
  }

  /** The cards the widget renders: one per room with space, in order; every
      card offers at least one place and is badged "Available". */
  function RenderedCards(rooms: seq<Room>): (cards: seq<RoomCard>)
    ensures |cards| == |AvailableRooms(rooms)|
    ensures forall k :: 0 <= k < |cards| ==> cards[k] == CardFor(AvailableRooms(rooms)[k])
    ensures forall c :: c in cards ==> c.freePlaces >= 1 && c.status == "Available"
  {
    var shown := AvailableRooms(rooms);
    assert forall k :: 0 <= k < |shown| ==> shown[k] in shown;
    seq(|shown|, k requires 0 <= k < |shown| => CardFor(shown[k]))
  }

  /** What mounting the widget produces: its cards, or the `TypeError` of
      `rooms.filter` when the `rooms` prop is absent; no error boundary
      catches it, so the page stops rendering. */
  datatype Rendering = Cards(cards: seq<RoomCard>) | TypeError

  /** The widget mounted with props `{ rooms }`; `None` is a missing prop. */
  function RenderWidget(rooms: Option<seq<Room>>): (out: Rendering)
    ensures out.TypeError? <==> rooms.None?
    ensures rooms.Some? ==> out.cards == RenderedCards(rooms.value)
  {
    match rooms
    case None => TypeError
    case Some(rs) => Cards(RenderedCards(rs))
  }

  /** The widget as both application pages mount it on each available-room
      card, with props `occupied` and `capacity`: the component reads only
      `rooms`, which is then absent, so every mount throws, whatever the
      card's room. */
  function MountedAsWritten(room: Room): (out: Rendering)
    ensures out == TypeError
  {
    RenderWidget(None)
  }

  /** The widget given the card's own room as its list: it renders, and for
      a room with space shows exactly that room's card, badged "Available"
      with at least one free place. */
  function MountedForRoom(room: Room): (out: Rendering)
    ensures out.Cards?
    ensures HasSpace(room) ==> out.cards == [CardFor(room)]
    ensures HasSpace(room) ==> out.cards[0].freePlaces >= 1 && out.cards[0].status == "Available"
    ensures !HasSpace(room) ==> out.cards == []
  {
    assert AvailableRooms([room]) == if HasSpace(room) then [room] else [] by {
      assert [room][1..] == [];
    }
    RenderWidget(Some([room]))
  }

  /** The pages mount the widget only on rooms that passed the "has space"
      filter, so with the room passed in every card renders the room's own
      card instead of throwing. */
  lemma MountedCardsRender(rooms: seq<Room>)
    ensures forall r :: r in AvailableRooms(rooms) ==>
              MountedForRoom(r).Cards? && MountedForRoom(r).cards == [CardFor(r)]
    ensures forall r :: r in AvailableRooms(rooms) ==> MountedAsWritten(r) == TypeError
  {
  }
}
