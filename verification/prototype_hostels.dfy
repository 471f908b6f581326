/** The prototype hostel page: four blocks held in page state, the rooms
    generated for a block by index arithmetic (with a random occupancy), and
    the "add room" action that appends the next room and bumps the block's
    counters. */
module PrototypeHostels {
  import opened Outcomes
  import opened Text
  import opened RoomAvailability

  datatype ProtoHostel = ProtoHostel(
    id: int, name: string, description: string, totalRooms: int,
    occupiedRooms: int, availableRooms: int, maintenanceRooms: int, image: string)

  datatype ProtoRoom = ProtoRoom(
    id: int, number: string, capacity: int, occupied: int, roomType: string, floor: int)

  /** The page's initial blocks. */
  const InitialHostels: seq<ProtoHostel> := [
    ProtoHostel(1, "Block A", "Male Hostel", 50, 35, 15, 3, "/assets/images/hostel1.jpg"),
    ProtoHostel(2, "Block B", "Female Hostel", 45, 30, 15, 2, "/assets/images/hostel2.jpg"),
    ProtoHostel(3, "Block C", "Postgraduate Block", 30, 20, 10, 1, "/assets/images/hostel3.jpg"),
    ProtoHostel(4, "Block D", "International Students", 25, 15, 10, 1, "/assets/images/hostel4.jpg")
  ]

  /** Every room of a block is either occupied or available. */
  predicate CountsAdd(h: ProtoHostel) {
    h.totalRooms == h.occupiedRooms + h.availableRooms
  }

  lemma InitialCountsAdd()
    ensures forall h :: h in InitialHostels ==> CountsAdd(h) && h.totalRooms >= 0
  {
  }

  /** `hostels.find(h => h.id === id)`. */
  function FindProto(hostels: seq<ProtoHostel>, id: int): (r: Option<ProtoHostel>)
    ensures r.None? <==> forall h :: h in hostels ==> h.id != id
    ensures r.Some? ==> r.value in hostels && r.value.id == id
  {
    if hostels == [] then None
    else if hostels[0].id == id then Some(hostels[0])
    else
      var r := FindProto(hostels[1..], id);
      assert forall h :: h in hostels[1..] ==> h in hostels;
      r
  }

  /** `` `${hostelId}${i.toString().padStart(2, '0')}` ``. */
  function RoomNumber(hostelId: int, i: int): string {
    IntToString(hostelId) + PadStart(IntToString(i), 2, '0')
  }

  /** A room number is the block id followed by at least two digits whose
      value is the room's index. */
  lemma RoomNumberLayout(hostelId: int, i: int)
    requires i >= 0
    ensures |RoomNumber(hostelId, i)| >= |IntToString(hostelId)| + 2
    ensures RoomNumber(hostelId, i)[..|IntToString(hostelId)|] == IntToString(hostelId)
    ensures AllDigits(RoomNumber(hostelId, i)[|IntToString(hostelId)|..])
    ensures DigitsValue(RoomNumber(hostelId, i)[|IntToString(hostelId)|..]) == i
  {
    var prefix := IntToString(hostelId);
    var number := RoomNumber(hostelId, i);
    assert number[..|prefix|] == prefix;
    assert number[|prefix|..] == PadStart(Decimal(i), 2, '0');
    PaddedDecimalValue(i, 2);
  }

  /** Rooms of one block with different indices get different numbers. */
  lemma RoomNumbersDistinct(hostelId: int, i: int, j: int)
    requires i >= 0 && j >= 0 && i != j
    ensures RoomNumber(hostelId, i) != RoomNumber(hostelId, j)
  {
    var p := |IntToString(hostelId)|;
    RoomNumberLayout(hostelId, i);
    RoomNumberLayout(hostelId, j);
    assert DigitsValue(RoomNumber(hostelId, i)[p..]) != DigitsValue(RoomNumber(hostelId, j)[p..]);
  }

  /** Rooms whose index is a multiple of 3 are doubles, the rest hold four. */
  function CapacityFor(i: int): (c: int)
    ensures c == 2 <==> i % 3 == 0
    ensures c == 2 || c == 4
  {
    if i % 3 == 0 then 2 else 4
  }

  /** Every fifth room is "Premium", the rest "Standard". */
  function TypeFor(i: int): (t: string)
    ensures t == "Premium" <==> i % 5 == 0
    ensures t == "Premium" || t == "Standard"
  {
    if i % 5 == 0 then "Premium" else "Standard"
  }

  /** Room `i` of block `hostelId` as generated, with the occupancy drawn. */
  predicate IsGeneratedRoom(r: ProtoRoom, hostelId: int, i: int) {
    r.id == i && r.number == RoomNumber(hostelId, i) && r.capacity == CapacityFor(i)
    && r.roomType == TypeFor(i) && r.floor == CeilTenth(i)
    && 0 <= r.occupied <= r.capacity
  }

  /** The room object pushed for index `i`; `Math.random()` is modelled by
      choosing any occupancy from 0 to the capacity. */
  method DrawRoom(hostelId: int, i: int) returns (room: ProtoRoom)
    ensures IsGeneratedRoom(room, hostelId, i)
  {
    var capacity := if i % 3 == 0 then 2 else 4;
    var occupied :| 0 <= occupied <= capacity;
    room := ProtoRoom(i, RoomNumber(hostelId, i), capacity, occupied,
                      if i % 5 == 0 then "Premium" else "Standard", CeilTenth(i));
  }

  /** Pushing the room for the next index keeps the list laid out by index. */
  lemma GeneratedPush(rooms: seq<ProtoRoom>, room: ProtoRoom, hostelId: int)
    requires forall k :: 0 <= k < |rooms| ==> IsGeneratedRoom(rooms[k], hostelId, k + 1)
    requires IsGeneratedRoom(room, hostelId, |rooms| + 1)
    ensures forall k :: 0 <= k < |rooms + [room]| ==> IsGeneratedRoom((rooms + [room])[k], hostelId, k + 1)
  {
    forall k | 0 <= k < |rooms + [room]|
      ensures IsGeneratedRoom((rooms + [room])[k], hostelId, k + 1)
    {
      if k < |rooms| {
        assert (rooms + [room])[k] == rooms[k];
      }
    }
  }

  /** `generateRooms`: nothing for an unknown block; otherwise rooms
      1..totalRooms in order, each laid out by its index, with an occupancy
      somewhere between empty and full (`Math.floor(Math.random() * (c + 1))`
      is modelled as any such value). Room `k` is numbered by its index, so
      by `RoomNumbersDistinct` no two share a number. */
  method GenerateRooms(hostels: seq<ProtoHostel>, hostelId: int) returns (rooms: seq<ProtoRoom>)
    ensures FindProto(hostels, hostelId).None? ==> rooms == []
    ensures FindProto(hostels, hostelId).Some? ==>
              |rooms| == if FindProto(hostels, hostelId).value.totalRooms >= 0
                         then FindProto(hostels, hostelId).value.totalRooms else 0
    ensures forall k :: 0 <= k < |rooms| ==> IsGeneratedRoom(rooms[k], hostelId, k + 1)
  {
    var hostel := FindProto(hostels, hostelId);
    if hostel.None? {
      return [];
    }
    var totalRooms := hostel.value.totalRooms;
    rooms := [];
    var i := 1;
    while i <= totalRooms
      invariant 1 <= i <= if totalRooms >= 0 then totalRooms + 1 else 1
      invariant |rooms| == i - 1
      invariant forall k :: 0 <= k < |rooms| ==> IsGeneratedRoom(rooms[k], hostelId, k + 1)
    {
      var room := DrawRoom(hostelId, i);
      GeneratedPush(rooms, room, hostelId);
      rooms := rooms + [room];
      i := i + 1;
    }
  }

  /** One block after a room is added to block `id`: the block with that id
      gains one room and one available room, any other block is kept. */
  function BumpOne(h: ProtoHostel, id: int): (b: ProtoHostel)
    ensures h.id != id ==> b == h
    ensures h.id == id ==> b == h.(totalRooms := h.totalRooms + 1, availableRooms := h.availableRooms + 1)
  {
    if h.id == id then h.(totalRooms := h.totalRooms + 1, availableRooms := h.availableRooms + 1) else h
  }

  /** `prevHostels.map(...)` in `handleAddRoom`: every block passed through
      `BumpOne`, in order. */
  function BumpHostel(hostels: seq<ProtoHostel>, id: int): (r: seq<ProtoHostel>)
    ensures |r| == |hostels|
    ensures forall k :: 0 <= k < |r| ==> r[k] == BumpOne(hostels[k], id)
  {
    seq(|hostels|, k requires 0 <= k < |hostels| => BumpOne(hostels[k], id))
  }

  /** Adding a room keeps every block's counts adding up. */
  lemma BumpHostelKeepsCounts(hostels: seq<ProtoHostel>, id: int)
    requires forall h :: h in hostels ==> CountsAdd(h)
    ensures forall h :: h in BumpHostel(hostels, id) ==> CountsAdd(h)
  {
    var r := BumpHostel(hostels, id);
    forall h | h in r
      ensures CountsAdd(h)
    {
      var k :| 0 <= k < |r| && r[k] == h;
      assert hostels[k] in hostels;
    }
  }

  /** The block found under `id` after a room is added is the old one with
      one more room and the same number of occupied rooms; with no such
      block nothing changes. */
  lemma {:induction false} BumpHostelFind(hostels: seq<ProtoHostel>, id: int)
    ensures FindProto(hostels, id).None? ==> BumpHostel(hostels, id) == hostels
    ensures FindProto(hostels, id).Some? ==>
              FindProto(BumpHostel(hostels, id), id) == Some(BumpOne(FindProto(hostels, id).value, id))
    decreases |hostels|
  {
    if hostels != [] {
      var r := BumpHostel(hostels, id);
      var rest := BumpHostel(hostels[1..], id);
      BumpHostelSplit(hostels, id);
      assert r[1..] == rest;
      if hostels[0].id == id {
        assert r[0] == BumpOne(hostels[0], id) && r[0].id == id;
      } else {
        assert r[0] == hostels[0];
        BumpHostelFind(hostels[1..], id);
        if FindProto(hostels, id).None? {
          assert r == [hostels[0]] + hostels[1..];
        }
      }
    }
  }

  /** The map over a non-empty list: the first block, then the rest. */
  lemma BumpHostelSplit(hostels: seq<ProtoHostel>, id: int)
    requires hostels != []
    ensures BumpHostel(hostels, id) == [BumpOne(hostels[0], id)] + BumpHostel(hostels[1..], id)
  {
    var r := BumpHostel(hostels, id);
    var rest := BumpHostel(hostels[1..], id);
    assert forall k :: 0 <= k < |rest| ==> r[k + 1] == rest[k];
  }

  /** The room "add room" appends to a block holding `totalRooms` rooms:
      index `totalRooms + 1`, numbered and floored as the generator would
      number and floor it, but always an empty four-bed "Standard" room. */
  function AddedRoom(hostelId: int, totalRooms: int): ProtoRoom
  {
    ProtoRoom(totalRooms + 1, RoomNumber(hostelId, totalRooms + 1), 4, 0, "Standard", CeilTenth(totalRooms + 1))
  }

  /** The added room's number is new to its block: no room 1..totalRooms
      the generator lays out for that block carries it. */
  lemma AddedRoomIsFresh(hostelId: int, totalRooms: int, rooms: seq<ProtoRoom>)
    requires totalRooms >= 0
    requires forall k :: 0 <= k < |rooms| ==> IsGeneratedRoom(rooms[k], hostelId, k + 1)
    requires |rooms| == totalRooms
    ensures forall r :: r in rooms ==> r.number != AddedRoom(hostelId, totalRooms).number
  {
    var added := AddedRoom(hostelId, totalRooms).number;
    assert added == RoomNumber(hostelId, totalRooms + 1);
    forall r | r in rooms
      ensures r.number != added
    {
      var k :| 0 <= k < |rooms| && rooms[k] == r;
      RoomNumbersDistinct(hostelId, k + 1, totalRooms + 1);
    }
  }

  /** The added room fits the generator's layout for its index exactly when
      that index is neither a double (a multiple of 3) nor a "Premium" room
      (a multiple of 5). */
  lemma AddedRoomFitsLayout(hostelId: int, totalRooms: int)
    ensures IsGeneratedRoom(AddedRoom(hostelId, totalRooms), hostelId, totalRooms + 1)
            <==> (totalRooms + 1) % 3 != 0 && (totalRooms + 1) % 5 != 0
  {
    var i := totalRooms + 1;
    assert CapacityFor(i) == 4 <==> i % 3 != 0;
    assert TypeFor(i) == "Standard" <==> i % 5 != 0;
  }

  class PrototypeHostelPage {
    var hostels: seq<ProtoHostel>
    var rooms: seq<ProtoRoom>
    var selectedHostel: Option<int>
    var showAddRoomModal: bool

    /** Every block's counts add up. */
    predicate Valid()
      reads this
    {
      forall h :: h in hostels ==> CountsAdd(h)
    }

    constructor ()
      ensures Valid()
      ensures hostels == InitialHostels && rooms == [] && selectedHostel == None && !showAddRoomModal
    {
      hostels := InitialHostels;
      rooms := [];
      selectedHostel := None;
      showAddRoomModal := false;
      InitialCountsAdd();
    }

    /** `handleHostelClick`. */
    method HandleHostelClick(hostelId: int)
      modifies this
      ensures selectedHostel == Some(hostelId)
      ensures hostels == old(hostels) && rooms == old(rooms) && showAddRoomModal == old(showAddRoomModal)
    {
      selectedHostel := Some(hostelId);
    }

    /** Appends the room "add room" creates for a block of `totalRooms` rooms. */
    method AppendAddedRoom(hostelId: int, totalRooms: int)
      modifies this
      ensures rooms == old(rooms) + [AddedRoom(hostelId, totalRooms)]
      ensures hostels == old(hostels) && selectedHostel == old(selectedHostel)
      ensures showAddRoomModal == old(showAddRoomModal)
    {
      rooms := rooms + [AddedRoom(hostelId, totalRooms)];
    }

    /** `handleAddRoom`: the next room of the block (index `totalRooms + 1`,
        a four-bed "Standard" room, empty) is appended, the block's counters
        grow by one and the modal closes. For an id no block has, the
        handler fails on `hostel.totalRooms` before any update, so nothing
        changes. The new room's number differs from every room the block
        had before. */
    method HandleAddRoom(hostelId: int)
      requires Valid()
      modifies this
      ensures Valid()
      ensures FindProto(old(hostels), hostelId).None? ==>
                hostels == old(hostels) && rooms == old(rooms) && showAddRoomModal == old(showAddRoomModal)
      ensures FindProto(old(hostels), hostelId).Some? ==>
                rooms == old(rooms) + [AddedRoom(hostelId, FindProto(old(hostels), hostelId).value.totalRooms)]
                && hostels == BumpHostel(old(hostels), hostelId)
                && !showAddRoomModal
      ensures selectedHostel == old(selectedHostel)
    {
      var hostel := FindProto(hostels, hostelId);
      if hostel.None? {
        return;
      }
      AppendAddedRoom(hostelId, hostel.value.totalRooms);
      BumpHostelKeepsCounts(hostels, hostelId);
      hostels, showAddRoomModal := BumpHostel(hostels, hostelId), false;
    }
  }
}
