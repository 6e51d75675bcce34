/** The demo-mode sample collections (constants.ts). */
module Constants {
  import opened Types

  const MockGuests: seq<Guest> := [
    Guest("g1", "Alice Freeman", "alice.f@example.com", "+1 555-0101", true, "Prefers high floor", "2023-11-15"),
    Guest("g2", "Bob Smith", "bob.smith@example.com", "+1 555-0102", false, "", "2023-10-01"),
    Guest("g3", "Charlie Davis", "charlie.d@example.com", "+1 555-0103", false, "Allergic to peanuts", "2023-12-20"),
    Guest("g4", "Diana Prince", "diana.p@example.com", "+1 555-0104", true, "Requires quiet room", "2024-01-10"),
    Guest("g5", "Evan Wright", "evan.w@example.com", "+1 555-0105", false, "Late check-in", "2023-09-05")
  ]

  const MockRooms: seq<Room> := [
    Room("r101", "101", "Deluxe King", 250, Occupied, 1, 2, ["Ocean View", "Balcony"]),
    Room("r102", "102", "Standard Queen", 150, Available, 1, 2, ["Garden View"]),
    Room("r103", "103", "Suite", 450, Dirty, 1, 4, ["Jacuzzi", "Ocean View", "Living Room"]),
    Room("r201", "201", "Standard Twin", 140, Available, 2, 2, []),
    Room("r202", "202", "Deluxe King", 260, Maintenance, 2, 2, ["High Floor"]),
    Room("r203", "203", "Suite", 460, Occupied, 2, 4, ["Corner Room", "City View"]),
    Room("r301", "301", "Penthouse", 1200, Available, 3, 6, ["Private Pool", "Butler Service"])
  ]

  const MockBookings: seq<Booking> := [
    Booking("b1", "g1", "r101", "2024-05-20", "2024-05-25", CheckedIn, 1250, true, 2),
    Booking("b2", "g2", "r102", "2024-06-01", "2024-06-03", Confirmed, 300, false, 1),
    Booking("b3", "g3", "r103", "2024-05-18", "2024-05-22", CheckedOut, 1800, true, 3),
    Booking("b4", "g4", "r203", "2024-05-21", "2024-05-28", CheckedIn, 3220, true, 2)
  ]

  /** Guest, room and booking ids are unique within their sample collection. */
  lemma MockIdsDistinct()
    ensures forall i, j :: 0 <= i < j < |MockGuests| ==> MockGuests[i].id != MockGuests[j].id
    ensures forall i, j :: 0 <= i < j < |MockRooms| ==> MockRooms[i].id != MockRooms[j].id
    ensures forall i, j :: 0 <= i < j < |MockBookings| ==> MockBookings[i].id != MockBookings[j].id
  {
    forall i, j | 0 <= i < j < |MockGuests| ensures MockGuests[i].id != MockGuests[j].id {
      assert MockGuests[i].id[1] != MockGuests[j].id[1];
    }
    forall i, j | 0 <= i < j < |MockRooms| ensures MockRooms[i].id != MockRooms[j].id {
      assert MockRooms[i].id[1..] == MockRooms[i].number;
      assert MockRooms[j].id[1..] == MockRooms[j].number;
    }
    forall i, j | 0 <= i < j < |MockBookings| ensures MockBookings[i].id != MockBookings[j].id {
      assert MockBookings[i].id[1] != MockBookings[j].id[1];
    }
  }

  predicate IsMockGuest(id: string)
  {
    exists j :: 0 <= j < |MockGuests| && MockGuests[j].id == id
  }

  predicate IsMockRoom(id: string)
  {
    exists k :: 0 <= k < |MockRooms| && MockRooms[k].id == id
  }

  /** Every sample booking names a sample guest and a sample room. */
  lemma MockBookingsResolve()
    ensures forall i :: 0 <= i < |MockBookings| ==> IsMockGuest(MockBookings[i].guestId)
    ensures forall i :: 0 <= i < |MockBookings| ==> IsMockRoom(MockBookings[i].roomId)
  {
    forall i | 0 <= i < |MockBookings|
      ensures IsMockGuest(MockBookings[i].guestId) && IsMockRoom(MockBookings[i].roomId)
    {
      var k := if i < 3 then i else 5;
      assert MockGuests[i].id == MockBookings[i].guestId;
      assert MockRooms[k].id == MockBookings[i].roomId;
    }
  }
}
