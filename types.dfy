/** The entities of the hotel front-end (types.ts). Nullable and optional fields are
    `Option`s; JavaScript numbers used here are whole numbers. */
module Types {
  import opened Wrappers

  datatype RoomStatus = Available | Occupied | Dirty | Maintenance

  datatype BookingStatus = Confirmed | CheckedIn | CheckedOut | Cancelled

  datatype Role = Superuser | Owner | Manager

  /** The role's string value, as stored and shown. */
  function RoleName(r: Role): string
  {
    match r
    case Superuser => "SUPERUSER"
    case Owner => "OWNER"
    case Manager => "MANAGER"
  }

  /** An optional role is missing or one of the three (a case split for proofs). */
  lemma RoleCases(role: Option<Role>)
    ensures role == None || role == Some(Owner) || role == Some(Manager) || role == Some(Superuser)
  {
    if role.Some? {
      var r := role.value;
      assert r.Owner? || r.Manager? || r.Superuser?;
    }
  }

  datatype User = User(
    uid: string,
    email: Option<string>,
    displayName: Option<string>,
    photoURL: Option<string>,
    role: Option<Role>)

  datatype Guest = Guest(
    id: string,
    name: string,
    email: string,
    phone: string,
    vip: bool,
    notes: string,
    lastStay: string)

  datatype Room = Room(
    id: string,
    number: string,
    roomType: string,
    price: int,
    status: RoomStatus,
    floor: int,
    capacity: int,
    features: seq<string>)

  datatype Booking = Booking(
    id: string,
    guestId: string,
    roomId: string,
    checkIn: string,
    checkOut: string,
    status: BookingStatus,
    totalAmount: int,
    paid: bool,
    guestsCount: int)
}
