/** The composition root (App.tsx): whether setup is needed, which screen is shown, and
    the authorised shell's data source and room handlers. The auth context's `user` and
    `loading` are parameters. */
module App {
  import opened Wrappers
  import opened Types
  import opened Constants
  import opened SystemService
  import Seqs

  /** The four screens `AppContent` can render. */
  datatype Screen = Loader | SetupScreen | AuthorizedShell | LoginScreen

  /** `needsSetup`: live mode, and setup has not been completed. */
  function NeedsSetup(m: map<Key, Value>): (needs: bool)
    ensures needs <==> !DemoModeOf(m) && SetupFlagText(m) != Some("true")
  {
    !DemoModeOf(m) && !SetupCompleteOf(m)
  }

  /** Switching to demo mode never leads to the wizard. */
  lemma DemoNeverNeedsSetup(m: map<Key, Value>)
    ensures !NeedsSetup(AfterSetDemoMode(m, true))
  {
  }

  /** Switching to live mode with no accounts leads to the wizard. */
  lemma LiveWithoutAccountsNeedsSetup(m: map<Key, Value>)
    requires UsersOf(m) == []
    ensures NeedsSetup(AfterSetDemoMode(m, false))
  {
  }

  /** Once `completeSetup` has run, the wizard is not shown again. */
  lemma CompletedSetupNeedsNoSetup(m: map<Key, Value>)
    ensures !NeedsSetup(AfterCompleteSetup(m))
  {
  }

  /** `AppContent`'s choice: the loader while loading, else the wizard when setup is
      needed, else the shell when a user is signed in, else the login form. */
  function Route(loading: bool, needsSetup: bool, user: Option<User>): (s: Screen)
    ensures s == Loader <==> loading
    ensures s == SetupScreen <==> !loading && needsSetup
    ensures s == AuthorizedShell <==> !loading && !needsSetup && user.Some?
    ensures s == LoginScreen <==> !loading && !needsSetup && user.None?
  {
    if loading then Loader
    else if needsSetup then SetupScreen
    else if user.Some? then AuthorizedShell
    else LoginScreen
  }

  class AppContent {
    const store: LocalStore
    var needsSetup: bool

    constructor (store: LocalStore)
      ensures this.store == store && !needsSetup
    {
      this.store := store;
      needsSetup := false;
    }

    /** The effect that re-checks setup whenever the user changes. */
    method CheckSetup()
      requires store.Valid()
      modifies this, store
      ensures store.Valid()
      ensures needsSetup == NeedsSetup(old(store.slots))
      ensures store.slots == Cleaned(old(store.slots), DemoKey) && store.rooms == old(store.rooms)
    {
      var isDemo := store.IsDemoMode();
      if !isDemo {
        CleanedReadsAlike(old(store.slots), DemoKey, Flag(true));
        var complete := store.IsSetupComplete();
        needsSetup := !complete;
      } else {
        needsSetup := false;
      }
    }

    /** The wizard's `onComplete`. */
    method OnSetupComplete()
      modifies this
      ensures !needsSetup
    {
      needsSetup := false;
    }

    function View(loading: bool, user: Option<User>): Screen
      reads this
    {
      Route(loading, needsSetup, user)
    }
  }

  function OtherThan(roomId: string): Room -> bool
  {
    (r: Room) => r.id != roomId
  }

  /** The rooms `handleRemoveRoom(roomId)` keeps: exactly those with another id. */
  function WithoutRoom(rooms: seq<Room>, roomId: string): (kept: seq<Room>)
    ensures forall r :: r in kept ==> r.id != roomId
    ensures forall r :: r in rooms && r.id != roomId ==> r in kept
    ensures forall r :: r in kept ==> r in rooms
    ensures forall r :: multiset(kept)[r] == if r.id != roomId then multiset(rooms)[r] else 0
    ensures (forall i :: 0 <= i < |rooms| ==> rooms[i].id != roomId) ==> kept == rooms
  {
    Seqs.FilterCounts(OtherThan(roomId), rooms);
    Seqs.FilterKeepsAll(OtherThan(roomId), rooms);
    Seqs.Filter(OtherThan(roomId), rooms)
  }

  /** The kept rooms stay in their order. */
  lemma WithoutRoomKeepsOrder(rooms: seq<Room>, roomId: string)
    ensures Seqs.IsSubsequence(WithoutRoom(rooms, roomId), rooms)
  {
    Seqs.FilterIsSubsequence(OtherThan(roomId), rooms);
  }

  /** Order and exact counts determine the result: any order-preserving selection that
      keeps every copy of the other rooms and none with the id is `WithoutRoom`. */
  lemma WithoutRoomUnique(rooms: seq<Room>, roomId: string, kept: seq<Room>)
    requires Seqs.IsSubsequence(kept, rooms)
    requires forall r :: multiset(kept)[r] == if r.id != roomId then multiset(rooms)[r] else 0
    ensures kept == WithoutRoom(rooms, roomId)
  {
    Seqs.FilterUnique(OtherThan(roomId), rooms, kept);
  }

  /** The authorised shell's data: the mock collections in demo mode; in live mode no
      bookings or guests, and the stored room list. */
  class AuthorizedApp {
    const store: LocalStore
    var isDemo: bool
    var bookings: seq<Booking>
    var guests: seq<Guest>
    var rooms: seq<Room>

    predicate DataMatchesMode()
      reads this, store
    {
      if isDemo then bookings == MockBookings && guests == MockGuests && rooms == MockRooms
      else bookings == [] && guests == [] && rooms == store.rooms
    }

    ghost predicate Valid()
      reads this, store
    {
      store.Valid() && DataMatchesMode()
    }

    /** Mounting: the mode is read once, then the loading effect runs. */
    constructor (store: LocalStore)
      requires store.Valid()
      modifies store
      ensures Valid() && this.store == store
      ensures isDemo == DemoModeOf(old(store.slots))
      ensures store.slots == Cleaned(old(store.slots), DemoKey) && store.rooms == old(store.rooms)
    {
      var demo := store.IsDemoMode();
      this.store := store;
      isDemo := demo;
      bookings, guests, rooms := [], [], [];
      new;
      LoadData();
    }

    /** The effect that loads the data for the current mode. */
    method LoadData()
      requires store.Valid()
      modifies this
      ensures Valid() && isDemo == old(isDemo)
    {
      if isDemo {
        bookings, guests, rooms := MockBookings, MockGuests, MockRooms;
      } else {
        bookings, guests := [], [];
        rooms := store.GetRealRooms();
      }
    }

    /** `handleAddRoom`: refused in demo mode; in live mode append and save. */
    method HandleAddRoom(newRoom: Room)
      requires Valid()
      modifies this, store
      ensures Valid() && isDemo == old(isDemo)
      ensures bookings == old(bookings) && guests == old(guests)
      ensures isDemo ==> rooms == old(rooms) && unchanged(store)
      ensures !isDemo ==> rooms == old(rooms) + [newRoom] && store.rooms == rooms
                          && store.slots == old(store.slots)
    {
      if isDemo {
        return;
      }
      var updatedRooms := rooms + [newRoom];
      rooms := updatedRooms;
      store.SaveRealRooms(updatedRooms);
    }

    /** `handleRemoveRoom`: refused in demo mode; in live mode filter out the id and save. */
    method HandleRemoveRoom(roomId: string)
      requires Valid()
      modifies this, store
      ensures Valid() && isDemo == old(isDemo)
      ensures bookings == old(bookings) && guests == old(guests)
      ensures isDemo ==> rooms == old(rooms) && unchanged(store)
      ensures !isDemo ==> rooms == WithoutRoom(old(rooms), roomId) && store.rooms == rooms
                          && store.slots == old(store.slots)
    {
      if isDemo {
        return;
      }
      var updatedRooms := WithoutRoom(rooms, roomId);
      rooms := updatedRooms;
      store.SaveRealRooms(updatedRooms);
    }
  }
}
