/** The booking table's search and status colours (components/Bookings.tsx). */
module Bookings {
  import opened Wrappers
  import opened Types
  import Strings
  import Seqs

  /** The badge classes for each booking status. */
  function StatusColor(status: BookingStatus): (classes: string)
  {
    match status
    case Confirmed => "bg-blue-100 text-blue-700"
    case CheckedIn => "bg-emerald-100 text-emerald-700"
    case CheckedOut => "bg-slate-100 text-slate-700"
    case Cancelled => "bg-red-100 text-red-700"
  }

  /** The four statuses get four different badges. */
  lemma StatusColorsDistinct(a: BookingStatus, b: BookingStatus)
    ensures a != b ==> StatusColor(a) != StatusColor(b)
  {
  }

  function HasId(guestId: string): Guest -> bool
  {
    (g: Guest) => g.id == guestId
  }

  /** `guests.find(g => g.id === b.guestId)`. */
  function GuestOf(guests: seq<Guest>, guestId: string): (found: Option<Guest>)
    ensures found.None? <==> forall g :: g in guests ==> g.id != guestId
    ensures found.Some? ==> exists i :: FirstGuestAt(guests, guestId, i) && guests[i] == found.value
  {
    Seqs.Find(HasId(guestId), guests)
  }

  /** `i` is the position of the first guest with this id. */
  predicate FirstGuestAt(guests: seq<Guest>, guestId: string, i: int)
  {
    0 <= i < |guests| && guests[i].id == guestId && forall j :: 0 <= j < i ==> guests[j].id != guestId
  }

  /** The search predicate: the booking's guest's name, or the booking's id, contains the
      term, all lower-cased. */
  predicate Matches(b: Booking, guests: seq<Guest>, term: string)
  {
    var q := Strings.Lower(term);
    var guest := GuestOf(guests, b.guestId);
    (guest.Some? && Strings.Includes(Strings.Lower(guest.value.name), q))
    || Strings.Includes(Strings.Lower(b.id), q)
  }

  /** The search predicate in terms of the first guest carrying the booking's guest id. */
  lemma MatchesSpec(b: Booking, guests: seq<Guest>, term: string)
    ensures Matches(b, guests, term) <==>
      Strings.Includes(Strings.Lower(b.id), Strings.Lower(term)) ||
      exists i :: FirstGuestAt(guests, b.guestId, i)
                  && Strings.Includes(Strings.Lower(guests[i].name), Strings.Lower(term))
  {
    var guest := GuestOf(guests, b.guestId);
    if guest.Some? {
      var i :| 0 <= i < |guests| && guests[i] == guest.value && HasId(b.guestId)(guests[i])
               && forall j :: 0 <= j < i ==> !HasId(b.guestId)(guests[j]);
      assert FirstGuestAt(guests, b.guestId, i);
      forall k | FirstGuestAt(guests, b.guestId, k) ensures k == i {
        assert HasId(b.guestId)(guests[k]);
      }
    } else {
      forall k | 0 <= k < |guests| ensures !FirstGuestAt(guests, b.guestId, k) {
        assert !HasId(b.guestId)(guests[k]);
      }
    }
  }

  /** A booking whose guest is not found matches only through its id. */
  lemma GuestlessMatchesById(b: Booking, guests: seq<Guest>, term: string)
    requires forall g :: g in guests ==> g.id != b.guestId
    ensures Matches(b, guests, term) <==> Strings.Includes(Strings.Lower(b.id), Strings.Lower(term))
  {
    assert forall j :: 0 <= j < |guests| ==> !HasId(b.guestId)(guests[j]) by {
      forall j | 0 <= j < |guests| ensures !HasId(b.guestId)(guests[j]) {
        assert guests[j] in guests;
      }
    }
  }

  function MatchesTerm(guests: seq<Guest>, term: string): Booking -> bool
  {
    (b: Booking) => Matches(b, guests, term)
  }

  /** `filteredBookings`: the bookings that match the search term. */
  function FilteredBookings(bookings: seq<Booking>, guests: seq<Guest>, term: string): (shown: seq<Booking>)
    ensures |shown| <= |bookings|
    ensures forall b :: b in shown <==> b in bookings && Matches(b, guests, term)
    ensures forall b :: multiset(shown)[b] == if Matches(b, guests, term) then multiset(bookings)[b] else 0
  {
    Seqs.FilterCounts(MatchesTerm(guests, term), bookings);
    Seqs.Filter(MatchesTerm(guests, term), bookings)
  }

  /** The shown bookings keep the table's order. */
  lemma FilteredKeepsOrder(bookings: seq<Booking>, guests: seq<Guest>, term: string)
    ensures Seqs.IsSubsequence(FilteredBookings(bookings, guests, term), bookings)
  {
    Seqs.FilterIsSubsequence(MatchesTerm(guests, term), bookings);
  }

  /** Order and exact counts determine the result: any order-preserving selection that
      keeps every copy of the matching bookings and none of the others is the one shown. */
  lemma FilteredUnique(bookings: seq<Booking>, guests: seq<Guest>, term: string, shown: seq<Booking>)
    requires Seqs.IsSubsequence(shown, bookings)
    requires forall b :: multiset(shown)[b] == if Matches(b, guests, term) then multiset(bookings)[b] else 0
    ensures shown == FilteredBookings(bookings, guests, term)
  {
    Seqs.FilterUnique(MatchesTerm(guests, term), bookings, shown);
  }

  /** An empty search shows every booking. */
  lemma EmptyTermShowsAll(bookings: seq<Booking>, guests: seq<Guest>)
    ensures FilteredBookings(bookings, guests, "") == bookings
  {
    assert forall i :: 0 <= i < |bookings| ==> MatchesTerm(guests, "")(bookings[i]) by {
      assert Strings.Lower("") == "";
    }
    Seqs.FilterKeepsAll(MatchesTerm(guests, ""), bookings);
  }

  /** Terms that differ only in letter case show the same bookings. */
  lemma CaseInsensitive(bookings: seq<Booking>, guests: seq<Guest>, t1: string, t2: string)
    requires Strings.Lower(t1) == Strings.Lower(t2)
    ensures FilteredBookings(bookings, guests, t1) == FilteredBookings(bookings, guests, t2)
  {
    Seqs.FilterCongruent(MatchesTerm(guests, t1), MatchesTerm(guests, t2), bookings);
  }

  /** In particular, searching for a term or for its lower-cased form is the same. */
  lemma LowerCasedTermAlike(bookings: seq<Booking>, guests: seq<Guest>, term: string)
    ensures FilteredBookings(bookings, guests, Strings.Lower(term)) == FilteredBookings(bookings, guests, term)
  {
    Strings.LowerIdempotent(term);
    CaseInsensitive(bookings, guests, Strings.Lower(term), term);
  }
}
