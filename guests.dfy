/** The guests page: the new-guest form with its validation and reset,
    the guest search and the "currently in hotel" counter. */
module Guests {
  import opened Seqs
  import opened Text
  import opened Types
  import Bookings

  /** The form as the page opens it and resets it: blank, with the
      national id preselected as id type. */
  const InitialGuestForm := GuestForm("", "", "", "national_id", "", "")

  /** The guest search: the name or the email contains the term ignoring
      case, or the phone contains it exactly as typed. A missing email or
      phone matches nothing. */
  predicate GuestMatches(g: Guest, searchTerm: string) {
    || ContainsIgnoreCase(g.full_name, searchTerm)
    || (g.email.Some? && ContainsIgnoreCase(g.email.value, searchTerm))
    || (g.phone.Some? && Contains(g.phone.value, searchTerm))
  }

  function FilteredGuests(guests: seq<Guest>, searchTerm: string): (r: seq<Guest>)
    ensures forall i :: 0 <= i < |r| ==> r[i] in guests && GuestMatches(r[i], searchTerm)
    ensures forall i :: 0 <= i < |guests| && GuestMatches(guests[i], searchTerm) ==> guests[i] in r
  {
    Filter(guests, (g: Guest) => GuestMatches(g, searchTerm))
  }

  /** An empty search lists every guest. */
  lemma EmptySearchListsAll(guests: seq<Guest>)
    ensures FilteredGuests(guests, "") == guests
  {
    assert ToLower("") == "";
    forall i | 0 <= i < |guests| ensures GuestMatches(guests[i], "") {
      ContainsEmpty(ToLower(guests[i].full_name));
    }
    FilterAll(guests, (g: Guest) => GuestMatches(g, ""));
  }

  /** A guest without email and phone is found only through the name. */
  lemma NoContactMatchesByNameOnly(g: Guest, searchTerm: string)
    requires g.email.None? && g.phone.None?
    ensures GuestMatches(g, searchTerm) <==> ContainsIgnoreCase(g.full_name, searchTerm)
  {
  }

  /** The phone is compared case-sensitively while the name is not: a
      guest "b" with phone "A" is found by "A" but not by "a". */
  lemma PhoneIsCaseSensitive()
    ensures var g := Guest("g1", "b", None, Some("A"), None, None, None);
      GuestMatches(g, "A") && !GuestMatches(g, "a")
  {
    assert ToLower("b") == "b";
    assert ToLower("a") == "a";
    assert ToLower("A") == "a";
    assert !Contains("", "a");
    assert "A"[1..] == "" && "b"[1..] == "";
    assert "A"[..1] == "A" && "b"[..1] == "b";
    assert !Contains("A", "a") && !Contains("b", "a");
    assert Contains("A", "A");
  }

  /** "Currently in hotel": the bookings checked in. */
  function ActiveGuests(bookings: seq<Booking>): (n: nat)
    ensures n <= |bookings|
    ensures n == 0 <==> forall i :: 0 <= i < |bookings| ==> bookings[i].status != CheckedIn
  {
    Bookings.CheckedInCount(bookings)
  }

  class GuestsPage {
    var newGuest: GuestForm
    var showNewGuestDialog: bool

    constructor ()
      ensures newGuest == InitialGuestForm && !showNewGuestDialog
    {
      newGuest := InitialGuestForm;
      showNewGuestDialog := false;
    }

    /** The operator fills in the form. */
    method FillGuest(form: GuestForm)
      modifies this`newGuest
      ensures newGuest == form
    {
      newGuest := form;
    }

    /** `handleCreateGuest`: nothing is sent without a full name and a
        phone; after a successful create the dialog closes and the form is
        reset, otherwise the form is kept. Returns what was sent. */
    method HandleCreateGuest(serverOk: bool) returns (sent: Option<GuestForm>)
      modifies this
      ensures sent.Some? <==> old(newGuest).full_name != "" && old(newGuest).phone != ""
      ensures sent.Some? ==> sent.value == old(newGuest)
      ensures sent.Some? && serverOk ==> newGuest == InitialGuestForm && !showNewGuestDialog
      ensures sent.None? || !serverOk ==> newGuest == old(newGuest) && showNewGuestDialog == old(showNewGuestDialog)
    {
      if newGuest.full_name == "" || newGuest.phone == "" {
        return None;
      }
      sent := Some(newGuest);
      if serverOk {
        showNewGuestDialog := false;
        newGuest := InitialGuestForm;
      }
    }
  }
}
