/** The sidebar: the avatar initials, the navigation table by role, the
    active-item test and the collapse toggle. */
module Sidebar {
  import opened Seqs
  import opened Text
  import opened Types

  /** The first character of every non-empty word, in order; an empty word
      (from a doubled or trailing space) adds nothing. */
  function FirstLetters(words: seq<string>): (r: string)
    ensures |r| == Count(words, (w: string) => w != "")
    decreases |words|
  {
    if words == [] then ""
    else (if words[0] == "" then "" else [words[0][0]]) + FirstLetters(words[1..])
  }

  /** The first letters of two lists of words, one after the other, are
      the first letters of the joined list. */
  lemma {:induction false} FirstLettersAppend(a: seq<string>, b: seq<string>)
    ensures FirstLetters(a + b) == FirstLetters(a) + FirstLetters(b)
    decreases |a|
  {
    if a == [] {
      assert a + b == b;
    } else {
      assert (a + b)[0] == a[0] && (a + b)[1..] == a[1..] + b;
      FirstLettersAppend(a[1..], b);
    }
  }

  /** One word gives its first character, an empty word nothing. */
  lemma {:induction false} FirstLettersOneWord(w: string)
    ensures FirstLetters([w]) == if w == "" then "" else [w[0]]
  {
    assert [w][1..] == [];
  }

  /** `getInitials`: split on spaces, keep each word's first character,
      upper-case, keep at most two. */
  function GetInitials(name: string): (r: string)
    ensures var n := Count(Split(name, ' '), (w: string) => w != ""); |r| == if n <= 2 then n else 2
    ensures forall i :: 0 <= i < |r| ==> !IsLowerAscii(r[i])
    ensures StartsWith(ToUpper(FirstLetters(Split(name, ' '))), r)
  {
    Take(ToUpper(FirstLetters(Split(name, ' '))), 2)
  }

  /** A name that does not start with a space starts its initials. */
  lemma InitialsStartWithName(name: string)
    requires name != [] && name[0] != ' '
    ensures GetInitials(name) != [] && GetInitials(name)[0] == UpperChar(name[0])
  {
    var words := Split(name, ' ');
    assert words[0] == [name[0]] + Split(name[1..], ' ')[0];
    assert FirstLetters(words)[0] == name[0];
  }

  /** A first and a last name separated by one space give the upper-cased
      first letter of each, in that order ("John Doe" gives "JD"). */
  lemma {:induction false} TwoWordInitials(first: string, last: string)
    requires first != "" && last != ""
    requires forall i :: 0 <= i < |first| ==> first[i] != ' '
    requires forall i :: 0 <= i < |last| ==> last[i] != ' '
    ensures GetInitials(first + " " + last) == [UpperChar(first[0]), UpperChar(last[0])]
  {
    SplitAtSeparator(first, last, ' ');
    SplitNoSeparator(last, ' ');
    assert first + " " + last == first + [' '] + last;
    assert Split(first + " " + last, ' ') == [first] + [last];
    FirstLettersAppend([first], [last]);
    FirstLettersOneWord(first);
    FirstLettersOneWord(last);
    assert FirstLetters([first] + [last]) == [first[0], last[0]];
  }

  datatype NavItem = NavItem(title: string, href: string, icon: string)

  const Home := NavItem("Dashboard", "/dashboard", "LayoutDashboard")

  /** The navigation table, one entry per role. */
  function RoleNavigation(role: UserRole): (r: seq<NavItem>)
    ensures r != [] && r[0] == Home
    ensures forall i, j :: 0 <= i < j < |r| ==> r[i].href != r[j].href
  {
    match role
    case Admin => [Home,
        NavItem("Staff", "/dashboard/staff", "Users"),
        NavItem("Rooms", "/dashboard/rooms", "Building"),
        NavItem("Guests", "/dashboard/guests", "UserCircle"),
        NavItem("Bookings", "/dashboard/bookings", "Calendar"),
        NavItem("Payments", "/dashboard/payments", "CreditCard"),
        NavItem("Reports", "/dashboard/reports", "BarChart"),
        NavItem("Audit Logs", "/dashboard/audit", "FileText")]
    case Manager => [Home,
        NavItem("Rooms", "/dashboard/rooms", "Building"),
        NavItem("Bookings", "/dashboard/bookings", "Calendar"),
        NavItem("Staff Activity", "/dashboard/staff", "Users"),
        NavItem("Payments", "/dashboard/payments", "CreditCard"),
        NavItem("Reports", "/dashboard/reports", "BarChart")]
    case Receptionist => [Home,
        NavItem("Bookings", "/dashboard/bookings", "Calendar"),
        NavItem("Guests", "/dashboard/guests", "UserCircle"),
        NavItem("Rooms", "/dashboard/rooms", "Building"),
        NavItem("Payments", "/dashboard/payments", "CreditCard")]
    case Housekeeping => [Home, NavItem("My Tasks", "/dashboard/housekeeping", "ClipboardList")]
    case Kitchen => [Home, NavItem("Orders", "/dashboard/kitchen", "UtensilsCrossed")]
    case Auditor => [Home,
        NavItem("Audit Logs", "/dashboard/audit", "FileText"),
        NavItem("Reports", "/dashboard/reports", "BarChart")]
  }

  /** The sidebar's navigation: empty without a role, else the role's entry. */
  function Navigation(role: Option<UserRole>): (r: seq<NavItem>)
    ensures r == [] <==> role.None?
    ensures role.Some? ==> r == RoleNavigation(role.value)
  {
    if role.None? then [] else RoleNavigation(role.value)
  }

  /** A link is highlighted exactly when the path equals its target. */
  predicate IsActive(pathname: string, item: NavItem) {
    pathname == item.href
  }

  /** Only administrators and auditors are offered the audit log. */
  lemma AuditLinkRoles(role: UserRole)
    ensures (exists i :: 0 <= i < |RoleNavigation(role)| && RoleNavigation(role)[i].href == "/dashboard/audit")
      <==> role == Admin || role == Auditor
  {
    var nav := RoleNavigation(role);
    if role == Admin {
      assert nav[7].href == "/dashboard/audit";
    } else if role == Auditor {
      assert nav[1].href == "/dashboard/audit";
    }
  }

  /** Links with distinct targets highlight at most one of them. */
  lemma {:induction false} DistinctHrefsAtMostOneActive(nav: seq<NavItem>, pathname: string)
    requires forall i, j :: 0 <= i < j < |nav| ==> nav[i].href != nav[j].href
    ensures Count(nav, (item: NavItem) => IsActive(pathname, item)) <= 1
    decreases |nav|
  {
    if nav != [] {
      var rest := nav[1..];
      assert forall i :: 0 <= i < |rest| ==> rest[i] == nav[i + 1];
      DistinctHrefsAtMostOneActive(rest, pathname);
      if IsActive(pathname, nav[0]) {
        assert forall i :: 0 <= i < |rest| ==> !IsActive(pathname, rest[i]);
      }
    }
  }

  /** Whatever the path and the role, at most one link is highlighted. */
  lemma AtMostOneActive(role: Option<UserRole>, pathname: string)
    ensures Count(Navigation(role), (item: NavItem) => IsActive(pathname, item)) <= 1
  {
    DistinctHrefsAtMostOneActive(Navigation(role), pathname);
  }

  class SidebarState {
    var collapsed: bool

    constructor ()
      ensures !collapsed
    {
      collapsed := false;
    }

    /** The collapse button flips the flag. */
    method ToggleCollapsed()
      modifies this
      ensures collapsed == !old(collapsed)
    {
      collapsed := !collapsed;
    }
  }
}
