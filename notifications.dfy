/** The notification bell: the fetched list, the unread counter kept next
    to it, the mark-as-read and mark-all-read handlers and the badge text. */
module Notifications {
  import opened Seqs
  import opened Text

  datatype Notification = Notification(id: string, title: string, message: string, is_read: bool)

  function UnreadCount(ns: seq<Notification>): (n: nat)
    ensures n <= |ns|
    ensures n == |ns| <==> forall i :: 0 <= i < |ns| ==> !ns[i].is_read
  {
    Count(ns, (x: Notification) => !x.is_read)
  }

  /** The list after marking one notification read: every entry with that id removed. */
  function RemoveById(ns: seq<Notification>, id: string): (r: seq<Notification>)
    ensures forall i :: 0 <= i < |r| ==> r[i] in ns && r[i].id != id
    ensures forall i :: 0 <= i < |ns| && ns[i].id != id ==> ns[i] in r
  {
    Filter(ns, (x: Notification) => x.id != id)
  }

  /** Removing unread entries lowers the unread count by exactly their number. */
  lemma {:induction false} RemoveUnreadById(ns: seq<Notification>, id: string)
    requires forall i :: 0 <= i < |ns| && ns[i].id == id ==> !ns[i].is_read
    ensures UnreadCount(RemoveById(ns, id)) + Count(ns, (x: Notification) => x.id == id) == UnreadCount(ns)
    decreases |ns|
  {
    if ns != [] {
      assert forall i :: 0 <= i < |ns[1..]| ==> ns[1..][i] == ns[i + 1];
      RemoveUnreadById(ns[1..], id);
      var keep := (x: Notification) => x.id != id;
      var rest := Filter(ns[1..], keep);
      assert RemoveById(ns, id) == (if keep(ns[0]) then [ns[0]] else []) + rest;
      if keep(ns[0]) {
        assert ([ns[0]] + rest)[1..] == rest;
      } else {
        assert [] + rest == rest;
      }
    }
  }

  /** The badge over the bell: hidden at 0, "9+" above 9, else the number. */
  function BadgeText(count: nat): (r: Option<string>)
    ensures r.None? <==> count == 0
    ensures count > 9 ==> r == Some("9+")
    ensures 0 < count <= 9 ==> r.Some? && |r.value| == 1 && DigitsValue(r.value) == count
  {
    if count == 0 then None
    else if count > 9 then Some("9+")
    else
      NatToStringRoundTrip(count);
      Some(NatToString(count))
  }

  class NotificationBell {
    var notifications: seq<Notification>
    var unreadCount: nat
    var readingId: Option<string>

    /** The counter agrees with the list. */
    predicate Consistent()
      reads this
    {
      unreadCount == UnreadCount(notifications)
    }

    constructor ()
      ensures notifications == [] && unreadCount == 0 && readingId == None
      ensures Consistent()
    {
      notifications, unreadCount, readingId := [], 0, None;
    }

    /** `fetchNotifications`: `data` is the fetched list, None when the
        request fails (then nothing changes). */
    method FetchNotifications(data: Option<seq<Notification>>)
      modifies this`notifications, this`unreadCount
      ensures data.Some? ==> notifications == data.value && unreadCount == UnreadCount(data.value)
      ensures data.None? ==> notifications == old(notifications) && unreadCount == old(unreadCount)
      ensures data.Some? || old(Consistent()) ==> Consistent()
    {
      if data.Some? {
        notifications := data.value;
        unreadCount := Count(data.value, (x: Notification) => !x.is_read);
      }
    }

    /** `handleMarkAsRead`: on success the notification leaves the list and
        the counter drops by one, never below 0; on failure nothing changes.
        The reading mark is cleared either way. Marking the one unread
        notification with that id keeps counter and list in agreement. */
    method HandleMarkAsRead(id: string, serverOk: bool)
      modifies this
      ensures readingId == None
      ensures serverOk ==> notifications == RemoveById(old(notifications), id)
      ensures serverOk ==> unreadCount == if old(unreadCount) == 0 then 0 else old(unreadCount) - 1
      ensures !serverOk ==> notifications == old(notifications) && unreadCount == old(unreadCount)
      ensures old(Consistent()) && Count(old(notifications), (x: Notification) => x.id == id) == 1
              && (forall i :: 0 <= i < |old(notifications)| && old(notifications)[i].id == id ==> !old(notifications)[i].is_read)
              ==> Consistent()
    {
      readingId := Some(id);
      if serverOk {
        if Count(notifications, (x: Notification) => x.id == id) == 1
           && forall i :: 0 <= i < |notifications| && notifications[i].id == id ==> !notifications[i].is_read {
          RemoveUnreadById(notifications, id);
        }
        notifications := RemoveById(notifications, id);
        unreadCount := if unreadCount == 0 then 0 else unreadCount - 1;
      }
      readingId := None;
    }

    /** `handleMarkAllRead`: on success the list empties and the counter is
        0; on failure nothing changes. */
    method HandleMarkAllRead(serverOk: bool)
      modifies this`notifications, this`unreadCount
      ensures serverOk ==> notifications == [] && unreadCount == 0 && Consistent()
      ensures !serverOk ==> notifications == old(notifications) && unreadCount == old(unreadCount)
    {
      if serverOk {
        notifications := [];
        unreadCount := 0;
      }
    }
  }
}
