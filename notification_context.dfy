/**
 * The notification list: newest first, capped at 50 entries, each with a
 * read flag. Browser storage is not modelled: the list lives in memory.
 */
module NotificationContext {
  import opened Wrappers
  import opened Text
  import opened Seqs

  datatype NotificationType = Info | Success | Warning | Error | AchievementNotice

  datatype Notification = Notification(
    id: string,
    title: string,
    message: string,
    kind: NotificationType,
    timestamp: nat,
    read: bool,
    actionUrl: Option<string>,
    icon: Option<string>)

  /** How many notifications the list keeps. */
  const Capacity: nat := 50

  /** The two notifications shown before anything is stored; the second is an hour older. */
  function InitialNotifications(now: nat): seq<Notification>
  {
    [Notification("1", "Welcome to CineStream!", "Discover thousands of movies and series", Info, now, false, None, Some("🎬")),
     Notification("2", "New Release Alert", "The Quantum Heist is now available!", Info,
       if now >= 3600000 then now - 3600000 else 0, false, Some("/movie/1"), Some("🆕"))]
  }

  /** `[newNotification, ...prev].slice(0, 50)`. */
  function Prepend(n: Notification, list: seq<Notification>): (r: seq<Notification>)
  {
    Take([n] + list, Capacity)
  }

  /**
   * The new entry comes first, at most 50 entries remain, and the rest are
   * the newest earlier entries in their order.
   */
  lemma PrependKeepsNewest(n: Notification, list: seq<Notification>)
    ensures var r := Prepend(n, list);
      |r| == (if |list| < Capacity then |list| + 1 else Capacity) &&
      r[0] == n &&
      r[1..] <= list
  {
    var r := Prepend(n, list);
    assert r <= [n] + list;
    if |list| + 1 > Capacity {
      assert |r| == Capacity by {
        assert ([n] + list)[..Capacity] == Take([n] + list, Capacity);
      }
    }
  }

  /** `prev.map(notif => notif.id === id ? { ...notif, read: true } : notif)`. */
  function MarkRead(list: seq<Notification>, id: string): (r: seq<Notification>)
    ensures |r| == |list|
    ensures forall i :: 0 <= i < |r| ==> r[i] == if list[i].id == id then list[i].(read := true) else list[i]
  {
    MapWhere(list, (n: Notification) => n.id == id, (n: Notification) => n.(read := true))
  }

  /** Marking an id read twice is the same as once. */
  lemma MarkReadIdempotent(list: seq<Notification>, id: string)
    ensures MarkRead(MarkRead(list, id), id) == MarkRead(list, id)
  {
  }

  /** `prev.map(notif => ({ ...notif, read: true }))`. */
  function MarkAllRead(list: seq<Notification>): (r: seq<Notification>)
    ensures |r| == |list|
    ensures forall i :: 0 <= i < |r| ==> r[i] == list[i].(read := true)
  {
    seq(|list|, i requires 0 <= i < |list| => list[i].(read := true))
  }

  /** `prev.filter(notif => notif.id !== id)`. */
  function Remove(list: seq<Notification>, id: string): (r: seq<Notification>)
    ensures forall i :: 0 <= i < |r| ==> r[i].id != id
    ensures forall i :: 0 <= i < |list| && list[i].id != id ==> list[i] in r
  {
    Filter(list, (n: Notification) => n.id != id)
  }

  /** Removal keeps the other entries in their order. */
  lemma RemoveKeepsOrder(list: seq<Notification>, id: string)
    ensures IsSubsequence(Remove(list, id), list)
  {
    FilterIsSubsequence(list, (n: Notification) => n.id != id);
  }

  predicate Unread(n: Notification)
  {
    !n.read
  }

  /** `notifications.filter(n => !n.read).length`. */
  function UnreadCount(list: seq<Notification>): (r: nat)
    ensures r <= |list|
  {
    |Filter(list, Unread)|
  }

  /** Counts the unread entries one by one: the independent reference for `UnreadCount`. */
  function CountUnread(list: seq<Notification>): nat
  {
    if list == [] then 0 else (if list[0].read then 0 else 1) + CountUnread(list[1..])
  }

  /** The filtered length is the number of entries whose read flag is false. */
  lemma {:induction false} UnreadCountIsCount(list: seq<Notification>)
    ensures UnreadCount(list) == CountUnread(list)
  {
    if list != [] {
      UnreadCountIsCount(list[1..]);
      if list[0].read {
        assert Filter(list, Unread) == Filter(list[1..], Unread);
      } else {
        assert Filter(list, Unread) == [list[0]] + Filter(list[1..], Unread);
      }
    }
  }

  /** After marking everything read nothing is unread; only the read flags changed. */
  lemma MarkAllLeavesNoneUnread(list: seq<Notification>)
    ensures UnreadCount(MarkAllRead(list)) == 0
    ensures forall i :: 0 <= i < |list| ==> MarkAllRead(list)[i].(read := list[i].read) == list[i]
  {
    var r := MarkAllRead(list);
    var isRead := (n: Notification) => n.read;
    FilterPartition(r, Unread, isRead);
    FilterAll(r, isRead);
  }

  /** Marking one id read never raises the unread count. */
  lemma {:induction false} MarkReadLowersUnread(list: seq<Notification>, id: string)
    ensures CountUnread(MarkRead(list, id)) <= CountUnread(list)
  {
    if list != [] {
      MarkReadLowersUnread(list[1..], id);
      assert MarkRead(list, id)[1..] == MarkRead(list[1..], id);
    }
  }

  class NotificationStore {
    var notifications: seq<Notification>

    ghost predicate Valid()
      reads this
    {
      |notifications| <= Capacity
    }

    /**
     * The mount effect: a stored list is taken as it is; with nothing stored
     * the two initial notifications are used.
     */
    constructor (stored: Option<seq<Notification>>, now: nat)
      ensures notifications == if stored.Some? then stored.value else InitialNotifications(now)
      ensures stored.None? ==> Valid()
    {
      notifications := if stored.Some? then stored.value else InitialNotifications(now);
    }

    /** The new entry gets the time as its id and timestamp and starts unread. */
    method AddNotification(title: string, message: string, kind: NotificationType,
                           actionUrl: Option<string>, icon: Option<string>, now: nat)
      modifies this
      ensures notifications ==
        Prepend(Notification(NatToString(now), title, message, kind, now, false, actionUrl, icon), old(notifications))
      ensures Valid()
    {
      var n := Notification(NatToString(now), title, message, kind, now, false, actionUrl, icon);
      notifications := Prepend(n, notifications);
    }

    method MarkAsRead(id: string)
      modifies this
      ensures notifications == MarkRead(old(notifications), id)
      ensures old(Valid()) ==> Valid()
    {
      notifications := MarkRead(notifications, id);
    }

    method MarkAllAsRead()
      modifies this
      ensures notifications == MarkAllRead(old(notifications))
      ensures old(Valid()) ==> Valid()
    {
      notifications := MarkAllRead(notifications);
    }

    method RemoveNotification(id: string)
      modifies this
      ensures notifications == Remove(old(notifications), id)
      ensures old(Valid()) ==> Valid()
    {
      notifications := Remove(notifications, id);
    }

    method ClearAll()
      modifies this
      ensures notifications == [] && Valid()
    {
      notifications := [];
    }

    function GetUnreadCount(): (r: nat)
      reads this
      ensures r <= |notifications|
    {
      UnreadCount(notifications)
    }
  }
}
