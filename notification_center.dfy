/**
 * The notification bell and panel: the relative age of each notification,
 * the unread badge, the type colour and what a click on a notification does.
 */
module NotificationCenter {
  import opened Wrappers
  import opened Text
  import opened NotificationContext

  /** The age of a notification, in the whole unit the panel shows. */
  datatype Elapsed = JustNow | MinutesAgo(minutes: nat) | HoursAgo(hours: nat) | DaysAgo(days: nat)

  const MinuteMs: nat := 60000
  const HourMs: nat := 3600000
  const DayMs: nat := 86400000

  /**
   * The classification inside `formatTime`, for `diff` milliseconds elapsed
   * (negative when the timestamp lies in the future): each band is a whole
   * number of its unit, rounded down.
   */
  function ElapsedOf(diff: int): (e: Elapsed)
    ensures e.JustNow? <==> diff < MinuteMs
    ensures e.MinutesAgo? <==> MinuteMs <= diff < HourMs
    ensures e.HoursAgo? <==> HourMs <= diff < DayMs
    ensures e.DaysAgo? <==> DayMs <= diff
    ensures e.MinutesAgo? ==> 1 <= e.minutes < 60 && e.minutes * MinuteMs <= diff < (e.minutes + 1) * MinuteMs
    ensures e.HoursAgo? ==> 1 <= e.hours < 24 && e.hours * HourMs <= diff < (e.hours + 1) * HourMs
    ensures e.DaysAgo? ==> 1 <= e.days && e.days * DayMs <= diff < (e.days + 1) * DayMs
  {
    var minutes := diff / 60000;
    var hours := diff / 3600000;
    var days := diff / 86400000;
    if minutes < 1 then JustNow
    else if minutes < 60 then MinutesAgo(minutes)
    else if hours < 24 then HoursAgo(hours)
    else DaysAgo(days)
  }

  function ElapsedText(e: Elapsed): (r: string)
    ensures |r| >= 6
  {
    match e
    case JustNow => "Just now"
    case MinutesAgo(m) => NatToString(m) + "m ago"
    case HoursAgo(h) => NatToString(h) + "h ago"
    case DaysAgo(d) => NatToString(d) + "d ago"
  }

  /** `formatTime(date)`, given the milliseconds elapsed since `date`. */
  function FormatTime(diff: int): (r: string)
    ensures r == "Just now" <==> diff < MinuteMs
  {
    var e := ElapsedOf(diff);
    ElapsedTextInjective(e, JustNow);
    ElapsedText(e)
  }

  /** Distinct ages read differently: the unit letter and the number can be read back. */
  lemma ElapsedTextInjective(a: Elapsed, b: Elapsed)
    ensures ElapsedText(a) == ElapsedText(b) <==> a == b
  {
    if ElapsedText(a) == ElapsedText(b) {
      var t := ElapsedText(a);
      if a.JustNow? || b.JustNow? {
        CountedIsNotJustNow(a);
        CountedIsNotJustNow(b);
      } else {
        var na, nb := NatToString(UnitCount(a)), NatToString(UnitCount(b));
        assert |na| == |nb|;
        assert t[..|na|] == na;
        assert t[..|nb|] == nb;
        NatToStringInjective(UnitCount(a), UnitCount(b));
        assert t[|na|] == ElapsedText(a)[|na|] == ElapsedText(b)[|nb|];
      }
    }
  }

  lemma CountedIsNotJustNow(e: Elapsed)
    ensures !e.JustNow? ==> ElapsedText(e) != "Just now"
  {
    if !e.JustNow? {
      assert '0' <= ElapsedText(e)[0] <= '9' by {
        assert ElapsedText(e)[0] == NatToString(UnitCount(e))[0];
      }
      assert "Just now"[0] == 'J';
    }
  }

  function UnitCount(e: Elapsed): nat
  {
    match e
    case JustNow => 0
    case MinutesAgo(m) => m
    case HoursAgo(h) => h
    case DaysAgo(d) => d
  }

  /** Two times show the same text exactly when they fall into the same whole unit. */
  lemma SameTextSameUnit(d1: int, d2: int)
    ensures FormatTime(d1) == FormatTime(d2) <==> ElapsedOf(d1) == ElapsedOf(d2)
  {
    ElapsedTextInjective(ElapsedOf(d1), ElapsedOf(d2));
  }

  /** The unread badge: hidden at 0, the count up to 99, `99+` above. */
  function BadgeText(unreadCount: nat): (r: Option<string>)
    ensures r.Some? <==> unreadCount > 0
    ensures r.Some? ==> 1 <= |r.value| <= 3
    ensures 0 < unreadCount <= 99 ==> r.Some? && ParseDecimal(r.value) == unreadCount && IsDigits(r.value)
    ensures unreadCount > 99 ==> r == Some("99+")
  {
    if unreadCount > 0 then
      if unreadCount > 99 then Some("99+")
      else
        ParsePrinted(unreadCount);
        NatToStringBelow100(unreadCount);
        Some(NatToString(unreadCount))
    else None
  }

  /** `getTypeColor(type)`: every type but `info` has its own colour; `info` takes the default. */
  function TypeColor(kind: NotificationType): (r: string)
    ensures r == "text-blue-400" <==> kind == Info
    ensures r == "text-purple-400" <==> kind == AchievementNotice
  {
    match kind
    case Success => "text-green-400"
    case Warning => "text-yellow-400"
    case Error => "text-red-400"
    case AchievementNotice => "text-purple-400"
    case Info => "text-blue-400"
  }

  /** Different types get different colours. */
  lemma TypeColorInjective(a: NotificationType, b: NotificationType)
    ensures TypeColor(a) == TypeColor(b) <==> a == b
  {
  }

  /** A link is followed only when it is present and not the empty string. */
  predicate HasLink(n: Notification)
  {
    n.actionUrl.Some? && n.actionUrl.value != ""
  }

  class NotificationPanel {
    const store: NotificationStore
    var isOpen: bool
    /** The route the panel navigated to last, if any. */
    var route: Option<string>

    constructor (s: NotificationStore)
      ensures store == s && !isOpen && route == None
    {
      store := s;
      isOpen := false;
      route := None;
    }

    /** `handleNotificationClick`: always marks the notification read; follows its link and closes the panel only when it has one. */
    method HandleNotificationClick(n: Notification)
      modifies this, store
      ensures store.notifications == MarkRead(old(store.notifications), n.id)
      ensures HasLink(n) ==> route == n.actionUrl && !isOpen
      ensures !HasLink(n) ==> route == old(route) && isOpen == old(isOpen)
    {
      store.MarkAsRead(n.id);
      if n.actionUrl.Some? && n.actionUrl.value != "" {
        route := n.actionUrl;
        isOpen := false;
      }
    }

    method ToggleOpen()
      modifies this
      ensures isOpen == !old(isOpen) && route == old(route)
    {
      isOpen := !isOpen;
    }
  }

  /** After a click the clicked notification is read, whatever else happens. */
  lemma ClickMarksRead(list: seq<Notification>, n: Notification, i: nat)
    requires i < |list| && list[i].id == n.id
    ensures MarkRead(list, n.id)[i].read
  {
  }
}
