/** The notification panel (components/modals/NotificationModal.tsx): the
    relative age shown for a notification, computed from the time elapsed
    in milliseconds, and the unread counter in the header. */
module Notifications {
  import opened Types
  import opened Strings
  import opened Lists

  const MsPerMinute := 60000
  const MinutesPerHour := 60
  const MinutesPerDay := 1440

  /** `Math.floor(diffMs / 60000)`; for a positive divisor Dafny's division
      is already the floor. */
  function Minutes(diffMs: int): int {
    diffMs / MsPerMinute
  }

  /** The three ways an age is shown. */
  datatype Age = MinutesAgo(n: int) | HoursAgo(n: int) | DaysAgo(n: int)

  /** The branch `formatTimestamp` takes, with the number it prints. */
  function AgeOf(diffMs: int): Age {
    var m := Minutes(diffMs);
    if m < MinutesPerHour then MinutesAgo(m)
    else if m < MinutesPerDay then HoursAgo(m / MinutesPerHour)
    else DaysAgo(m / MinutesPerDay)
  }

  function Render(a: Age): string {
    match a
    case MinutesAgo(n) => IntToString(n) + "m ago"
    case HoursAgo(n) => IntToString(n) + "h ago"
    case DaysAgo(n) => IntToString(n) + "d ago"
  }

  /** `formatTimestamp`, as a function of the elapsed milliseconds. */
  function FormatTimestamp(diffMs: int): string {
    Render(AgeOf(diffMs))
  }

  /** The number shown is the floor of the elapsed time in the shown unit,
      and each bucket covers its range: minutes below 60 (including every
      future time, which gives a negative count), hours 1 to 23, days from 1
      upwards. */
  lemma AgeMeaning(diffMs: int)
    ensures AgeOf(diffMs).MinutesAgo? ==>
      AgeOf(diffMs).n < 60 && AgeOf(diffMs).n * 60000 <= diffMs < (AgeOf(diffMs).n + 1) * 60000
    ensures AgeOf(diffMs).HoursAgo? ==>
      1 <= AgeOf(diffMs).n <= 23 && AgeOf(diffMs).n * 3600000 <= diffMs < (AgeOf(diffMs).n + 1) * 3600000
    ensures AgeOf(diffMs).DaysAgo? ==>
      1 <= AgeOf(diffMs).n && AgeOf(diffMs).n * 86400000 <= diffMs < (AgeOf(diffMs).n + 1) * 86400000
    ensures diffMs < 0 ==> AgeOf(diffMs).MinutesAgo? && AgeOf(diffMs).n < 0
  {
    var m := Minutes(diffMs);
    assert m * 60000 <= diffMs < m * 60000 + 60000;
    if 60 <= m < 1440 {
      var h := m / 60;
      assert h * 60 <= m < h * 60 + 60;
    } else if 1440 <= m {
      var days := m / 1440;
      assert days * 1440 <= m < days * 1440 + 1440;
    }
  }

  function UnitLetter(a: Age): char {
    match a
    case MinutesAgo(_) => 'm'
    case HoursAgo(_) => 'h'
    case DaysAgo(_) => 'd'
  }

  /** The text is the count followed by the unit letter and " ago", and the
      count reads back from it. */
  lemma RenderRoundTrip(a: Age)
    ensures |Render(a)| > 5
    ensures Render(a)[|Render(a)| - 5..] == [UnitLetter(a)] + " ago"
    ensures ParseInt(Render(a)[..|Render(a)| - 5]) == a.n
  {
    var digits := IntToString(a.n);
    assert Render(a) == digits + ([UnitLetter(a)] + " ago");
    assert Render(a)[..|Render(a)| - 5] == digits;
    IntToStringRoundTrip(a.n);
  }

  datatype NotificationKind = Info | Success | Warning | Failure

  datatype Notification = Notification(id: string, title: string, message: string,
                                       kind: NotificationKind, timestamp: string, read: bool)

  /** `mockNotifications`: two unread, three read. */
  const MockNotifications: seq<Notification> := [
    Notification("1", "Task Overdue", "Task TS-6465 is now overdue and requires immediate attention.",
                 Failure, "2024-07-28T10:30:00Z", false),
    Notification("2", "New Task Assigned", "You have been assigned a new task: Office Health Audit.",
                 Info, "2024-07-28T09:15:00Z", false),
    Notification("3", "Task Completed", "Task TS-6468 has been successfully completed.",
                 Success, "2024-07-28T08:45:00Z", true),
    Notification("4", "Approaching Deadline", "Task TS-6407 is due in 2 hours.",
                 Warning, "2024-07-28T07:30:00Z", true),
    Notification("5", "System Maintenance", "Scheduled maintenance will occur tonight from 2:00 AM to 4:00 AM.",
                 Info, "2024-07-27T16:00:00Z", true)
  ]

  function UnreadCount(ns: seq<Notification>): nat {
    |Filter(ns, (n: Notification) => !n.read)|
  }

  /** The header line under the title: absent when nothing is unread, and
      plural unless exactly one is. */
  function Subtitle(count: int): Option<string> {
    if count > 0 then Some(IntToString(count) + " unread notification" + (if count != 1 then "s" else ""))
    else None
  }

  /** Every notification is either read or unread. */
  lemma {:induction false} ReadPartition(ns: seq<Notification>)
    ensures UnreadCount(ns) + |Filter(ns, (n: Notification) => n.read)| == |ns|
  {
    if ns != [] {
      ReadPartition(ns[1..]);
      assert ns == [ns[0]] + ns[1..];
      FilterAppend([ns[0]], ns[1..], (n: Notification) => !n.read);
      FilterAppend([ns[0]], ns[1..], (n: Notification) => n.read);
    }
  }

  /** The singular wording for one unread notification. */
  lemma SubtitleOne(s: string)
    requires s == "1 unread notification"
    ensures Subtitle(1) == Some(s)
  {
    assert IntToString(1) == [DigitChar(1)] == "1";
    var a := "1" + " unread notification" + "";
    assert Subtitle(1).value == a;
    assert |a| == |s|;
    forall i | 0 <= i < |a| ensures a[i] == s[i] { }
    assert a == s;
  }

  /** The plural wording for two unread notifications. */
  lemma SubtitleTwo(s: string)
    requires s == "2 unread notifications"
    ensures Subtitle(2) == Some(s)
  {
    assert IntToString(2) == [DigitChar(2)] == "2";
    var a := "2" + " unread notification" + "s";
    assert Subtitle(2).value == a;
    assert |a| == |s|;
    forall i | 0 <= i < |a| ensures a[i] == s[i] { }
    assert a == s;
  }

  /** The subtitle shows exactly when something is unread, and says
      "notifications" unless exactly one is. */
  lemma SubtitleMeaning(count: int)
    ensures Subtitle(count).Some? <==> count > 0
    ensures count == 1 ==> Subtitle(count) == Some("1 unread notification")
    ensures count == 2 ==> Subtitle(count) == Some("2 unread notifications")
    ensures count > 1 ==> Subtitle(count).value[|Subtitle(count).value| - 1] == 's'
  {
    if count == 1 {
      SubtitleOne("1 unread notification");
    }
    if count == 2 {
      SubtitleTwo("2 unread notifications");
    }
  }

  function CountUnset(flags: seq<bool>): nat {
    if flags == [] then 0 else (if flags[0] then 0 else 1) + CountUnset(flags[1..])
  }

  /** The unread count depends only on the sequence of read flags. */
  lemma {:induction false} UnreadFromFlags(ns: seq<Notification>, flags: seq<bool>)
    requires |flags| == |ns| && forall i :: 0 <= i < |ns| ==> ns[i].read == flags[i]
    ensures UnreadCount(ns) == CountUnset(flags)
  {
    if ns != [] {
      UnreadFromFlags(ns[1..], flags[1..]);
      assert ns == [ns[0]] + ns[1..];
      FilterAppend([ns[0]], ns[1..], (n: Notification) => !n.read);
    }
  }

  /** Two of the five sample notifications are unread. */
  lemma MockUnread()
    ensures UnreadCount(MockNotifications) == 2
  {
    var flags := [false, false, true, true, true];
    assert CountUnset(flags) == 2;
    UnreadFromFlags(MockNotifications, flags);
  }

  /** So the header reads "2 unread notifications". */
  lemma MockSubtitle()
    ensures Subtitle(UnreadCount(MockNotifications)) == Some("2 unread notifications")
  {
    MockUnread();
    SubtitleMeaning(2);
  }
}
