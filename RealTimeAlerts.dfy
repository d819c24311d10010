/** The real-time alert feed (src/components/RealTimeAlerts.tsx): the list of
    alerts that the initial fetch fills, that INSERT events prepend to and
    that mark-as-read and dismiss rewrite; the unread count, the badge
    colour of a severity and the "time ago" label. */
module RealTimeAlerts {
  import opened Js
  import Seqs

  /** A row of the `alerts` table; `createdAt` is a clock reading in ms. */
  datatype Alert = Alert(
    id: string,
    message: string,
    severity: string,
    isRead: bool,
    createdAt: int,
    patientId: string,
    alertType: string)

  /** The test of the unread count's filter. */
  predicate IsUnread(a: Alert)
  {
    !a.isRead
  }

  /** `alerts.filter(a => !a.is_read).length`. */
  function Unread(alerts: seq<Alert>): (n: nat)
    ensures n <= |alerts|
    ensures n == 0 <==> forall i :: 0 <= i < |alerts| ==> alerts[i].isRead
  {
    Seqs.Count(alerts, IsUnread)
  }

  /** The `markAsRead` map: alerts with the id become read. */
  function MarkRead(alerts: seq<Alert>, id: string): (r: seq<Alert>)
    ensures |r| == |alerts|
    ensures forall i :: 0 <= i < |r| ==>
      r[i] == if alerts[i].id == id then alerts[i].(isRead := true) else alerts[i]
  {
    if alerts == [] then []
    else [if alerts[0].id == id then alerts[0].(isRead := true) else alerts[0]] + MarkRead(alerts[1..], id)
  }

  /** The test of `dismissAlert`'s filter: `a => a.id !== id`. */
  function OtherThan(id: string): Alert -> bool
  {
    (a: Alert) => a.id != id
  }

  /** The `dismissAlert` filter: alerts with the id are removed. */
  function Dismiss(alerts: seq<Alert>, id: string): (r: seq<Alert>)
    ensures |r| <= |alerts|
    ensures forall i :: 0 <= i < |r| ==> r[i].id != id && r[i] in alerts
    ensures forall i :: 0 <= i < |alerts| && alerts[i].id != id ==> alerts[i] in r
    ensures Seqs.SubsequenceOf(r, alerts)
  {
    Seqs.Filter(alerts, OtherThan(id))
  }

  /** Marking the same alert twice is the same as marking it once. */
  lemma MarkReadIdempotent(alerts: seq<Alert>, id: string)
    ensures MarkRead(MarkRead(alerts, id), id) == MarkRead(alerts, id)
  {
  }

  /** After marking, no alert with that id is unread. */
  lemma MarkReadClearsId(alerts: seq<Alert>, id: string, i: int)
    requires 0 <= i < |alerts| && alerts[i].id == id
    ensures MarkRead(alerts, id)[i].isRead
  {
  }

  /** Marking as read never raises the unread count. */
  lemma {:induction false} MarkReadUnreadNonIncreasing(alerts: seq<Alert>, id: string)
    ensures Unread(MarkRead(alerts, id)) <= Unread(alerts)
  {
    if alerts != [] {
      assert MarkRead(alerts, id)[1..] == MarkRead(alerts[1..], id);
      MarkReadUnreadNonIncreasing(alerts[1..], id);
    }
  }

  /** Dismissing never raises the unread count either. */
  lemma DismissUnreadNonIncreasing(alerts: seq<Alert>, id: string)
    ensures Unread(Dismiss(alerts, id)) <= Unread(alerts)
  {
    Seqs.CountAfterFilter(alerts, IsUnread, OtherThan(id));
  }

  /** Dismissing keeps every other alert exactly as many times as it was
      listed, and drops every copy of the dismissed one. */
  lemma DismissMultiplicity(alerts: seq<Alert>, id: string, a: Alert)
    ensures multiset(Dismiss(alerts, id))[a] == if a.id == id then 0 else multiset(alerts)[a]
  {
    Seqs.FilterMultiplicity(alerts, OtherThan(id), a);
  }

  /** Dismissing keeps the surviving alerts in their order: it is the same
      as removing every alert with the id from either part of the list. */
  lemma DismissAppend(a: seq<Alert>, b: seq<Alert>, id: string)
    ensures Dismiss(a + b, id) == Dismiss(a, id) + Dismiss(b, id)
  {
    Seqs.FilterAppend(a, b, OtherThan(id));
  }

  /** An inserted alert adds one to the unread count unless it arrives read. */
  lemma PrependUnread(a: Alert, alerts: seq<Alert>)
    ensures Unread([a] + alerts) == Unread(alerts) + (if a.isRead then 0 else 1)
  {
    assert ([a] + alerts)[1..] == alerts;
  }

  /** `getSeverityColor`: critical and high share the destructive variant. */
  function SeverityColor(severity: string): (variant: string)
    ensures variant == "destructive" <==> severity == "critical" || severity == "high"
    ensures variant == "default" <==> severity == "moderate"
    ensures variant == "secondary" <==> severity !in {"critical", "high", "moderate"}
  {
    match severity
    case "critical" => "destructive"
    case "high" => "destructive"
    case "moderate" => "default"
    case _ => "secondary"
  }

  /** The title of the toast shown for an inserted alert. */
  function ToastTitle(severity: string): (title: string)
    ensures title == "Critical Alert" <==> severity == "critical"
    ensures title == "High Priority Alert" <==> severity == "high"
    ensures title == "New Alert" <==> severity != "critical" && severity != "high"
  {
    if severity == "critical" then "Critical Alert"
    else if severity == "high" then "High Priority Alert"
    else "New Alert"
  }

  /** The label of `getTimeAgo`, with the number it shows. */
  datatype Ago = JustNow | MinutesAgo(minutes: int) | HoursAgo(hours: int) | DaysAgo(days: int)

  /** `getTimeAgo` for an age of `diffMs` milliseconds.  Dafny's `/` by a
      positive constant is floor division, as `Math.floor` is. */
  function TimeAgo(diffMs: int): (a: Ago)
    ensures a.JustNow? <==> diffMs < 60000
    ensures a.MinutesAgo? <==> 60000 <= diffMs < 3600000
    ensures a.HoursAgo? <==> 3600000 <= diffMs < 86400000
    ensures a.DaysAgo? <==> 86400000 <= diffMs
    ensures a.MinutesAgo? ==> 1 <= a.minutes < 60 && a.minutes * 60000 <= diffMs < (a.minutes + 1) * 60000
    ensures a.HoursAgo? ==> 1 <= a.hours < 24 && a.hours * 3600000 <= diffMs < (a.hours + 1) * 3600000
    ensures a.DaysAgo? ==> 1 <= a.days && a.days * 86400000 <= diffMs < (a.days + 1) * 86400000
  {
    var diffMins := diffMs / 60000;
    if diffMins < 1 then JustNow
    else if diffMins < 60 then MinutesAgo(diffMins)
    else
      var diffHours := diffMins / 60;
      if diffHours < 24 then HoursAgo(diffHours)
      else DaysAgo(diffHours / 24)
  }

  /** `t` is the decimal text of `n` followed by `unit`. */
  predicate Shows(t: string, n: int, unit: string)
  {
    |t| >= |unit| && t[|t| - |unit|..] == unit && t[..|t| - |unit|] == DecimalText(n)
  }

  /** The text of the label: "Just now", or the count and its unit. */
  function AgoText(a: Ago): (t: string)
    ensures a.JustNow? ==> t == "Just now"
    ensures a.MinutesAgo? ==> Shows(t, a.minutes, "m ago")
    ensures a.HoursAgo? ==> Shows(t, a.hours, "h ago")
    ensures a.DaysAgo? ==> Shows(t, a.days, "d ago")
  {
    match a
    case JustNow => "Just now"
    case MinutesAgo(m) => DecimalText(m) + "m ago"
    case HoursAgo(h) => DecimalText(h) + "h ago"
    case DaysAgo(d) => DecimalText(d) + "d ago"
  }

  /** Different labels read differently: the unit letter tells the units
      apart and the digits tell the counts apart. */
  lemma AgoTextDistinct(a: Ago, b: Ago)
    requires a != b
    ensures AgoText(a) != AgoText(b)
  {
    var s, t := AgoText(a), AgoText(b);
    if s == t {
      match a
      case JustNow =>
      case MinutesAgo(m) => if b.MinutesAgo? { DecimalTextInjective(m, b.minutes); }
      case HoursAgo(h) => if b.HoursAgo? { DecimalTextInjective(h, b.hours); }
      case DaysAgo(d) => if b.DaysAgo? { DecimalTextInjective(d, b.days); }
    }
  }

  /** An older alert never shows a smaller age in the same unit. */
  lemma TimeAgoMonotone(x: int, y: int)
    requires x <= y
    ensures TimeAgo(x).MinutesAgo? && TimeAgo(y).MinutesAgo? ==> TimeAgo(x).minutes <= TimeAgo(y).minutes
    ensures TimeAgo(x).DaysAgo? ==> TimeAgo(y).DaysAgo? && TimeAgo(x).days <= TimeAgo(y).days
  {
  }

  /** The alert panel and its state. */
  class AlertFeed {
    var alerts: seq<Alert>
    var loading: bool

    constructor ()
      ensures alerts == [] && loading
    {
      alerts := [];
      loading := true;
    }

    /** The count reported through `onAlertCountChange` and on the badge. */
    function UnreadCount(): (n: nat)
      reads this
      ensures n == Unread(alerts)
      ensures n <= |alerts|
    {
      Unread(alerts)
    }

    /** `fetchAlerts`: `rows` is the query's data, `None` when it failed. */
    method FetchAlerts(rows: Option<seq<Alert>>)
      modifies this`alerts, this`loading
      ensures alerts == (if rows.Some? then rows.value else old(alerts))
      ensures !loading
    {
      if rows.Some? {
        alerts := rows.value;
      }
      loading := false;
    }

    /** An INSERT event: the new alert goes first, the rest keep their order. */
    method OnInsert(a: Alert) returns (title: string)
      modifies this`alerts
      ensures alerts == [a] + old(alerts)
      ensures |alerts| == |old(alerts)| + 1 && alerts[1..] == old(alerts)
      ensures title == ToastTitle(a.severity)
    {
      alerts := [a] + alerts;
      title := ToastTitle(a.severity);
    }

    /** `markAsRead`: `ok` is whether the update succeeded. */
    method MarkAsRead(id: string, ok: bool)
      modifies this`alerts
      ensures alerts == (if ok then MarkRead(old(alerts), id) else old(alerts))
      ensures Unread(alerts) <= Unread(old(alerts))
    {
      if ok {
        MarkReadUnreadNonIncreasing(alerts, id);
        alerts := MarkRead(alerts, id);
      }
    }

    /** `dismissAlert`: `ok` is whether the delete succeeded. */
    method DismissAlert(id: string, ok: bool)
      modifies this`alerts
      ensures alerts == (if ok then Dismiss(old(alerts), id) else old(alerts))
      ensures Unread(alerts) <= Unread(old(alerts))
    {
      if ok {
        DismissUnreadNonIncreasing(alerts, id);
        alerts := Dismiss(alerts, id);
      }
    }
  }
}
