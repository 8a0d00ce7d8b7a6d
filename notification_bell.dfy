/** The header's notification bell (src/components/layout/notification-bell.tsx):
    relative times, the unread badge, the defaults for missing data, the
    per-type icon and the click rule of a listed notification.

    The clock is a parameter: "now" and the creation time are integer
    milliseconds since the epoch (parsing the ISO timestamp is not modelled). */
module NotificationBell {
  import opened Common
  import opened Types
  import opened QueryClient
  import NotificationQueries

  // ---------------------------------------------------------------------
  // timeAgo

  /** timeAgo: whole seconds, then minutes, hours and days, each a floor of
      the previous unit (Math.floor, which is Dafny's division for these
      positive divisors, also for a future timestamp). */
  function TimeAgo(nowMs: int, createdMs: int): string
  {
    var seconds := (nowMs - createdMs) / 1000;
    if seconds < 60 then "just now"
    else
      var minutes := seconds / 60;
      if minutes < 60 then IntToString(minutes) + "m ago"
      else
        var hours := minutes / 60;
        if hours < 24 then IntToString(hours) + "h ago"
        else
          var days := hours / 24;
          IntToString(days) + "d ago"
  }

  /** Flooring twice is flooring once by the product. */
  lemma FloorTwice(x: int, a: int, b: int)
    requires a > 0 && b > 0
    ensures (x / a) / b == x / (a * b)
  {
    var q := x / a;
    var r := x % a;
    var q2 := q / b;
    var r2 := q % b;
    assert x == a * q + r;
    assert q == b * q2 + r2;
    Regroup(a, b, q2, r2);
    MulBelow(a, r2, b);
    DivUnique(x, a * b, q2, a * r2 + r);
  }

  /** a * (b * q + r) == (a * b) * q + a * r. */
  lemma Regroup(a: int, b: int, q: int, r: int)
    ensures a * (b * q + r) == (a * b) * q + a * r
  {
    assert a * (b * q + r) == a * (b * q) + a * r;
    assert a * (b * q) == (a * b) * q;
  }

  /** For 0 <= r < b and a > 0, 0 <= a * r <= a * b - a. */
  lemma MulBelow(a: int, r: int, b: int)
    requires a > 0 && 0 <= r < b
    ensures 0 <= a * r <= a * b - a
  {
    assert a * (b - 1) == a * b - a;
    assert a * (b - 1) - a * r == a * (b - 1 - r);
  }

  /** The quotient is the only q with x == d * q + r and 0 <= r < d. */
  lemma DivUnique(x: int, d: int, q: int, r: int)
    requires d > 0 && x == d * q + r && 0 <= r < d
    ensures x / d == q
  {
    var k := x / d - q;
    assert d * k == r - x % d;
    assert k >= 1 ==> d * k >= d;
    assert k <= -1 ==> d * k <= -d;
  }

  /** The buckets of timeAgo, on the elapsed milliseconds: under a minute
      (also a future time) is "just now", then whole minutes under an hour,
      whole hours under a day, and whole days beyond. */
  lemma TimeAgoBuckets(nowMs: int, createdMs: int)
    ensures var e := nowMs - createdMs;
      TimeAgo(nowMs, createdMs) ==
        if e < 60000 then "just now"
        else if e < 3600000 then IntToString(e / 60000) + "m ago"
        else if e < 86400000 then IntToString(e / 3600000) + "h ago"
        else IntToString(e / 86400000) + "d ago"
  {
    var e := nowMs - createdMs;
    FloorTwice(e, 1000, 60);
    FloorTwice(e, 60000, 60);
    FloorTwice(e, 3600000, 24);
    DivBelow(e, 1000, 60);
    DivBelow(e, 60000, 60);
    DivBelow(e, 3600000, 24);
  }

  /** A floor is below n exactly when the dividend is below d * n. */
  lemma DivBelow(x: int, d: int, n: int)
    requires d > 0
    ensures x / d < n <==> x < d * n
  {
    var q := x / d;
    var r := x % d;
    assert x == d * q + r && 0 <= r < d;
    if q < n {
      MulMonotone(d, q, n - 1);
      assert d * (n - 1) == d * n - d;
    } else {
      MulMonotone(d, n, q);
    }
  }

  /** Multiplying by a positive number keeps order. */
  lemma MulMonotone(d: int, a: int, b: int)
    requires d > 0 && a <= b
    ensures d * a <= d * b
  {
    var c := b - a;
    assert d * b == d * a + d * c;
  }

  // ---------------------------------------------------------------------
  // Badge and defaults

  /** The unread badge: absent unless the count is positive, "99+" above 99,
      else the count itself. */
  function BadgeText(unreadCount: int): (r: Option<string>)
    ensures r.Some? <==> unreadCount > 0
    ensures unreadCount > 99 ==> r == Some("99+")
    ensures 0 < unreadCount <= 99 ==> r == Some(IntToString(unreadCount))
  {
    if unreadCount > 0 then Some(if unreadCount > 99 then "99+" else IntToString(unreadCount)) else None
  }

  /** The badge never needs more than three characters. */
  lemma BadgeShort(unreadCount: int)
    requires unreadCount > 0
    ensures |BadgeText(unreadCount).value| <= 3
  {
    if unreadCount <= 99 {
      if unreadCount >= 10 {
        assert NatToString(unreadCount) == NatToString(unreadCount / 10) + [DigitChar(unreadCount % 10)];
      }
    }
  }

  /** `countData?.data?.count ?? 0`: a missing count is zero. */
  function UnreadCount(count: Option<int>): (r: int)
    ensures count.None? ==> r == 0
    ensures count.Some? ==> r == count.value
  {
    count.GetOr(0)
  }

  /** With no data yet the bell shows no badge and the empty state. */
  lemma NoDataNoBadge()
    ensures BadgeText(UnreadCount(None)) == None && OrEmpty<Notification>(None) == []
  {
  }

  /** The bell lists at most five notifications: it asks for limit=5 only. */
  lemma BellListRequest()
    ensures NotificationQueries.NotificationsQuery(Some(NotificationQueries.ListParams(None, Some(5), None))).request.path
      == "/api/notifications?limit=5"
  {
    var params := Some(NotificationQueries.ListParams(None, Some(5), None));
    var cs := NotificationQueries.ListCandidates(params);
    var pairs := [("limit", "5")];
    assert IntToString(5) == "5";
    assert !cs[0].present && cs[1] == Candidate(true, "limit", "5") && !cs[2].present;
    assert Select(cs[3..]) == [];
    assert Select(cs[2..]) == [];
    assert Select(cs[1..]) == pairs;
    assert NotificationQueries.ListPairs(params) == pairs;
    assert Serialize(pairs) == "limit=5";
  }

  // ---------------------------------------------------------------------
  // Items

  const TypeIcons: map<string, string> := map[
    "task_assigned" := "\U{1F464}",
    "task_status_changed" := "\U{1F504}",
    "comment_added" := "\U{1F4AC}",
    "project_invited" := "\U{1F4E8}",
    "task_due_soon" := "\U{23F0}"]

  const FallbackIcon: string := "\U{1F514}"

  /** `TYPE_ICONS[type] ?? "🔔"`. */
  function TypeIcon(kind: string): (r: string)
    ensures kind in TypeIcons ==> r == TypeIcons[kind]
    ensures kind !in TypeIcons ==> r == FallbackIcon
  {
    if kind in TypeIcons then TypeIcons[kind] else FallbackIcon
  }

  /** Every known type has its own icon, different from the fallback bell. */
  lemma TypeIconsDistinct(a: string, b: string)
    requires a in TypeIcons && b in TypeIcons
    ensures TypeIcon(a) != FallbackIcon
    ensures TypeIcon(a) == TypeIcon(b) <==> a == b
  {
  }

  /** Clicking a listed notification: marks it read through the mark-read
      mutation when it is unread, and does nothing when it is already read. */
  function Click(n: Notification): (r: Option<Mutation>)
    ensures r.Some? <==> !n.read
    ensures r.Some? ==> r.value == NotificationQueries.MarkRead(n.id)
  {
    if !n.read then Some(NotificationQueries.MarkRead(n.id)) else None
  }
}
