/**
 * Fox's notifications (backend/core/smart_notifications.py): creating them,
 * deciding which are due under the settings and the quiet hours, marking
 * them sent or read, dropping old ones and counting them. Clock readings are
 * seconds; times of day are seconds after midnight; the formatted clock text
 * of an id is given by the caller. The two JSON files are the fields.
 */
module SmartNotifications {
  import opened Common
  import opened OrderedMap

  datatype Notification = Notification(id: string, title: string, message: string, kind: string, priority: int,
                                       scheduledTime: int, createdTime: int, isRead: bool, isSent: bool, userId: string)

  /** The quiet hours, as times of day. */
  datatype QuietHours = QuietHours(start: int, end: int)

  datatype Settings = Settings(enabled: bool, quietHours: QuietHours, notificationTypes: seq<(string, bool)>)

  const DefaultUser: string := "default"

  /** The type switches of the default settings. */
  const DefaultTypeFlags: seq<(string, bool)> :=
    [("reminders", true), ("suggestions", true), ("follow_ups", true), ("achievements", true)]

  /** The default settings: enabled, quiet from 22:00 to 08:00. */
  const DefaultSettings: Settings := Settings(true, QuietHours(22 * 3600, 8 * 3600), DefaultTypeFlags)

  /** The types the notifications themselves carry. */
  const NotificationKinds: seq<string> := ["reminder", "suggestion", "follow_up", "achievement", "summary"]

  const SecondsPerDay: int := 86400

  /**
   * Within the quiet hours, both ends included; a start after the end wraps
   * past midnight.
   */
  predicate IsQuiet(t: int, q: QuietHours) {
    if q.start > q.end then t >= q.start || t <= q.end
    else q.start <= t <= q.end
  }

  /** `should_send_notification` at clock reading `now`. */
  predicate ShouldSend(s: Settings, n: Notification, now: int) {
    s.enabled && GetOr(s.notificationTypes, n.kind, true) && !IsQuiet(now % SecondsPerDay, s.quietHours)
  }

  /** Disabled notifications and switched-off types are never sent; otherwise only the quiet hours decide. */
  lemma ShouldSendCases(s: Settings, n: Notification, now: int)
    ensures !s.enabled ==> !ShouldSend(s, n, now)
    ensures Get(s.notificationTypes, n.kind) == Some(false) ==> !ShouldSend(s, n, now)
    ensures s.enabled && Get(s.notificationTypes, n.kind) != Some(false) ==>
      (ShouldSend(s, n, now) <==> !IsQuiet(now % SecondsPerDay, s.quietHours))
  {
  }

  /** The quiet-hours test spelled out for both shapes of the interval. */
  lemma QuietCases(t: int, q: QuietHours)
    ensures q.start > q.end ==> (IsQuiet(t, q) <==> t >= q.start || t <= q.end)
    ensures q.start <= q.end ==> (IsQuiet(t, q) <==> q.start <= t && t <= q.end)
    ensures IsQuiet(q.start, q) && IsQuiet(q.end, q)
  {
  }

  /**
   * The default switches are named in the plural and no notification type
   * is, so none of them is ever looked up: every type falls back to sending.
   */
  lemma DefaultSwitchesNeverMatch(n: Notification, now: int)
    requires n.kind in NotificationKinds
    ensures Get(DefaultTypeFlags, n.kind) == None
    ensures ShouldSend(DefaultSettings, n, now) <==> !IsQuiet(now % SecondsPerDay, DefaultSettings.quietHours)
  {
    var keys := Keys(DefaultTypeFlags);
    assert forall i :: 0 <= i < |keys| ==> EndsInS(keys[i]);
    assert !EndsInS(n.kind);
  }

  predicate EndsInS(w: string) { |w| > 0 && w[|w| - 1] == 's' }

  /** Not sent yet, due by `now`, and allowed by the settings. */
  predicate IsPending(s: Settings, n: Notification, now: int) {
    !n.isSent && n.scheduledTime <= now && ShouldSend(s, n, now)
  }

  function PendingAt(s: Settings, now: int): Notification -> bool {
    (n: Notification) => IsPending(s, n, now)
  }

  function WithId(id: string): Notification -> bool {
    (n: Notification) => n.id == id
  }

  function Unread(): Notification -> bool {
    (n: Notification) => n.isSent && !n.isRead
  }

  function Sent(): Notification -> bool {
    (n: Notification) => n.isSent
  }

  function Read(): Notification -> bool {
    (n: Notification) => n.isRead
  }

  function CreatedAfter(cutoff: int): Notification -> bool {
    (n: Notification) => n.createdTime > cutoff
  }

  /** The notifications after the first one with `id` is marked sent (or read). */
  function Marked(ns: seq<Notification>, id: string, read: bool): (r: seq<Notification>)
    ensures |r| == |ns|
  {
    var i := FirstIndex(ns, WithId(id));
    if i < |ns| then ns[i := if read then ns[i].(isRead := true) else ns[i].(isSent := true)] else ns
  }

  /**
   * Marking touches the first notification with that id and its one flag
   * only; with no such notification nothing changes.
   */
  lemma MarkedOnlyFirst(ns: seq<Notification>, id: string, read: bool)
    ensures var r := Marked(ns, id, read); var i := FirstIndex(ns, WithId(id));
      (forall j :: 0 <= j < |ns| && j != i ==> r[j] == ns[j])
      && (i < |ns| ==> ns[i].id == id && r[i] == if read then ns[i].(isRead := true) else ns[i].(isSent := true))
      && (forall j :: 0 <= j < i ==> ns[j].id != id)
      && ((forall j :: 0 <= j < |ns| ==> ns[j].id != id) ==> r == ns)
  {
    FirstIndexSpec(ns, WithId(id));
    var i := FirstIndex(ns, WithId(id));
    if i < |ns| {
      assert WithId(id)(ns[i]);
    }
  }

  datatype NotificationStats = NotificationStats(total: nat, sent: nat, read: nat, pending: nat)

  /** The counts of `get_notification_stats`; the read rate is not modelled. */
  function Stats(ns: seq<Notification>, s: Settings, now: int): NotificationStats {
    NotificationStats(|ns|, CountIf(ns, Sent()), CountIf(ns, Read()), |Filter(ns, PendingAt(s, now))|)
  }

  /** Pending notifications are unsent, so sent and pending together are at most the total. */
  lemma StatsBounds(ns: seq<Notification>, s: Settings, now: int)
    ensures var st := Stats(ns, s, now);
      st.sent <= st.total && st.read <= st.total && st.pending <= st.total && st.sent + st.pending <= st.total
  {
    CountIfDisjoint(ns, Sent(), PendingAt(s, now));
  }

  /** `settings.update(new_settings)` for the keys the model keeps: each given key replaces the old value. */
  datatype SettingsUpdate = SettingsUpdate(enabled: Option<bool>, quietHours: Option<QuietHours>,
                                           notificationTypes: Option<seq<(string, bool)>>)

  function Updated(s: Settings, u: SettingsUpdate): (r: Settings)
    ensures u.enabled.None? ==> r.enabled == s.enabled
    ensures u.enabled.Some? ==> r.enabled == u.enabled.value
    ensures u.quietHours.None? ==> r.quietHours == s.quietHours
    ensures u.quietHours.Some? ==> r.quietHours == u.quietHours.value
    ensures u.notificationTypes.None? ==> r.notificationTypes == s.notificationTypes
    ensures u.notificationTypes.Some? ==> r.notificationTypes == u.notificationTypes.value
  {
    Settings(u.enabled.GetOr(s.enabled), u.quietHours.GetOr(s.quietHours), u.notificationTypes.GetOr(s.notificationTypes))
  }

  const IdPrefix: string := "notif_"

  class SmartNotifications {
    var notifications: seq<Notification>
    var settings: Settings

    /** `load_data`: the files when they exist, no notifications and the default settings otherwise. */
    constructor (storedNotifications: Option<seq<Notification>>, storedSettings: Option<Settings>)
      ensures notifications == storedNotifications.GetOr([]) && settings == storedSettings.GetOr(DefaultSettings)
    {
      notifications := storedNotifications.GetOr([]);
      settings := storedSettings.GetOr(DefaultSettings);
    }

    /**
     * `create_notification`: `stamp` is the clock formatted as `%Y%m%d_%H%M%S`;
     * the notification is due `minutes` after `now`, unread and unsent.
     */
    method CreateNotification(title: string, message: string, kind: string, priority: int, minutes: int,
                              now: int, stamp: string) returns (id: string)
      modifies this
      ensures id == IdPrefix + stamp
      ensures notifications == old(notifications) + [Notification(id, title, message, kind, priority, now + minutes * 60, now, false, false, DefaultUser)]
      ensures settings == old(settings)
    {
      id := IdPrefix + stamp;
      var scheduled := now + minutes * 60;
      notifications := notifications + [Notification(id, title, message, kind, priority, scheduled, now, false, false, DefaultUser)];
    }

    /** `should_send_notification` */
    predicate ShouldSendNotification(n: Notification, now: int)
      reads this
      ensures !settings.enabled ==> !ShouldSendNotification(n, now)
      ensures Get(settings.notificationTypes, n.kind) == Some(false) ==> !ShouldSendNotification(n, now)
      ensures settings.enabled && Get(settings.notificationTypes, n.kind) != Some(false) ==>
        (ShouldSendNotification(n, now) <==> !IsQuiet(now % SecondsPerDay, settings.quietHours))
    {
      ShouldSendCases(settings, n, now);
      ShouldSend(settings, n, now)
    }

    /** `get_pending_notifications` */
    method GetPendingNotifications(now: int) returns (pending: seq<Notification>)
      ensures pending == Filter(notifications, PendingAt(settings, now))
      ensures forall n :: n in pending <==> n in notifications && IsPending(settings, n, now)
    {
      pending := PendingOf(notifications, settings, now);
      forall n | n in notifications && IsPending(settings, n, now) ensures n in pending {
        FilterKeeps(notifications, PendingAt(settings, now), n);
      }
    }

    /** The loop of `get_pending_notifications`. */
    static method PendingOf(ns: seq<Notification>, s: Settings, now: int) returns (pending: seq<Notification>)
      ensures pending == Filter(ns, PendingAt(s, now))
    {
      pending := [];
      var i := 0;
      while i < |ns|
        invariant 0 <= i <= |ns|
        invariant pending == Filter(ns[..i], PendingAt(s, now))
      {
        FilterStep(ns, i, PendingAt(s, now));
        if IsPending(s, ns[i], now) {
          pending := pending + [ns[i]];
        }
        i := i + 1;
      }
      assert ns[..i] == ns;
    }

    /** The search loop of `mark_as_sent` and `mark_as_read`. */
    static method FirstWithId(ns: seq<Notification>, id: string) returns (i: nat)
      ensures i == FirstIndex(ns, WithId(id))
    {
      i := 0;
      while i < |ns|
        invariant 0 <= i <= |ns|
        invariant forall j :: 0 <= j < i ==> !WithId(id)(ns[j])
      {
        if ns[i].id == id {
          FirstIndexAt(ns, WithId(id), i);
          return;
        }
        i := i + 1;
      }
      FirstIndexAt(ns, WithId(id), i);
    }

    /** `mark_as_sent` */
    method MarkAsSent(id: string)
      modifies this
      ensures notifications == Marked(old(notifications), id, false) && settings == old(settings)
    {
      var i := FirstWithId(notifications, id);
      if i < |notifications| {
        notifications := notifications[i := notifications[i].(isSent := true)];
      }
    }

    /** `mark_as_read` */
    method MarkAsRead(id: string)
      modifies this
      ensures notifications == Marked(old(notifications), id, true) && settings == old(settings)
    {
      var i := FirstWithId(notifications, id);
      if i < |notifications| {
        notifications := notifications[i := notifications[i].(isRead := true)];
      }
    }

    /** `get_unread_notifications`: the sent notifications not yet read, in order. */
    function GetUnreadNotifications(): (r: seq<Notification>)
      reads this
      ensures forall n :: n in r <==> n in notifications && n.isSent && !n.isRead
    {
      var r := Filter(notifications, Unread());
      forall n | n in notifications && n.isSent && !n.isRead ensures n in r {
        FilterKeeps(notifications, Unread(), n);
      }
      r
    }

    /** `cleanup_old_notifications`: keeps, in order, those created after `days` days before `now`. */
    method CleanupOldNotifications(days: int, now: int)
      modifies this
      ensures notifications == Filter(old(notifications), CreatedAfter(now - days * SecondsPerDay))
      ensures forall n :: n in notifications <==> n in old(notifications) && n.createdTime > now - days * SecondsPerDay
      ensures settings == old(settings)
    {
      var cutoff := now - days * SecondsPerDay;
      ghost var ns := notifications;
      notifications := Filter(notifications, CreatedAfter(cutoff));
      forall n | n in ns && n.createdTime > cutoff ensures n in notifications {
        FilterKeeps(ns, CreatedAfter(cutoff), n);
      }
    }

    /** `update_settings` */
    method UpdateSettings(u: SettingsUpdate)
      modifies this
      ensures settings == Updated(old(settings), u) && notifications == old(notifications)
    {
      settings := Updated(settings, u);
    }

    /** `get_notification_stats` */
    function GetNotificationStats(now: int): (st: NotificationStats)
      reads this
      ensures st.total == |notifications|
      ensures st.sent == CountIf(notifications, Sent()) && st.read == CountIf(notifications, Read())
      ensures st.pending == |Filter(notifications, PendingAt(settings, now))|
      ensures st.sent <= st.total && st.read <= st.total && st.pending <= st.total && st.sent + st.pending <= st.total
    {
      StatsBounds(notifications, settings, now);
      Stats(notifications, settings, now)
    }
  }
}
