/**
 * The two-hourly water reminder: the `reminderEnabled` flag, the toggle
 * button, `enableReminder`, and the effect that registers one interval while
 * the flag is on and clears it in its cleanup. Browser answers (whether a
 * `Notification` global exists, and its permission) are inputs; time is a
 * sequence of `Tick` calls, each naming the interval that fired.
 */
module Reminder {
  import opened Wrappers

  /** The values of `NotificationPermission`. */
  datatype Permission = Granted | Denied | Default

  /** The browser's side: no `Notification` global at all, or one with its current permission. */
  datatype NotificationEnv = NoNotificationApi | NotificationApi(permission: Permission)

  /** `2 * 60 * 60 * 1000` ms: two hours. */
  const ReminderPeriodMs: nat := 2 * 60 * 60 * 1000

  /** A handle returned by `setInterval`, with the period it was registered with. */
  datatype Interval = Interval(id: nat, periodMs: nat)

  const EnabledAlert: string := "✅ Reminder aktif! Kamu akan diingatkan setiap 2 jam"
  const EnabledUnsupportedAlert: string := "✅ Reminder aktif! (Browser tidak support notifikasi)"
  const NotificationTitle: string := "💧 Waktunya Minum Air!"
  const NotificationBody: string := "Jangan lupa minum air putih ya!"
  const ReminderAlert: string := "💧 Reminder: Waktunya minum air putih!"
  const MissingNotificationError: string := "ReferenceError: Notification is not defined"

  /** What `enableReminder` decides once `requestPermission` (if there is one) has answered. */
  datatype EnableOutcome = EnableOutcome(enable: bool, alert: Option<string>)

  /**
   * `enableReminder`: with a `Notification` global, only a `granted` answer
   * turns the reminder on; without one, it is turned on anyway.
   */
  function EnableReminder(env: NotificationEnv): (r: EnableOutcome)
    ensures r.enable <==> env == NoNotificationApi || env == NotificationApi(Granted)
    ensures r.alert.Some? <==> r.enable
    ensures env == NotificationApi(Granted) ==> r.alert == Some(EnabledAlert)
    ensures env == NoNotificationApi ==> r.alert == Some(EnabledUnsupportedAlert)
  {
    match env
    case NotificationApi(p) =>
      if p == Granted then EnableOutcome(true, Some(EnabledAlert)) else EnableOutcome(false, None)
    case NoNotificationApi => EnableOutcome(true, Some(EnabledUnsupportedAlert))
  }

  /** What one firing of the interval does. */
  datatype TickEffect = Idle | Notified(title: string, body: string) | Alerted(message: string) | Threw(error: string)

  /**
   * The interval callback as the page writes it: it reads
   * `Notification.permission` unguarded, which throws when there is no
   * `Notification` global, so that browser never sees the fallback alert.
   */
  function TickAsWritten(env: NotificationEnv): (e: TickEffect)
    ensures e.Threw? <==> env == NoNotificationApi
    ensures e.Notified? <==> env == NotificationApi(Granted)
    ensures env.NotificationApi? && env.permission != Granted ==> e == Alerted(ReminderAlert)
  {
    match env
    case NoNotificationApi => Threw(MissingNotificationError)
    case NotificationApi(p) =>
      if p == Granted then Notified(NotificationTitle, NotificationBody) else Alerted(ReminderAlert)
  }

  /**
   * The interval callback with the capability checked first: a notification
   * when permission is granted, the alert in every other case, never an error.
   */
  function TickEffectFor(env: NotificationEnv): (e: TickEffect)
    ensures e.Notified? <==> env == NotificationApi(Granted)
    ensures e.Notified? ==> e == Notified(NotificationTitle, NotificationBody)
    ensures !e.Notified? ==> e == Alerted(ReminderAlert)
  {
    if env.NotificationApi? && env.permission == Granted then
      Notified(NotificationTitle, NotificationBody)
    else
      Alerted(ReminderAlert)
  }

  /** In a browser without notifications the reminder is reported on, yet every tick throws as written. */
  lemma AsWrittenTickThrowsWithoutApi()
    ensures EnableReminder(NoNotificationApi).enable
    ensures TickAsWritten(NoNotificationApi).Threw?
    ensures TickEffectFor(NoNotificationApi) == Alerted(ReminderAlert)
  {
  }

  /** Where a `Notification` global exists, the page's callback and TickEffectFor agree. */
  lemma AsWrittenTickAgreesWithApi(p: Permission)
    ensures TickAsWritten(NotificationApi(p)) == TickEffectFor(NotificationApi(p))
  {
  }

  /** `reminderEnabled` together with the interval its effect keeps alive. */
  class ReminderScheduler {
    var enabled: bool
    /** The handle the current effect's cleanup will clear. */
    var timer: Option<Interval>
    /** Ids of the intervals the browser is running. */
    var live: set<nat>
    /** `setInterval` never hands out an id twice. */
    var nextId: nat

    /** An interval is live exactly when the flag is on, and there is only ever that one. */
    ghost predicate Valid()
      reads this
    {
      && (timer.Some? <==> enabled)
      && live == (if timer.Some? then {timer.value.id} else {})
      && (timer.Some? ==> timer.value.id < nextId && timer.value.periodMs == ReminderPeriodMs)
    }

    /** `useState(false)`; the effect's first run returns at once. */
    constructor ()
      ensures Valid() && !enabled && live == {}
    {
      enabled := false;
      timer := None;
      live := {};
      nextId := 0;
    }

    /**
     * `setReminderEnabled(v)` followed by the effect on `[reminderEnabled]`:
     * the effect runs again only when the value changes; then the cleanup
     * clears the old interval and, if the flag is now on, a new one starts.
     */
    method SetEnabled(v: bool)
      requires Valid()
      modifies this
      ensures Valid() && enabled == v
      ensures v == old(enabled) ==> timer == old(timer) && live == old(live)
      ensures v != old(enabled) ==> live !! old(live)
      ensures |live| <= 1
      ensures nextId >= old(nextId)
      ensures timer.Some? && timer != old(timer) ==> timer.value.id >= old(nextId)
    {
      if v != enabled {
        if timer.Some? {
          live := live - {timer.value.id};
          timer := None;
        }
        enabled := v;
        if v {
          var handle := Interval(nextId, ReminderPeriodMs);
          nextId := nextId + 1;
          timer := Some(handle);
          live := live + {handle.id};
        }
      }
    }

    /**
     * The bell button: `setReminderEnabled(false)` while on, `enableReminder`
     * while off. Returns the alert shown, if any.
     */
    method Click(env: NotificationEnv) returns (alert: Option<string>)
      requires Valid()
      modifies this
      ensures Valid() && |live| <= 1
      ensures old(enabled) ==> !enabled && live == {} && alert == None
      ensures !old(enabled) ==> enabled == EnableReminder(env).enable && alert == EnableReminder(env).alert
      ensures !old(enabled) && !EnableReminder(env).enable ==> timer == old(timer) && live == old(live)
      ensures nextId >= old(nextId)
      ensures timer.Some? && timer != old(timer) ==> timer.value.id >= old(nextId)
    {
      if enabled {
        SetEnabled(false);
        alert := None;
      } else {
        var outcome := EnableReminder(env);
        if outcome.enable {
          SetEnabled(true);
        }
        alert := outcome.alert;
      }
    }

    /** Interval `id` fires: only a live interval does anything. */
    method Tick(id: nat, env: NotificationEnv) returns (effect: TickEffect)
      requires Valid()
      ensures id in live ==> enabled && effect == TickEffectFor(env)
      ensures id !in live ==> effect == Idle
    {
      if id in live {
        effect := TickEffectFor(env);
      } else {
        effect := Idle;
      }
    }
  }

  /** Turning the reminder on and straight off again leaves no interval that could fire. */
  method EnableThenDisable(env: NotificationEnv, id: nat) returns (effect: TickEffect)
    requires EnableReminder(env).enable
    ensures effect == Idle
  {
    var r := new ReminderScheduler();
    var shown := r.Click(env);
    assert r.enabled;
    shown := r.Click(env);
    effect := r.Tick(id, env);
  }

  /**
   * `clearInterval` is final: after on, off and on again, the first
   * interval never fires; only the new one is live.
   */
  method ClearedIntervalNeverFires(env: NotificationEnv) returns (first: TickEffect, second: TickEffect)
    ensures first == Idle
    ensures second == TickEffectFor(env)
  {
    var r := new ReminderScheduler();
    r.SetEnabled(true);
    var old1 := r.timer.value.id;
    r.SetEnabled(false);
    r.SetEnabled(true);
    var now := r.timer.value.id;
    first := r.Tick(old1, env);
    second := r.Tick(now, env);
  }

  /** Two `setReminderEnabled(true)` in a row (two answers to a doubled click) start one interval. */
  method EnableTwice() returns (intervals: nat)
    ensures intervals == 1
  {
    var r := new ReminderScheduler();
    r.SetEnabled(true);
    r.SetEnabled(true);
    assert r.timer.Some?;
    intervals := |r.live|;
  }
}
