/**
 * The toast notification store: a list of notifications that actions
 * append to, filter and clear, and a timer per notification that, when it
 * fires, removes that notification again.
 */
module NotificationStore {
  import opened Wrappers
  import opened Seqs

  datatype NotificationType = Success | Error | Warning | Info

  datatype Notification = Notification(
    id: string, kind: NotificationType, title: Option<string>, message: string, duration: Option<real>)

  /** What `addNotification` is given: a notification without its id. */
  datatype Draft = Draft(kind: NotificationType, title: Option<string>, message: string, duration: Option<real>)

  /** A `setTimeout` still pending: the id it removes and its delay in milliseconds. */
  datatype Timer = Timer(id: string, delay: real)

  const DefaultDuration: real := 5000.0
  const ErrorDuration: real := 7000.0

  /** `{ id, ...notification }`. */
  function WithId(id: string, d: Draft): Notification {
    Notification(id, d.kind, d.title, d.message, d.duration)
  }

  /** `notification.duration ?? 5000`. */
  function Delay(d: Draft): real {
    if d.duration.Some? then d.duration.value else DefaultDuration
  }

  /** The timers `addNotification` starts: one when the delay is positive, none otherwise. */
  function TimersFor(id: string, d: Draft): seq<Timer> {
    if Delay(d) > 0.0 then [Timer(id, Delay(d))] else []
  }

  /** The filter callback `n => n.id !== id`. */
  function IdIsNot(id: string): Notification -> bool {
    (n: Notification) => n.id != id
  }

  /** `notifications.filter(n => n.id !== id)`. */
  function Without(ns: seq<Notification>, id: string): seq<Notification> {
    Filter(ns, IdIsNot(id))
  }

  class Store {
    var notifications: seq<Notification>
    var timers: seq<Timer>

    constructor()
      ensures notifications == [] && timers == []
    {
      notifications := [];
      timers := [];
    }

    /** `addNotification(draft)`, with the generated id given as `id`. */
    method Add(d: Draft, id: string)
      modifies this
      ensures notifications == old(notifications) + [WithId(id, d)]
      ensures timers == old(timers) + TimersFor(id, d)
    {
      notifications := notifications + [WithId(id, d)];
      var duration := if d.duration.Some? then d.duration.value else DefaultDuration;
      if duration > 0.0 {
        timers := timers + [Timer(id, duration)];
      }
    }

    /** The `k`-th pending timer fires: its notification goes, whichever timer the clock picks. */
    method Expire(k: nat)
      requires k < |timers|
      modifies this
      ensures notifications == Without(old(notifications), old(timers[k].id))
      ensures timers == old(timers[..k] + timers[k + 1..])
    {
      notifications := Without(notifications, timers[k].id);
      timers := timers[..k] + timers[k + 1..];
    }

    /** `removeNotification(id)`; the timer of that id stays pending. */
    method Remove(id: string)
      modifies this
      ensures notifications == Without(old(notifications), id)
      ensures timers == old(timers)
    {
      notifications := Without(notifications, id);
    }

    /** `clearNotifications()`; pending timers are not cancelled. */
    method Clear()
      modifies this
      ensures notifications == [] && timers == old(timers)
    {
      notifications := [];
    }

    /** `success(message, title)`. */
    method NotifySuccess(message: string, title: Option<string>, id: string)
      modifies this
      ensures notifications == old(notifications) + [Notification(id, Success, title, message, None)]
      ensures timers == old(timers) + [Timer(id, DefaultDuration)]
    {
      Add(Draft(Success, title, message, None), id);
    }

    /** `error(message, title)`: shown longer than the others. */
    method NotifyError(message: string, title: Option<string>, id: string)
      modifies this
      ensures notifications == old(notifications) + [Notification(id, Error, title, message, Some(ErrorDuration))]
      ensures timers == old(timers) + [Timer(id, ErrorDuration)]
    {
      Add(Draft(Error, title, message, Some(ErrorDuration)), id);
    }

    /** `warning(message, title)`. */
    method NotifyWarning(message: string, title: Option<string>, id: string)
      modifies this
      ensures notifications == old(notifications) + [Notification(id, Warning, title, message, None)]
      ensures timers == old(timers) + [Timer(id, DefaultDuration)]
    {
      Add(Draft(Warning, title, message, None), id);
    }

    /** `info(message, title)`. */
    method NotifyInfo(message: string, title: Option<string>, id: string)
      modifies this
      ensures notifications == old(notifications) + [Notification(id, Info, title, message, None)]
      ensures timers == old(timers) + [Timer(id, DefaultDuration)]
    {
      Add(Draft(Info, title, message, None), id);
    }
  }

  // ---------------------------------------------------------------------
  // what removal by id means

  /** Removal drops exactly the notifications with that id. */
  lemma WithoutDropsExactlyThatId(ns: seq<Notification>, id: string)
    ensures forall k :: 0 <= k < |Without(ns, id)| ==> Without(ns, id)[k].id != id && Without(ns, id)[k] in ns
    ensures forall k :: 0 <= k < |ns| && ns[k].id != id ==> ns[k] in Without(ns, id)
    ensures |Without(ns, id)| <= |ns|
  {
  }

  /** Removal keeps the order: removing from a concatenation removes from each part. */
  lemma WithoutKeepsOrder(a: seq<Notification>, b: seq<Notification>, id: string)
    ensures Without(a + b, id) == Without(a, id) + Without(b, id)
  {
    FilterAppend(a, b, IdIsNot(id));
  }

  /** Removing an id that is not there changes nothing, so removing twice is removing once. */
  lemma WithoutAbsent(ns: seq<Notification>, id: string)
    ensures (forall k :: 0 <= k < |ns| ==> ns[k].id != id) ==> Without(ns, id) == ns
    ensures Without(Without(ns, id), id) == Without(ns, id)
  {
    if forall k :: 0 <= k < |ns| ==> ns[k].id != id {
      FilterAll(ns, IdIsNot(id));
    }
    FilterAll(Without(ns, id), IdIsNot(id));
  }

  /** Removal of one id leaves notifications of other ids where they were, relative to each other. */
  lemma WithoutOtherId(ns: seq<Notification>, n: Notification, id: string)
    requires n.id != id
    ensures Without(ns + [n], id) == Without(ns, id) + [n]
  {
    WithoutKeepsOrder(ns, [n], id);
  }

  /** The auto-removal of a new notification whose id was not in use gives the list back as it was before the addition. */
  lemma AddThenExpire(ns: seq<Notification>, d: Draft, id: string)
    requires forall k :: 0 <= k < |ns| ==> ns[k].id != id
    ensures Without(ns + [WithId(id, d)], id) == ns
  {
    WithoutKeepsOrder(ns, [WithId(id, d)], id);
    WithoutAbsent(ns, id);
  }

  /** A timer is started exactly when the delay is positive; an absent duration means the default. */
  lemma TimerRule(id: string, d: Draft)
    ensures |TimersFor(id, d)| == 1 <==> (d.duration.None? || d.duration.value > 0.0)
    ensures d.duration.None? ==> TimersFor(id, d) == [Timer(id, DefaultDuration)]
    ensures |TimersFor(id, d)| <= 1
  {
  }
}
