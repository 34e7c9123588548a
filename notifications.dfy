/** pages/NotificationsPage.tsx: a timeline that starts with three notifications;
    scheduling a reminder sets a flag and starts a 1.5-second timer, and when the
    timer fires a new notification, built from the reminder type chosen at
    submit time, goes on top of the timeline. */
module Notifications {

  datatype NotificationType = Goal | Family | CheckIn | Alert | Call
  {
    /** The value of the `type` field. */
    function Name(): string
    {
      match this
      case Goal => "goal"
      case Family => "family"
      case CheckIn => "check-in"
      case Alert => "alert"
      case Call => "call"
    }
  }

  /** `{ id, type, message, time }`; `id` is a number of milliseconds. */
  datatype Notification = Notification(id: int, kind: NotificationType, message: string, time: string)

  const InitialNotifications: seq<Notification> := [
    Notification(1, Goal, "You completed your 30-minute walk goal!", "2h ago"),
    Notification(2, Family, "Family update: Alex hit their step goal!", "Yesterday"),
    Notification(3, CheckIn, "\U{1F5A4} Balance check-in time! How are you feeling today?", "3 days ago")
  ]

  const SmsReminder: string := "SMS Reminder"
  const VoiceCallReminder: string := "Voice Call Check-in"
  const CallPlacedMessage: string := "Your scheduled voice call check-in was placed."
  const SmsSentMessage: string := "Your scheduled SMS check-in was sent."

  /** The three starting entries have the ids 1, 2 and 3, in that order. */
  lemma InitialTimeline()
    ensures |InitialNotifications| == 3
    ensures forall i :: 0 <= i < 3 ==> InitialNotifications[i].id == i + 1
  {
  }

  /** The notification the timer adds: a voice-call reminder gives a 'call'
      entry saying the call was placed, any other reminder type a 'check-in'
      entry saying the SMS was sent; the id is the time it fires and the time
      shown is "Just now". */
  function ScheduledNotification(reminderType: string, now: int): (n: Notification)
    ensures n.kind == Call <==> reminderType == VoiceCallReminder
    ensures n.kind != Call ==> n.kind == CheckIn
    ensures n.message == CallPlacedMessage <==> n.kind == Call
    ensures n.message == SmsSentMessage <==> n.kind == CheckIn
    ensures n.id == now && n.time == "Just now"
  {
    var isCall := reminderType == VoiceCallReminder;
    Notification(now, if isCall then Call else CheckIn, if isCall then CallPlacedMessage else SmsSentMessage, "Just now")
  }

  /** `alert` after the notification is added. */
  function ScheduledAlert(reminderType: string): string
  {
    "Reminder scheduled successfully! (" + reminderType + ")"
  }

  class NotificationsPage {
    var notifications: seq<Notification>
    var isScheduling: bool
    var reminderType: string
    var timers: seq<string>   // pending timeouts, oldest first, with the reminder type each captured
    var alerts: seq<string>

    ghost predicate Valid()
      reads this
    {
      isScheduling ==> |timers| > 0
    }

    constructor ()
      ensures Valid()
      ensures notifications == InitialNotifications && !isScheduling && reminderType == SmsReminder
      ensures timers == [] && alerts == []
    {
      notifications := InitialNotifications;
      isScheduling := false;
      reminderType := SmsReminder;
      timers := [];
      alerts := [];
    }

    /** The type selector's `onChange`. */
    method SelectReminderType(t: string)
      requires Valid()
      modifies this
      ensures Valid()
      ensures reminderType == t
      ensures notifications == old(notifications) && isScheduling == old(isScheduling)
      ensures timers == old(timers) && alerts == old(alerts)
    {
      reminderType := t;
    }

    /** `handleSchedule`: the flag is set and a timer starts that remembers the
        reminder type selected now. */
    method Schedule()
      requires Valid()
      modifies this
      ensures Valid()
      ensures isScheduling && timers == old(timers) + [old(reminderType)]
      ensures notifications == old(notifications) && reminderType == old(reminderType) && alerts == old(alerts)
    {
      isScheduling := true;
      timers := timers + [reminderType];
    }

    /** The oldest timer fires at time `now`: exactly one notification goes on
        top, built from the type captured at submit time (whatever is selected
        now), the old timeline follows unchanged, and the flag is cleared. */
    method TimerFired(now: int)
      requires Valid() && |timers| > 0
      modifies this
      ensures Valid()
      ensures notifications == [ScheduledNotification(old(timers)[0], now)] + old(notifications)
      ensures !isScheduling && timers == old(timers)[1..]
      ensures alerts == old(alerts) + [ScheduledAlert(old(timers)[0])]
      ensures reminderType == old(reminderType)
    {
      var captured := timers[0];
      notifications := [ScheduledNotification(captured, now)] + notifications;
      isScheduling := false;
      alerts := alerts + [ScheduledAlert(captured)];
      timers := timers[1..];
    }
  }

  /** Changing the selection while a reminder is pending does not change what it
      produces: a voice-call reminder still yields a call entry. */
  method ChangeWhilePending(page: NotificationsPage, now: int)
    requires page.Valid() && page.timers == []
    modifies page
    ensures |page.notifications| > 0 && page.notifications[0].kind == Call
    ensures page.reminderType == SmsReminder
  {
    page.SelectReminderType(VoiceCallReminder);
    page.Schedule();
    page.SelectReminderType(SmsReminder);
    page.TimerFired(now);
  }
}
