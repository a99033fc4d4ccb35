/** Properties of the user aggregate that relate several operations. */
module UserProperties {
  import opened Calendars
  import opened Lists
  import opened Users

  /** Setting each reminder of `rs` in turn: the final state, and whether every
      one of the calls succeeded. */
  function SetEach(s: UserState, maxDailyReminders: SubscriptionType -> int, rs: seq<Reminder>): (UserState, bool)
    decreases |rs|
  {
    if rs == [] then (s, true)
    else
      var t := SetReminderStep(s, maxDailyReminders, rs[0]);
      var rest := SetEach(t.state, maxDailyReminders, rs[1..]);
      (rest.0, rest.1 && t.outcome == Success)
  }

  /** Under an active subscription, the days' counts stay within the tier's maximum. */
  ghost predicate WithinQuota(s: UserState, maxDailyReminders: SubscriptionType -> int)
  {
    s.subscription.Active? ==>
      forall d :: NumEventsOnDay(s.calendar, d) <= maxDailyReminders(s.subscription.subscriptionType)
  }

  /** A successful set followed by the delete of the same reminder gives back
      every day's count, the multiset of ids and the subscription; the two
      calls leave exactly their two events behind. */
  lemma SetThenDeleteRestores(s: UserState, maxDailyReminders: SubscriptionType -> int, r: Reminder)
    requires CountsInRange(s.calendar)
    requires SetReminderStep(s, maxDailyReminders, r).outcome == Success
    ensures var u := SetReminderStep(s, maxDailyReminders, r).state;
      && r.id in u.reminderIds
      && NumEventsOnDay(u.calendar, r.date) > 0
      && var v := DeleteReminderStep(u, r);
      && v.outcome == Success
      && (forall d :: NumEventsOnDay(v.state.calendar, d) == NumEventsOnDay(s.calendar, d))
      && multiset(v.state.reminderIds) == multiset(s.reminderIds)
      && v.state.subscription == s.subscription
      && v.state.domainEvents == s.domainEvents + [ReminderSet(r), ReminderDeleted(r.id)]
  {
  }

  /** The round trip restores the multiset of ids, not the list: when the id was
      already held, the delete removes the earlier occurrence. */
  lemma SetThenDeleteMayReorder()
    ensures var s := UserState(0, Active(7, 0), map[], [1, 2], []);
      var u := SetReminderStep(s, _ => 10, Reminder(1, 5)).state;
      && u.reminderIds == [1, 2, 1]
      && DeleteReminderStep(u, Reminder(1, 5)).state.reminderIds == [2, 1]
  {
  }

  /** With `k` slots left on a day, `k` reminders on that day are all accepted,
      the day is then full, and the next reminder on it is refused with the
      quota error. */
  lemma {:induction false} QuotaAdmitsExactlyTheMaximum(
    s: UserState, maxDailyReminders: SubscriptionType -> int, day: Date, rs: seq<Reminder>)
    requires s.subscription.Active?
    requires CountsInRange(s.calendar)
    requires maxDailyReminders(s.subscription.subscriptionType) <= IntMaxValue
    requires forall i :: 0 <= i < |rs| ==> rs[i].date == day
    requires NumEventsOnDay(s.calendar, day) + |rs| == maxDailyReminders(s.subscription.subscriptionType)
    ensures SetEach(s, maxDailyReminders, rs).1
    ensures SetEach(s, maxDailyReminders, rs).0.subscription == s.subscription
    ensures CountsInRange(SetEach(s, maxDailyReminders, rs).0.calendar)
    ensures NumEventsOnDay(SetEach(s, maxDailyReminders, rs).0.calendar, day)
      == maxDailyReminders(s.subscription.subscriptionType)
    ensures forall r: Reminder :: r.date == day ==>
      SetReminderStep(SetEach(s, maxDailyReminders, rs).0, maxDailyReminders, r).outcome
        == Failure(CannotCreateMoreRemindersThanSubscriptionAllows)
    decreases |rs|
  {
    if rs != [] {
      var t := SetReminderStep(s, maxDailyReminders, rs[0]);
      assert NumEventsOnDay(s.calendar, day) >= 0 by {
        assert day in s.calendar ==> 0 <= s.calendar[day];
      }
      assert t.outcome == Success;
      QuotaAdmitsExactlyTheMaximum(t.state, maxDailyReminders, day, rs[1..]);
    }
  }

  /** Every operation keeps each day within the tier's maximum. The set, dismiss
      and cancel claims hold for any argument; only the delete claim needs the
      calendar to hold the deleted reminder's day. */
  lemma QuotaIsInvariant(
    s: UserState, maxDailyReminders: SubscriptionType -> int, canceledId: Guid,
    reminder: Reminder, reminderId: Guid, subscriptionId: Guid, toDelete: Reminder)
    requires WithinQuota(s, maxDailyReminders)
    requires toDelete.id in s.reminderIds ==> NumEventsOnDay(s.calendar, toDelete.date) > 0
    ensures WithinQuota(SetReminderStep(s, maxDailyReminders, reminder).state, maxDailyReminders)
    ensures WithinQuota(DismissReminderStep(s, reminderId).state, maxDailyReminders)
    ensures WithinQuota(CancelSubscriptionStep(s, canceledId, subscriptionId).state, maxDailyReminders)
    ensures WithinQuota(DeleteReminderStep(s, toDelete).state, maxDailyReminders)
    ensures WithinQuota(DeleteAllRemindersStep(s), maxDailyReminders)
  {
  }

  /** Once canceled (the id given differing from the sentinel's own id), no
      reminder can be set or dismissed and a second cancel with the same id is
      refused, whatever reminders the user holds. */
  lemma CancelShutsSetAndDismiss(
    s: UserState, maxDailyReminders: SubscriptionType -> int, canceledId: Guid,
    subscriptionId: Guid, reminder: Reminder, reminderId: Guid)
    requires CancelSubscriptionStep(s, canceledId, subscriptionId).outcome == Success
    requires subscriptionId != canceledId
    ensures var c := CancelSubscriptionStep(s, canceledId, subscriptionId).state;
      && SetReminderStep(c, maxDailyReminders, reminder).outcome == Failure(NotFound(SubscriptionNotFound))
      && DismissReminderStep(c, reminderId).outcome == Failure(NotFound(SubscriptionNotFound))
      && CancelSubscriptionStep(c, canceledId, subscriptionId).outcome == Failure(NotFound(SubscriptionNotFound))
  {
  }

  /** After a cancel, a reminder the user holds can still be deleted. */
  lemma DeleteSurvivesCancel(s: UserState, canceledId: Guid, subscriptionId: Guid, reminder: Reminder)
    requires CancelSubscriptionStep(s, canceledId, subscriptionId).outcome == Success
    requires reminder.id in s.reminderIds && NumEventsOnDay(s.calendar, reminder.date) > 0
    ensures var c := CancelSubscriptionStep(s, canceledId, subscriptionId).state;
      && c.subscription == Canceled
      && DeleteReminderStep(c, reminder).outcome == Success
  {
  }

  /** Deleting a reminder frees its slot on a full day; dismissing it or
      deleting all reminders does not, so the day stays full. */
  lemma OnlyDeleteFreesASlot(s: UserState, maxDailyReminders: SubscriptionType -> int, reminder: Reminder)
    requires s.subscription.Active?
    requires 0 < maxDailyReminders(s.subscription.subscriptionType) <= IntMaxValue
    requires NumEventsOnDay(s.calendar, reminder.date) == maxDailyReminders(s.subscription.subscriptionType)
    requires reminder.id in s.reminderIds
    ensures SetReminderStep(DeleteReminderStep(s, reminder).state, maxDailyReminders, reminder).outcome == Success
    ensures SetReminderStep(DismissReminderStep(s, reminder.id).state, maxDailyReminders, reminder).outcome
      == Failure(CannotCreateMoreRemindersThanSubscriptionAllows)
    ensures SetReminderStep(DeleteAllRemindersStep(s), maxDailyReminders, reminder).outcome
      == Failure(CannotCreateMoreRemindersThanSubscriptionAllows)
  {
  }
}
