/** The `User` aggregate: a user's current subscription, the per-day reminder
    counter, the ids of the user's reminders and the domain events raised and
    not yet dispatched. Each operation checks its guards first and changes
    state only when they pass.

    Each operation is given twice: as a pure transition on a `UserState`
    value (`SetReminderStep`, ...), whose contract states what the operation
    promises, and as a method of the class `User` that updates the fields in
    place and is proved to produce exactly that transition. */
module Users {
  import opened Calendars
  import opened Lists

  type Guid = int

  /** A subscription tier, abstracted as a number; the daily allowance of each
      tier is supplied from outside the aggregate. */
  type SubscriptionType = nat

  datatype Option<T> = None | Some(value: T)

  /** The current subscription: an active one, or the `Canceled` sentinel. */
  datatype Subscription =
    | Active(id: Guid, subscriptionType: SubscriptionType)
    | Canceled

  /** The id a subscription answers with; the sentinel's own id is not known
      and is supplied as `canceledId`. */
  function SubscriptionId(s: Subscription, canceledId: Guid): (id: Guid)
    ensures s.Active? ==> id == s.id
    ensures s.Canceled? ==> id == canceledId
  {
    match s
    case Active(id, _) => id
    case Canceled => canceledId
  }

  /** A reminder, as the aggregate sees it: its id and the day it falls on. */
  datatype Reminder = Reminder(id: Guid, date: Date)

  datatype DomainEvent =
    | ReminderSet(reminder: Reminder)
    | ReminderDismissed(reminderId: Guid)
    | ReminderDeleted(reminderId: Guid)
    | SubscriptionDeleted(userId: Guid, subscriptionId: Guid)

  datatype Error =
    | NotFound(message: string)
    | CannotCreateMoreRemindersThanSubscriptionAllows

  const SubscriptionNotFound: string := "Subscription not found"
  const ReminderNotFound: string := "Reminder not found"

  /** What a fallible operation answers: success, or the error it stopped on. */
  datatype Outcome = Success | Failure(error: Error)

  datatype UserState = UserState(
    id: Guid,
    subscription: Subscription,
    calendar: Calendar,
    reminderIds: seq<Guid>,
    domainEvents: seq<DomainEvent>)

  /** The answer of an operation together with the state it leaves. */
  datatype Transition = Transition(outcome: Outcome, state: UserState)

  /** One `ReminderDeleted` event per id, in the order of the ids. */
  function DeletedEvents(ids: seq<Guid>): (es: seq<DomainEvent>)
    ensures |es| == |ids|
    ensures forall i :: 0 <= i < |ids| ==> es[i] == ReminderDeleted(ids[i])
  {
    if ids == [] then []
    else DeletedEvents(ids[..|ids| - 1]) + [ReminderDeleted(ids[|ids| - 1])]
  }

  /** Whether day `date` can take no further reminder: its count has reached the
      tier's daily maximum, or it has reached the counter's largest value. */
  function HasReachedDailyReminderLimit(calendar: Calendar, maxDaily: int, date: Date): (reached: bool)
    ensures CountsInRange(calendar) ==>
      (!reached <==> NumEventsOnDay(calendar, date) + 1 <= maxDaily && NumEventsOnDay(calendar, date) + 1 <= IntMaxValue)
    ensures NumEventsOnDay(calendar, date) >= maxDaily || NumEventsOnDay(calendar, date) == IntMaxValue ==> reached
  {
    var dailyReminderCount := NumEventsOnDay(calendar, date);
    dailyReminderCount >= maxDaily || dailyReminderCount == IntMaxValue
  }

  function SetReminderStep(s: UserState, maxDailyReminders: SubscriptionType -> int, reminder: Reminder): (t: Transition)
    // a canceled subscription refuses every reminder
    ensures s.subscription.Canceled? ==> t.outcome == Failure(NotFound(SubscriptionNotFound))
    // the quota guard: the day is full, or its counter is saturated
    ensures s.subscription.Active? ==>
      (t.outcome == Failure(CannotCreateMoreRemindersThanSubscriptionAllows) <==>
        NumEventsOnDay(s.calendar, reminder.date) >= maxDailyReminders(s.subscription.subscriptionType)
        || NumEventsOnDay(s.calendar, reminder.date) == IntMaxValue)
    // every call that passes both guards succeeds
    ensures t.outcome == Success <==>
      && s.subscription.Active?
      && NumEventsOnDay(s.calendar, reminder.date) < maxDailyReminders(s.subscription.subscriptionType)
      && NumEventsOnDay(s.calendar, reminder.date) != IntMaxValue
    // a refused call changes nothing
    ensures t.outcome.Failure? ==> t.state == s
    // an accepted call: one more reminder on its day, its id at the end, one event
    ensures t.outcome == Success ==>
      && t.state.id == s.id
      && t.state.subscription == s.subscription
      && t.state.reminderIds == s.reminderIds + [reminder.id]
      && t.state.domainEvents == s.domainEvents + [ReminderSet(reminder)]
      && NumEventsOnDay(t.state.calendar, reminder.date) == NumEventsOnDay(s.calendar, reminder.date) + 1
      && (forall d :: d != reminder.date ==> NumEventsOnDay(t.state.calendar, d) == NumEventsOnDay(s.calendar, d))
    // an accepted reminder never takes its day past the tier's maximum
    ensures t.outcome == Success ==>
      && s.subscription.Active?
      && NumEventsOnDay(t.state.calendar, reminder.date) <= maxDailyReminders(s.subscription.subscriptionType)
    // nor past the counter's range
    ensures CountsInRange(s.calendar) ==> CountsInRange(t.state.calendar)
  {
    if s.subscription.Canceled? then
      Transition(Failure(NotFound(SubscriptionNotFound)), s)
    else if HasReachedDailyReminderLimit(s.calendar, maxDailyReminders(s.subscription.subscriptionType), reminder.date) then
      Transition(Failure(CannotCreateMoreRemindersThanSubscriptionAllows), s)
    else
      Transition(Success, s.(
        calendar := IncrementEventCount(s.calendar, reminder.date),
        reminderIds := s.reminderIds + [reminder.id],
        domainEvents := s.domainEvents + [ReminderSet(reminder)]))
  }

  function DismissReminderStep(s: UserState, reminderId: Guid): (t: Transition)
    // a canceled subscription refuses, whether or not the id is held
    ensures s.subscription.Canceled? ==> t == Transition(Failure(NotFound(SubscriptionNotFound)), s)
    // an id the user does not hold is refused and nothing changes
    ensures s.subscription.Active? && reminderId !in s.reminderIds ==>
      t == Transition(Failure(NotFound(ReminderNotFound)), s)
    ensures t.outcome == Success <==> s.subscription.Active? && reminderId in s.reminderIds
    // an accepted call drops one occurrence of the id, raises one event, keeps the calendar
    ensures t.outcome == Success ==>
      && t.state.id == s.id
      && t.state.subscription == s.subscription
      && t.state.calendar == s.calendar
      && t.state.reminderIds == RemoveFirst(s.reminderIds, reminderId)
      && |t.state.reminderIds| == |s.reminderIds| - 1
      && multiset(t.state.reminderIds) == multiset(s.reminderIds) - multiset{reminderId}
      && t.state.domainEvents == s.domainEvents + [ReminderDismissed(reminderId)]
  {
    if s.subscription.Canceled? then
      Transition(Failure(NotFound(SubscriptionNotFound)), s)
    else if reminderId !in s.reminderIds then
      Transition(Failure(NotFound(ReminderNotFound)), s)
    else
      Transition(Success, s.(
        reminderIds := RemoveFirst(s.reminderIds, reminderId),
        domainEvents := s.domainEvents + [ReminderDismissed(reminderId)]))
  }

  function CancelSubscriptionStep(s: UserState, canceledId: Guid, subscriptionId: Guid): (t: Transition)
    // any id but the current subscription's is refused and nothing changes
    ensures subscriptionId != SubscriptionId(s.subscription, canceledId) ==>
      t == Transition(Failure(NotFound(SubscriptionNotFound)), s)
    // the current id, the sentinel's own when already canceled, is accepted
    ensures t.outcome == Success <==> subscriptionId == SubscriptionId(s.subscription, canceledId)
    ensures s.subscription.Active? ==> (t.outcome == Success <==> subscriptionId == s.subscription.id)
    // the matching id cancels and raises one event carrying that id
    ensures t.outcome == Success ==>
      && t.state.id == s.id
      && t.state.subscription == Canceled
      && t.state.calendar == s.calendar
      && t.state.reminderIds == s.reminderIds
      && t.state.domainEvents == s.domainEvents + [SubscriptionDeleted(s.id, subscriptionId)]
  {
    if subscriptionId != SubscriptionId(s.subscription, canceledId) then
      Transition(Failure(NotFound(SubscriptionNotFound)), s)
    else
      Transition(Success, s.(
        subscription := Canceled,
        domainEvents := s.domainEvents + [SubscriptionDeleted(s.id, subscriptionId)]))
  }

  function DeleteReminderStep(s: UserState, reminder: Reminder): (t: Transition)
    requires reminder.id in s.reminderIds ==> NumEventsOnDay(s.calendar, reminder.date) > 0
    // an id the user does not hold is refused and nothing changes
    ensures reminder.id !in s.reminderIds ==> t == Transition(Failure(NotFound(ReminderNotFound)), s)
    // no subscription guard: a held id is deleted even under a canceled subscription
    ensures t.outcome == Success <==> reminder.id in s.reminderIds
    // an accepted call drops one occurrence, frees one slot on the day, raises one event
    ensures t.outcome == Success ==>
      && t.state.id == s.id
      && t.state.subscription == s.subscription
      && t.state.reminderIds == RemoveFirst(s.reminderIds, reminder.id)
      && multiset(t.state.reminderIds) == multiset(s.reminderIds) - multiset{reminder.id}
      && t.state.domainEvents == s.domainEvents + [ReminderDeleted(reminder.id)]
      && NumEventsOnDay(t.state.calendar, reminder.date) == NumEventsOnDay(s.calendar, reminder.date) - 1
      && (forall d :: d != reminder.date ==> NumEventsOnDay(t.state.calendar, d) == NumEventsOnDay(s.calendar, d))
    ensures CountsInRange(s.calendar) ==> CountsInRange(t.state.calendar)
  {
    if reminder.id !in s.reminderIds then
      Transition(Failure(NotFound(ReminderNotFound)), s)
    else
      Transition(Success, s.(
        reminderIds := RemoveFirst(s.reminderIds, reminder.id),
        calendar := DecrementEventCount(s.calendar, reminder.date),
        domainEvents := s.domainEvents + [ReminderDeleted(reminder.id)]))
  }

  function DeleteAllRemindersStep(s: UserState): (s': UserState)
    // the id list is emptied; calendar and subscription are untouched
    ensures s'.id == s.id && s'.subscription == s.subscription && s'.calendar == s.calendar
    ensures s'.reminderIds == []
    // one deletion event per listed id, in list order, after the earlier events
    ensures |s'.domainEvents| == |s.domainEvents| + |s.reminderIds|
    ensures s'.domainEvents[..|s.domainEvents|] == s.domainEvents
    ensures forall i :: 0 <= i < |s.reminderIds| ==>
      s'.domainEvents[|s.domainEvents| + i] == ReminderDeleted(s.reminderIds[i])
  {
    s.(reminderIds := [], domainEvents := s.domainEvents + DeletedEvents(s.reminderIds))
  }

  class User {
    const id: Guid
    /** The daily reminder allowance of each subscription tier. */
    const maxDailyReminders: SubscriptionType -> int
    /** The id the `Canceled` sentinel answers with. */
    const canceledSubscriptionId: Guid

    var subscription: Subscription
    var calendar: Calendar
    var reminderIds: seq<Guid>
    var domainEvents: seq<DomainEvent>

    /** The calendar holds 32-bit, non-negative counts. */
    ghost predicate Valid()
      reads this
    {
      CountsInRange(calendar)
    }

    /** The aggregate's state as a value. */
    function State(): UserState
      reads this
    {
      UserState(id, subscription, calendar, reminderIds, domainEvents)
    }

    /** A user with the given subscription and calendar (an empty one when none
        is given), no reminders and no pending events. */
    constructor (id: Guid, subscription: Subscription, calendar: Option<Calendar>,
                 maxDailyReminders: SubscriptionType -> int, canceledSubscriptionId: Guid)
      requires calendar.Some? ==> CountsInRange(calendar.value)
      ensures Valid()
      ensures State() == UserState(id, subscription, if calendar.Some? then calendar.value else Empty(), [], [])
      ensures this.maxDailyReminders == maxDailyReminders
      ensures this.canceledSubscriptionId == canceledSubscriptionId
    {
      this.id := id;
      this.maxDailyReminders := maxDailyReminders;
      this.canceledSubscriptionId := canceledSubscriptionId;
      this.subscription := subscription;
      this.calendar := if calendar.Some? then calendar.value else Empty();
      this.reminderIds := [];
      this.domainEvents := [];
    }

    method SetReminder(reminder: Reminder) returns (r: Outcome)
      requires Valid()
      modifies this
      ensures Valid()
      ensures Transition(r, State()) == SetReminderStep(old(State()), maxDailyReminders, reminder)
    {
      if subscription.Canceled? {
        return Failure(NotFound(SubscriptionNotFound));
      }
      if HasReachedDailyReminderLimit(calendar, maxDailyReminders(subscription.subscriptionType), reminder.date) {
        return Failure(CannotCreateMoreRemindersThanSubscriptionAllows);
      }
      calendar := IncrementEventCount(calendar, reminder.date);
      reminderIds := reminderIds + [reminder.id];
      domainEvents := domainEvents + [ReminderSet(reminder)];
      return Success;
    }

    method DismissReminder(reminderId: Guid) returns (r: Outcome)
      requires Valid()
      modifies this
      ensures Valid()
      ensures Transition(r, State()) == DismissReminderStep(old(State()), reminderId)
    {
      if subscription.Canceled? {
        return Failure(NotFound(SubscriptionNotFound));
      }
      if reminderId !in reminderIds {
        return Failure(NotFound(ReminderNotFound));
      }
      reminderIds := RemoveFirst(reminderIds, reminderId);
      domainEvents := domainEvents + [ReminderDismissed(reminderId)];
      return Success;
    }

    method CancelSubscription(subscriptionId: Guid) returns (r: Outcome)
      requires Valid()
      modifies this
      ensures Valid()
      ensures Transition(r, State()) == CancelSubscriptionStep(old(State()), canceledSubscriptionId, subscriptionId)
    {
      if subscriptionId != SubscriptionId(subscription, canceledSubscriptionId) {
        return Failure(NotFound(SubscriptionNotFound));
      }
      subscription := Canceled;
      domainEvents := domainEvents + [SubscriptionDeleted(id, subscriptionId)];
      return Success;
    }

    method DeleteReminder(reminder: Reminder) returns (r: Outcome)
      requires Valid()
      requires reminder.id in reminderIds ==> NumEventsOnDay(calendar, reminder.date) > 0
      modifies this
      ensures Valid()
      ensures Transition(r, State()) == DeleteReminderStep(old(State()), reminder)
    {
      if reminder.id !in reminderIds {
        return Failure(NotFound(ReminderNotFound));
      }
      reminderIds := RemoveFirst(reminderIds, reminder.id);
      calendar := DecrementEventCount(calendar, reminder.date);
      domainEvents := domainEvents + [ReminderDeleted(reminder.id)];
      return Success;
    }

    method DeleteAllReminders()
      requires Valid()
      modifies this
      ensures Valid()
      ensures State() == DeleteAllRemindersStep(old(State()))
    {
      var i := 0;
      while i < |reminderIds|
        invariant 0 <= i <= |reminderIds|
        invariant reminderIds == old(reminderIds)
        invariant subscription == old(subscription) && calendar == old(calendar)
        invariant domainEvents == old(domainEvents) + DeletedEvents(reminderIds[..i])
      {
        assert reminderIds[..i + 1][..i] == reminderIds[..i];
        domainEvents := domainEvents + [ReminderDeleted(reminderIds[i])];
        i := i + 1;
      }
      assert reminderIds[..i] == reminderIds;
      reminderIds := [];
    }
  }
}
