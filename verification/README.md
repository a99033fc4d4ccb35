# User aggregate: reminders, daily quota and subscription cancellation

This project models the `User` aggregate of a reminder and subscription
application (`src/CleanArchitecture.Domain/Users/User.cs`). A user holds four
pieces of state:

- its current subscription: an active one, or the `Canceled` sentinel;
- a calendar that counts the reminders on each day;
- the list of its reminder ids;
- the domain events it has raised and not yet dispatched.

It offers five operations: `SetReminder`, `DismissReminder`,
`CancelSubscription`, `DeleteReminder` and `DeleteAllReminders`. Each checks its
guards before it changes anything. The fallible ones answer success, `NotFound`,
or the quota error `CannotCreateMoreRemindersThanSubscriptionAllows`.

Layout:

- `calendar.dfy`, module `Calendars`: the calendar as a map from day to count, in
  which a missing day counts zero. It has increment, decrement and the 32-bit
  counter bound `IntMaxValue`.
- `lists.dfy`, module `Lists`: the id list's `Remove`, which takes out the first
  occurrence only (`RemoveFirst`, `FirstIndex`). The list may hold duplicates.
- `user.dfy`, module `Users`: the value types, one pure transition per operation
  (`SetReminderStep`, ...) whose contract states what the operation promises, and
  the class `User`. The class has the source's fields and updates them in place.
  Each of its methods is proved to give exactly the answer and new state of its
  transition. `DeleteAllReminders` keeps the source's loop, with invariants.
- `user_properties.dfy`, module `UserProperties`: lemmas that relate several
  operations. They cover the set/delete round trip, filling a day up to its
  quota, the quota invariant, cancellation, and the asymmetry between delete
  and dismiss.

Modelling choices:

- The daily allowance of each tier (`GetMaxDailyReminders`) is not part of this
  model. It is a function `maxDailyReminders: SubscriptionType -> int` that the
  user is constructed with.
- The id of the `Canceled` sentinel is also not part of this model. It is the
  constructor argument `canceledSubscriptionId`. `CancelSubscription` compares
  against it when the subscription is already canceled, and its contract states
  that an already-canceled user accepts exactly that id.
- The quota check reads the day of the reminder's timestamp (User.cs:34, 102),
  while the increment uses the reminder's `Date` (User.cs:39). Both are taken as
  the same day key, `Reminder.date`.
- The calendar's counts are C# `int`. `Valid()` keeps them in `0..IntMaxValue`,
  and the overflow guard at User.cs:105 is what keeps `SetReminder` inside that
  range.

## Model

| member | source | states |
|---|---|---|
| Calendars.NumEventsOnDay | src/CleanArchitecture.Domain/Users/User.cs:102 | a day's count is its stored entry, zero for a day with no entry; for an in-range calendar it lies in `0..int.MaxValue` |
| Calendars.Empty | src/CleanArchitecture.Domain/Users/User.cs:24 | the default calendar has zero reminders on every day and is in range |
| Calendars.IncrementEventCount | src/CleanArchitecture.Domain/Users/User.cs:39 | the day's count rises by exactly one; every other day is unchanged; the range is kept when the count was below the 32-bit maximum |
| Calendars.DecrementEventCount | src/CleanArchitecture.Domain/Users/User.cs:86 | on a day with a positive count, that count falls by exactly one; other days are unchanged; non-negativity and range are kept |
| Calendars.DecrementUndoesIncrement | src/CleanArchitecture.Domain/Users/User.cs:39-86 | decrementing a day right after incrementing it gives back every day's count |
| Lists.FirstIndex | src/CleanArchitecture.Domain/Users/User.cs:55 | the index holds the value, and no earlier position does |
| Lists.RemoveFirst | src/CleanArchitecture.Domain/Users/User.cs:81 | an absent id leaves the list as it is; otherwise the first occurrence of the id is taken out and the other elements keep their order, so the list loses exactly one element and its multiset one copy of the id |
| Users.SubscriptionId | src/CleanArchitecture.Domain/Users/User.cs:67 | the id compared against: the active subscription's own id, or the sentinel's id when canceled |
| Users.DeletedEvents | src/CleanArchitecture.Domain/Users/User.cs:95 | one `ReminderDeleted` event per id, in list order, duplicates included |
| Users.HasReachedDailyReminderLimit | src/CleanArchitecture.Domain/Users/User.cs:100-106 | for an in-range calendar: not reached exactly when one more reminder fits both within the tier's maximum and within the 32-bit counter; for any calendar, reached whenever the count is at or above the maximum or equals `int.MaxValue` |
| Users.SetReminderStep | src/CleanArchitecture.Domain/Users/User.cs:27-46 | a canceled subscription gives `NotFound`; otherwise the quota error comes exactly when the day is full or saturated; success comes exactly when the subscription is active and the day has room below both the maximum and `int.MaxValue`; a failure changes nothing; a success adds one to the day (other days unchanged), appends the id and exactly one `ReminderSet`, never takes the day past the tier maximum, and keeps counts in range |
| Users.DismissReminderStep | src/CleanArchitecture.Domain/Users/User.cs:48-63 | a canceled subscription or an absent id gives `NotFound` with no change; success happens exactly when the subscription is active and the id is held; it removes the first occurrence, appends one `ReminderDismissed` event and leaves the calendar untouched |
| Users.CancelSubscriptionStep | src/CleanArchitecture.Domain/Users/User.cs:65-77 | an id other than the subscription's gives `NotFound` with no change; success happens exactly for the current subscription's id (the sentinel's own id when already canceled), so on an active subscription exactly for its id; the subscription becomes `Canceled` and one `SubscriptionDeleted` event carries the user and the given id; the calendar and ids are untouched |
| Users.DeleteReminderStep | src/CleanArchitecture.Domain/Users/User.cs:79-91 | there is no subscription guard; success happens exactly when the id is held, otherwise `NotFound` with no change; it removes the first occurrence, lowers the reminder's day by one (other days unchanged) and appends one `ReminderDeleted` event |
| Users.DeleteAllRemindersStep | src/CleanArchitecture.Domain/Users/User.cs:93-98 | the id list ends empty; calendar and subscription are unchanged; earlier events are kept and followed by one `ReminderDeleted` per listed id, in list order |
| Users.User.constructor | src/CleanArchitecture.Domain/Users/User.cs:17-25 | the user has the given id and subscription, the given calendar or an empty one, no reminder ids and no events |
| Users.User.SetReminder | src/CleanArchitecture.Domain/Users/User.cs:27-46 | the answer and the new fields are exactly those of `SetReminderStep`; the counts stay in range |
| Users.User.DismissReminder | src/CleanArchitecture.Domain/Users/User.cs:48-63 | the answer and the new fields are exactly those of `DismissReminderStep` |
| Users.User.CancelSubscription | src/CleanArchitecture.Domain/Users/User.cs:65-77 | the answer and the new fields are exactly those of `CancelSubscriptionStep` |
| Users.User.DeleteReminder | src/CleanArchitecture.Domain/Users/User.cs:79-91 | the answer and the new fields are exactly those of `DeleteReminderStep`; the counts stay in range |
| Users.User.DeleteAllReminders | src/CleanArchitecture.Domain/Users/User.cs:93-98 | the loop over the ids leaves exactly the state of `DeleteAllRemindersStep` |
| UserProperties.SetThenDeleteRestores | src/CleanArchitecture.Domain/Users/User.cs:39-86 | after a successful set, deleting the same reminder succeeds; every day's count, the multiset of ids and the subscription are as before; the only trace is the two events |
| UserProperties.SetThenDeleteMayReorder | src/CleanArchitecture.Domain/Users/User.cs:41-81 | the round trip restores the multiset of ids but not the list order when the id was already held |
| UserProperties.QuotaAdmitsExactlyTheMaximum | src/CleanArchitecture.Domain/Users/User.cs:34-39 | with k slots left on a day, k reminders on that day all succeed and fill it to the tier maximum; the next one on that day gets the quota error |
| UserProperties.QuotaIsInvariant | src/CleanArchitecture.Domain/Users/User.cs:27-106 | if every day is within the tier maximum under an active subscription, it stays so after each of the five operations, for any reminder set (duplicates included), any id dismissed and any cancel; the delete needs only its own precondition |
| UserProperties.CancelShutsSetAndDismiss | src/CleanArchitecture.Domain/Users/User.cs:29-77 | after a successful cancel with an id that is not the sentinel's, setting any reminder, dismissing any id and a second cancel with that id all give `NotFound` |
| UserProperties.DeleteSurvivesCancel | src/CleanArchitecture.Domain/Users/User.cs:79-91 | after a successful cancel the subscription is `Canceled`, yet deleting a held reminder still succeeds |
| UserProperties.OnlyDeleteFreesASlot | src/CleanArchitecture.Domain/Users/User.cs:48-98 | on a full day, deleting a reminder of that day lets the next set succeed; dismissing it or deleting all reminders leaves the day full |

## Left out

- The `Entity` base class and event dispatch are not part of this model. Domain events are only the appended sequence `domainEvents`, which starts empty.
- `Calendar`, `Subscription`, `Reminder`, `SubscriptionType` and `UserErrors` are not part of this model. They are replaced by the abstractions above.
- Users.DeleteReminderStep: requires a positive count on the reminder's day when the id is held. What `DecrementEventCount` does at zero is not known, so no clamping or failure is invented. `Users.User.DeleteReminder` has the same precondition.
- Users.User.constructor: requires the given calendar's counts to lie in `0..IntMaxValue`. This is the range of the C# counter, and non-negative as a count of reminders.
- The `NotFound` error keeps only its message. The ErrorOr library's split between an error code (the positional argument at User.cs:31, 69, 83) and a description (the named argument at User.cs:57) is not modelled.
- The `SubscriptionDeleted` event carries the user's id, not the user object itself (User.cs:74); and the constructor stores the caller's calendar as a map value, so sharing that calendar object with the caller (User.cs:24) is not modelled.
- Timestamps, time zones and the truncation of a timestamp to its day are abstracted to an integer day.
- The private parameterless constructor (User.cs:108-110) is not modelled. It exists only for rehydration by the persistence layer.
- The authorization tests under `tests/` exercise a role and permission engine that is not part of this model.
