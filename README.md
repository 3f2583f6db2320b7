# Dashboard statistics of a multi-tenant business dashboard

This project models `utils.py` of a small Flask dashboard in which businesses
track customer interactions (chat, call, message) and service bookings. It
covers two things:

- the three aggregators behind the dashboard charts, `get_interaction_stats`,
  `get_booking_stats` and `get_customer_stats`. Each is a series of filtered
  counts over one business's rows, bucketed by time windows. The customer
  statistics also take a deduplicated union of customer ids;
- `format_duration`, which writes a number of seconds as text such as
  `"2m 5s"` or `"1h 1m"`.

Modules, leaf first:

- `Wrappers` (`wrappers.dfy`): `Option`, for nullable columns and Python's `None`.
- `Text` (`text.dfy`): `str()` of an integer, `str.join`, and the parsing and
  splitting functions used to read a rendered duration back.
- `Duration` (`duration.dfy`): `format_duration` as a method that builds the
  component list with conditional appends, the way the source does. It is
  specified by the function `Parts`, and properties of `Parts` are proved.
- `Counting` (`counting.dfy`): the store's `.filter(...).count()` and
  `.filter_by(...).all()` over a table given as a sequence of rows, plus the
  general laws of counting used by the statistics.
- `Clock` (`clock.dfy`): timestamps are whole microseconds since
  1970-01-01 00:00 UTC. Using microseconds keeps the one-second gap that the
  `23:59:59` day end leaves. The module defines midnight, the `23:59:59` day
  end, `weekday()`, the week start and the month start.
- `Models` (`models.dfy`): the interaction, booking and customer rows,
  reduced to the columns the statistics read.
- `Stats` (`stats.dfy`): the three aggregators. The two seven-day loops and
  the two id-collecting loops are methods with loop invariants. Each
  aggregator is a method whose `ensures` gives every returned field as a count
  over the store, plus the relations between those fields.

`now` is a parameter, not a clock read. The month window needs the day of the
month of `now`; that is a parameter too (`dayOfMonth`, 1 to 31).
`get_booking_stats` computes a month start at utils.py:85 but never uses it,
so `GetBookingStats` takes no day of the month.

Places where the code and its written description differ. In each case the
model follows the code:

- The type distribution is not guaranteed to add up to the interaction total.
  `interaction_type` is free text; the list of three types is only a comment
  at models.py:48. `TypesCoverTotalIff` proves the sum equals the total exactly
  when every interaction of the business has one of the three types. Otherwise
  the sum is smaller. The same holds for booking statuses
  (`StatusesCoverBookingsIff`). A `NULL` status counts under no status.
- `format_duration` takes any integer. For a negative input Python's `divmod`
  floors, so -5 is written `"-1h 59m"`. The model uses floor division and a
  minus sign, and its lemmas cover negative inputs as well.
- Nullable columns follow SQL: an interaction whose `start_time` is NULL counts
  in `total` but in no time window. A customer whose `is_new` is NULL is not new.

## Model

| member | source | states |
|---|---|---|
| `Duration.FormatDuration` | utils.py:188-204 | `"0s"` for `None` or 0. Otherwise exactly the components of `Parts(n)`, each as `<int><unit>`, joined by single spaces. The result is never empty. |
| `Duration.Hours` | utils.py:193-194 | The two floored `divmod`s decompose the input exactly: `n == hours * 3600 + minutes * 60 + seconds`. For `n >= 0` the hours are `n / 3600`. |
| `Duration.Minutes` | utils.py:193-194 | The minutes left after the hours lie in `[0, 60)`, negative inputs included. |
| `Duration.Secs` | utils.py:193 | The seconds left after the minutes lie in `[0, 60)`, negative inputs included. |
| `Duration.Show` | utils.py:198-202 | `f"{amount}{unit}"`: at least one character before the unit letter, each a digit or a minus sign, the one right before the unit a digit, and no space. That the minus sign can only lead, and what the digits are worth, follows from `ParseShow`. |
| `Duration.Render` | utils.py:204 | `" ".join`: the text is empty exactly when there are no components, and it starts with the first component's text. |
| `Duration.Parts` | utils.py:193-202 | Only non-zero components appear. Units come strictly in the order h, m, s. A seconds component appears only when the hours are zero. The list is non-empty if and only if the input is non-zero. |
| `Duration.PartsValue` | utils.py:193-202 | The components add up to the input. When hours are shown they add up to the input minus its seconds, so the seconds are the only thing dropped. |
| `Duration.FormatReadsBack` | utils.py:193-204 | For every non-zero input, parsing the text gives back exactly the components. The value read is the input when `0 < n < 3600`, and `n - n % 60` otherwise. For `n > 0` it lies in `(n - 60, n]`. Zero is covered by `ZeroReadsBack`. |
| `Duration.ZeroReadsBack` | utils.py:190-191 | The `"0s"` written for zero or `None` reads back as one zero-second component, worth 0 seconds. |
| `Duration.RenderRoundTrip` | utils.py:196-204 | Joining `<int><unit>` tokens with single spaces is unambiguous: splitting and parsing the result gives back the component list. |
| `Duration.ParseShow` | utils.py:198-202 | Each `<int><unit>` token reads back as its component. |
| `Duration.BelowAnHour` | utils.py:193-202 | For `0 < n < 3600`: no hours; minutes `n / 60` when non-zero, then seconds `n % 60` when non-zero. |
| `Duration.FromAnHour` | utils.py:193-202 | For `n >= 3600`: `n / 3600` hours, then `(n % 3600) / 60` minutes only when that is non-zero, and never seconds. |
| `Duration.ExampleSeconds` | utils.py:188-204 | 45 seconds are written `"45s"`. |
| `Duration.ExampleMinutes` | utils.py:188-204 | 125 seconds are written `"2m 5s"`. |
| `Duration.ExampleHour` | utils.py:188-204 | 3600 seconds are written `"1h"`. |
| `Duration.ExampleHourMinute` | utils.py:188-204 | 3661 seconds are written `"1h 1m"`: the second is dropped. |
| `Text.ParseIntToString` | utils.py:198-202 | Reading back the decimal `str()` of any integer gives the integer. |
| `Text.NatToString` | utils.py:198-202 | `str()` of a natural number: at least one decimal digit, and no leading zero unless the number is 0. |
| `Text.IntToString` | utils.py:198-202 | `str()` of an integer: non-empty, starting with `-` exactly when it is negative, all digits after the first character, no zero right after the minus sign, and a leading zero only in `"0"` itself. |
| `Text.Join` | utils.py:204 | `sep.join(parts)`: a non-empty join starts with the first part. The property proved about it is `SplitJoin`; `JoinEndsWithLast` gives its end. |
| `Text.JoinEndsWithLast` | utils.py:204 | A non-empty join ends with its last part (proved by induction on the parts). |
| `Text.SplitJoin` | utils.py:204 | Splitting a `join` on a separator that no part contains gives the parts back. |
| `Counting.CountWhere` | utils.py:13-16 | A count never exceeds the number of rows. |
| `Counting.Filter` | utils.py:159 | `.all()` keeps every row that matches the filter, as often as it occurs among the rows, and no other: the result is a permutation of the matching rows, as many as `.count()` says. |
| `Counting.Between` | utils.py:39-43 | The `>= day_start`, `<= day_end` filter. Rows must pass the other condition. A NULL timestamp never matches. Both bounds are included. |
| `Counting.CountMonotone` | utils.py:13-30 | A filter that admits more rows counts at least as many. |
| `Counting.CountDisjoint` | utils.py:39-43 | Two filters that never hold together, both inside a third, count no more than the third together. |
| `Counting.CountUnion` | utils.py:51-64 | Two disjoint filters count exactly as much as their union. |
| `Counting.CountSameIff` | utils.py:51-64 | A narrower filter counts as many rows as a wider one if and only if every row the wider one admits is also admitted by the narrower one. |
| `Counting.CountZeroIff` | utils.py:28-30 | A count is zero if and only if no row matches. |
| `Clock.DayStart` | utils.py:7 | Midnight of the day of `t`: at or before `t`, less than a day before it, and a whole number of days since the epoch. |
| `Clock.DayEnd` | utils.py:37 | 23:59:59 lies inside the day, exactly one second before the next midnight. |
| `Clock.Weekday` | utils.py:8 | Weekday number between 0 (Monday) and 6. |
| `Clock.EpochIsThursday` | utils.py:8 | The anchor of the weekday numbering: 1970-01-01 is weekday 3, "Thu", and 1970-01-05 is weekday 0, "Mon". |
| `Clock.DayName` | utils.py:46 | `strftime('%a')`: a three-letter name, and "Mon" exactly when the weekday is 0. |
| `Clock.WeekdayNames` | utils.py:122 | Seven distinct three-letter names. Which name belongs to which weekday is fixed only by the contract of `DayName` ("Mon" exactly on weekday 0). |
| `Clock.DayNameIff` | utils.py:46 | Two instants get the same day name exactly when they fall on the same weekday. |
| `Clock.ShiftDays` | utils.py:35-36 | Moving by `k` days moves midnight by `k` days and the weekday by `k` steps modulo 7. |
| `Clock.DayOffset` | utils.py:35-38 | The day `k` days from `t` (`t + timedelta(days=k)`) has its midnight and its 23:59:59 exactly `k` days after those of `t`, and the name `k` weekdays on from that of `t`. |
| `Clock.WeekStart` | utils.py:8-9 | The week start is a midnight with weekday 0 (Monday), at or before today's midnight and `now`. It is at most six days before today's midnight, and the current day ends within the seven days that follow it. |
| `Clock.MonthStart` | utils.py:10 | The month start is a midnight at or before today's midnight, which is at or before `now`, and less than 31 days before it. |
| `Clock.LastSecondInNoDay` | utils.py:36-42 | A timestamp after 23:59:59 and before midnight lies in no `[day_start, day_end]` window. |
| `Stats.ConsecutiveDays` | utils.py:33-48 | Day windows that follow each other count no row twice: their sum is at most the count over the span they cover. |
| `Stats.OfBusiness` | utils.py:28-30 | A definition of the SQL condition `Interaction.business_id == business_id`, with no contract of its own. The other interaction filters state that they stay inside it. |
| `Stats.StartedSince` | utils.py:13-26 | `start_time >= bound` within the business. The bound itself matches, and a NULL start time never does. |
| `Stats.OfType` | utils.py:51-64 | A definition of the SQL condition `business_id == b, interaction_type == kind`, with no contract of its own. The model compares the strings exactly; `TypesWithinTotal` and `TypesCoverTotalIff` are the properties proved about the type counts. |
| `Stats.BookedWith` | utils.py:163 | A definition of the SQL condition `Booking.business_id == business_id`, with no contract of its own. The other booking filters state that they stay inside it. |
| `Stats.UpcomingScheduled` | utils.py:88-92 | `booking_time > now` and `status == 'scheduled'`. Every match is a scheduled booking of the business. A booking at or before `now` never matches. |
| `Stats.BookedIn` | utils.py:95-106 | `booking_time >= lo` and `booking_time < hi` within the business: `lo` belongs to the window, `hi` does not. |
| `Stats.WithStatus` | utils.py:127-140 | `status == st` within the business: a match is a booking of the business with a non-NULL status, a booking of the business with status `st` matches, and a NULL status never matches. |
| `Stats.DailyInteractions` | utils.py:33-48 | Exactly 7 entries, oldest first. Entry `k` is the day `6 - k` days before today: its weekday name, and the business's interactions that started from that midnight to its 23:59:59. |
| `Stats.GetInteractionStats` | utils.py:4-77 | Returns the today, week, month and total counts, the 7 daily entries and the 3 type counts. `today <= week <= total` and `today <= month <= total`. Today's bucket is at most `today`. The daily counts and the type counts each add up to at most `total`. `total` is 0 if and only if the business has no interactions, and then every count is 0. |
| `Stats.TypesWithinTotal` | utils.py:51-64 | Chat, call and message together count exactly the interactions of those types, and no more than the total. |
| `Stats.TypesCoverTotalIff` | utils.py:51-76 | The type counts add up to the total if and only if every interaction of the business is a chat, a call or a message. |
| `Stats.DailyBookings` | utils.py:109-124 | Exactly 7 entries in ascending order. Entry `k` is the day `k` days after today: its weekday name, and the business's bookings from that midnight to its 23:59:59. |
| `Stats.GetBookingStats` | utils.py:79-152 | Returns the upcoming, today and week counts, the 7 daily entries and the 3 status counts. `upcoming <= scheduled` and `today <= week`. Today's bucket is at most `today`. Every listed day inside the current week is at most `week`. The daily counts and the status counts each add up to at most the business's bookings. A business with no bookings gets 0 everywhere. |
| `Stats.BookingWindowsNest` | utils.py:95-124 | Today's window lies inside this week's. The first listed day is inside today, every listed day of this week is inside the week, and the seven days count no booking twice. |
| `Stats.StatusesWithinBookings` | utils.py:127-140 | Scheduled, completed and cancelled together count exactly the bookings with those statuses, and no more than all of the business's bookings. |
| `Stats.StatusesCoverBookingsIff` | utils.py:127-152 | The status counts add up to the business's bookings if and only if every such booking has one of the three statuses. |
| `Stats.NewAmong` | utils.py:171-174 | The new customers are a subset of the given ids. |
| `Stats.CustomerIds` | utils.py:157-165 | Every interaction and every booking of the business contributes its customer id, and every id in the set comes from one of them. |
| `Stats.AddIds` | utils.py:160-161 | One `add` loop: the set afterwards is the set before together with the customer id of every row. |
| `Stats.CollectCustomerIds` | utils.py:157-165 | The collected set is the union of the customer ids of the business's interactions and bookings, each id once. |
| `Stats.GetCustomerStats` | utils.py:154-186 | `total` is the size of that union. `new` counts its members flagged new. `returning = total - new`, so `new <= total`, `returning >= 0` and `new + returning = total`. Two distribution entries. `total` is 0 if and only if the business has no interactions and no bookings. |
| `Stats.NoCustomersIff` | utils.py:157-168 | A business has no customers if and only if it has neither interactions nor bookings. |

## Left out

- The clock (`datetime.utcnow()`): `now` is a parameter.
- The Gregorian calendar for the month start (utils.py:10): the day of the month of `now` is a parameter, `dayOfMonth`, allowed from 1 to 31. The model does not check that it matches `now`.
- `strftime('%a')`: modelled as a fixed table of the seven C-locale names, indexed by weekday.
- The bounded range of Python's `datetime` (years 1 to 9999): timestamps are unbounded integers.
- The query engine itself, its collation (the database comes from configuration, so whether `interaction_type == kind` and `status == st` ignore case is not fixed; the model compares strings exactly), and read consistency: each `.count()` reads one unchanging store. The queries of one call are not atomic in the source; the model does not capture that.
- Idempotence: no separate member. The aggregators' `ensures` fix every field as a function of the store and `now`, so two calls on the same store agree.
- `format_duration` on inputs that are neither an integer nor `None` (floats, booleans).
- The `Message` table and the interaction columns `end_time`, `duration` and `summary`: the statistics never read them.
- Request handling, sessions, templates, JSON serialisation (routes.py), form validation (forms.py), application setup (app.py) and password hashing (models.py:20-24): plumbing without logic of its own.
