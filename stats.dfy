/** The dashboard aggregators of utils.py. Each takes the store and the
    business id; those that read the clock take `now` (and, for the month
    window, the day of the month of `now`) as parameters. */
module Stats {
  import opened Wrappers
  import opened Counting
  import opened Clock
  import opened Models

  datatype DayCount = DayCount(day: string, count: nat)

  datatype LabelCount = LabelCount(name: string, count: int)

  datatype InteractionStats = InteractionStats(
    today: nat, week: nat, month: nat, total: nat,
    dailyData: seq<DayCount>,
    typesData: seq<LabelCount>)

  datatype BookingStats = BookingStats(
    upcoming: nat, today: nat, week: nat,
    dailyData: seq<DayCount>,
    statusData: seq<LabelCount>)

  datatype CustomerStats = CustomerStats(
    total: nat, newCustomers: nat, returning: int,
    typeData: seq<LabelCount>)

  // ---- The filters of the queries (each `.filter(...)` as one predicate) ----

  /** `Interaction.business_id == b` */
  function OfBusiness(b: int): Interaction -> bool
  {
    (i: Interaction) => i.businessId == b
  }

  /** `business_id == b, start_time >= t`: a NULL start time never matches;
      the bound itself does. */
  function StartedSince(b: int, t: int): (p: Interaction -> bool)
    ensures forall i: Interaction :: p(i) ==> OfBusiness(b)(i)
    ensures forall i: Interaction :: i.startTime.None? ==> !p(i)
    ensures forall i: Interaction :: i.businessId == b && i.startTime == Some(t) ==> p(i)
  {
    (i: Interaction) => i.businessId == b && i.startTime.Some? && i.startTime.value >= t
  }

  /** `business_id == b, interaction_type == kind`, on the free-text type;
      the model compares the strings exactly (case-sensitively). */
  function OfType(b: int, kind: string): Interaction -> bool
  {
    (i: Interaction) => i.businessId == b && i.interactionType == kind
  }

  /** An interaction of one of the three types the dashboard shows. */
  function OfShownType(b: int): Interaction -> bool
  {
    (i: Interaction) => i.businessId == b && i.interactionType in ["chat", "call", "message"]
  }

  /** `Booking.business_id == b` */
  function BookedWith(b: int): Booking -> bool
  {
    (x: Booking) => x.businessId == b
  }

  /** `business_id == b, booking_time > now, status == 'scheduled'`: strictly
      after `now`, so a booking at `now` itself is not upcoming. */
  function UpcomingScheduled(b: int, now: int): (p: Booking -> bool)
    ensures forall x: Booking :: p(x) ==> WithStatus(b, "scheduled")(x)
    ensures forall x: Booking :: x.bookingTime <= now ==> !p(x)
  {
    (x: Booking) => x.businessId == b && x.bookingTime > now && x.status == Some("scheduled")
  }

  /** `business_id == b, booking_time >= lo, booking_time < hi`: half open,
      `lo` belongs to the window and `hi` does not. */
  function BookedIn(b: int, lo: int, hi: int): (p: Booking -> bool)
    ensures forall x: Booking :: p(x) ==> BookedWith(b)(x)
    ensures forall x: Booking :: x.bookingTime == hi ==> !p(x)
    ensures forall x: Booking :: x.businessId == b && x.bookingTime == lo && lo < hi ==> p(x)
  {
    (x: Booking) => x.businessId == b && lo <= x.bookingTime < hi
  }

  /** `business_id == b, status == st`: a NULL status matches no status. */
  function WithStatus(b: int, st: string): (p: Booking -> bool)
    ensures forall x: Booking :: p(x) ==> BookedWith(b)(x) && x.status.Some?
    ensures forall x: Booking :: x.status.None? ==> !p(x)
    ensures forall x: Booking :: x.businessId == b && x.status == Some(st) ==> p(x)
  {
    (x: Booking) => x.businessId == b && x.status == Some(st)
  }

  /** A booking with one of the three statuses the dashboard shows. */
  function OfShownStatus(b: int): Booking -> bool
  {
    (x: Booking) => x.businessId == b && x.status.Some? && x.status.value in ["scheduled", "completed", "cancelled"]
  }

  /** Sum of the daily counts. */
  function SumCounts(days: seq<DayCount>): nat
  {
    if days == [] then 0 else SumCounts(days[..|days| - 1]) + days[|days| - 1].count
  }

  /** Days whose windows follow one another from `first` count no row twice:
      together they count at most the rows of the span they cover. */
  lemma {:induction false} ConsecutiveDays<T(!new)>(
    days: seq<DayCount>, rows: seq<T>, keep: T -> bool, time: T -> Option<int>, first: int)
    requires forall k :: 0 <= k < |days| ==>
      days[k].count == CountWhere(rows, Between(keep, time, first + k * Day, first + (k + 1) * Day - Second))
    ensures SumCounts(days) <= CountWhere(rows, Between(keep, time, first, first + |days| * Day - Second))
  {
    if days != [] {
      var n := |days| - 1;
      ConsecutiveDays(days[..n], rows, keep, time, first);
      CountDisjoint(rows,
        Between(keep, time, first, first + n * Day - Second),
        Between(keep, time, first + n * Day, first + (n + 1) * Day - Second),
        Between(keep, time, first, first + (n + 1) * Day - Second));
    }
  }

  // ---- get_interaction_stats ----

  /** The `for i in range(6, -1, -1)` loop: the trailing seven days, oldest
      first, today last. */
  method DailyInteractions(interactions: seq<Interaction>, b: int, now: int) returns (daily: seq<DayCount>)
    ensures |daily| == 7
    ensures forall k :: 0 <= k < 7 ==>
      daily[k].day == WeekdayNames()[(Weekday(now) + k + 1) % 7] &&
      daily[k].count == CountWhere(interactions,
        Between(OfBusiness(b), StartTime, DayStart(now) - 6 * Day + k * Day, DayStart(now) - 6 * Day + (k + 1) * Day - Second))
  {
    daily := [];
    var i := 6;
    while i >= 0
      invariant -1 <= i <= 6
      invariant |daily| == 6 - i
      invariant forall k :: 0 <= k < |daily| ==>
        daily[k].day == WeekdayNames()[(Weekday(now) + k + 1) % 7] &&
        daily[k].count == CountWhere(interactions,
          Between(OfBusiness(b), StartTime, DayStart(now) - 6 * Day + k * Day, DayStart(now) - 6 * Day + (k + 1) * Day - Second))
    {
      var day := now - i * Day;
      var dayStart := DayStart(day);
      var dayEnd := DayEnd(day);
      var count := CountWhere(interactions, Between(OfBusiness(b), StartTime, dayStart, dayEnd));
      assert day == now + (-i) * Day;
      DayOffset(now, -i);
      assert (Weekday(now) + -i) % 7 == (Weekday(now) + (6 - i) + 1) % 7;
      daily := daily + [DayCount(DayName(day), count)];
      i := i - 1;
    }
  }

  method GetInteractionStats(store: Store, b: int, now: int, dayOfMonth: int) returns (r: InteractionStats)
    requires 1 <= dayOfMonth <= 31
    ensures r.today == CountWhere(store.interactions, StartedSince(b, DayStart(now)))
    ensures r.week == CountWhere(store.interactions, StartedSince(b, WeekStart(now)))
    ensures r.month == CountWhere(store.interactions, StartedSince(b, MonthStart(now, dayOfMonth)))
    ensures r.total == CountWhere(store.interactions, OfBusiness(b))
    ensures |r.dailyData| == 7
    ensures forall k :: 0 <= k < 7 ==>
      r.dailyData[k].day == WeekdayNames()[(Weekday(now) + k + 1) % 7] &&
      r.dailyData[k].count == CountWhere(store.interactions,
        Between(OfBusiness(b), StartTime, DayStart(now) - 6 * Day + k * Day, DayStart(now) - 6 * Day + (k + 1) * Day - Second))
    ensures r.typesData == [
      LabelCount("Chat", CountWhere(store.interactions, OfType(b, "chat"))),
      LabelCount("Call", CountWhere(store.interactions, OfType(b, "call"))),
      LabelCount("Message", CountWhere(store.interactions, OfType(b, "message")))]
    // the windows nest: today inside this week and this month, all inside the total
    ensures r.today <= r.week <= r.total && r.today <= r.month <= r.total
    ensures r.dailyData[6].count <= r.today
    // no interaction is counted on two days, nor under two types
    ensures SumCounts(r.dailyData) <= r.total
    ensures r.typesData[0].count + r.typesData[1].count + r.typesData[2].count <= r.total
    // a business without interactions gets zeros everywhere, in the same shape
    ensures r.total == 0 <==> forall k :: 0 <= k < |store.interactions| ==> store.interactions[k].businessId != b
    ensures r.total == 0 ==> r.today == r.week == r.month == 0 && SumCounts(r.dailyData) == 0
  {
    var rows := store.interactions;
    var todayStart := DayStart(now);
    var weekStart := WeekStart(now);
    var monthStart := MonthStart(now, dayOfMonth);

    var todayCount := CountWhere(rows, StartedSince(b, todayStart));
    var weekCount := CountWhere(rows, StartedSince(b, weekStart));
    var monthCount := CountWhere(rows, StartedSince(b, monthStart));
    var totalCount := CountWhere(rows, OfBusiness(b));

    var dailyData := DailyInteractions(rows, b, now);

    var chatCount := CountWhere(rows, OfType(b, "chat"));
    var callCount := CountWhere(rows, OfType(b, "call"));
    var messageCount := CountWhere(rows, OfType(b, "message"));

    CountMonotone(rows, StartedSince(b, todayStart), StartedSince(b, weekStart));
    CountMonotone(rows, StartedSince(b, weekStart), OfBusiness(b));
    CountMonotone(rows, StartedSince(b, todayStart), StartedSince(b, monthStart));
    CountMonotone(rows, StartedSince(b, monthStart), OfBusiness(b));
    CountMonotone(rows, Between(OfBusiness(b), StartTime, todayStart, todayStart + Day - Second), StartedSince(b, todayStart));
    assert dailyData[6].count == CountWhere(rows, Between(OfBusiness(b), StartTime, todayStart, todayStart + Day - Second));

    var first := todayStart - 6 * Day;
    ConsecutiveDays(dailyData, rows, OfBusiness(b), StartTime, first);
    CountMonotone(rows, Between(OfBusiness(b), StartTime, first, first + 7 * Day - Second), OfBusiness(b));
    TypesWithinTotal(rows, b);
    CountZeroIff(rows, OfBusiness(b));

    r := InteractionStats(todayCount, weekCount, monthCount, totalCount, dailyData, [
      LabelCount("Chat", chatCount),
      LabelCount("Call", callCount),
      LabelCount("Message", messageCount)]);
  }

  /** The three type counts add up to the interactions of the three shown types. */
  lemma {:induction false} TypesWithinTotal(rows: seq<Interaction>, b: int)
    ensures CountWhere(rows, OfType(b, "chat")) + CountWhere(rows, OfType(b, "call"))
              + CountWhere(rows, OfType(b, "message"))
            == CountWhere(rows, OfShownType(b))
    ensures CountWhere(rows, OfShownType(b)) <= CountWhere(rows, OfBusiness(b))
  {
    var chatOrCall: Interaction -> bool := (i: Interaction) => i.businessId == b && (i.interactionType == "chat" || i.interactionType == "call");
    CountUnion(rows, OfType(b, "chat"), OfType(b, "call"), chatOrCall);
    CountUnion(rows, chatOrCall, OfType(b, "message"), OfShownType(b));
    CountMonotone(rows, OfShownType(b), OfBusiness(b));
  }

  /** The type distribution covers the total exactly when every interaction of
      the business has one of the three types shown. */
  lemma {:induction false} TypesCoverTotalIff(rows: seq<Interaction>, b: int)
    ensures CountWhere(rows, OfType(b, "chat")) + CountWhere(rows, OfType(b, "call"))
              + CountWhere(rows, OfType(b, "message"))
            == CountWhere(rows, OfBusiness(b))
            <==> forall k :: 0 <= k < |rows| && rows[k].businessId == b ==>
                   rows[k].interactionType in ["chat", "call", "message"]
  {
    TypesWithinTotal(rows, b);
    CountSameIff(rows, OfShownType(b), OfBusiness(b));
  }

  // ---- get_booking_stats ----

  /** The `for i in range(0, 7)` loop: today and the six days after it, in
      ascending order. */
  method DailyBookings(bookings: seq<Booking>, b: int, now: int) returns (daily: seq<DayCount>)
    ensures |daily| == 7
    ensures forall k :: 0 <= k < 7 ==>
      daily[k].day == WeekdayNames()[(Weekday(now) + k) % 7] &&
      daily[k].count == CountWhere(bookings,
        Between(BookedWith(b), BookingTime, DayStart(now) + k * Day, DayStart(now) + (k + 1) * Day - Second))
  {
    daily := [];
    for i := 0 to 7
      invariant |daily| == i
      invariant forall k :: 0 <= k < i ==>
        daily[k].day == WeekdayNames()[(Weekday(now) + k) % 7] &&
        daily[k].count == CountWhere(bookings,
          Between(BookedWith(b), BookingTime, DayStart(now) + k * Day, DayStart(now) + (k + 1) * Day - Second))
    {
      var day := now + i * Day;
      var dayStart := DayStart(day);
      var dayEnd := DayEnd(day);
      var count := CountWhere(bookings, Between(BookedWith(b), BookingTime, dayStart, dayEnd));
      DayOffset(now, i);
      daily := daily + [DayCount(DayName(day), count)];
    }
  }

  method GetBookingStats(store: Store, b: int, now: int) returns (r: BookingStats)
    ensures r.upcoming == CountWhere(store.bookings, UpcomingScheduled(b, now))
    ensures r.today == CountWhere(store.bookings, BookedIn(b, DayStart(now), DayStart(now) + Day))
    ensures r.week == CountWhere(store.bookings, BookedIn(b, WeekStart(now), WeekStart(now) + 7 * Day))
    ensures |r.dailyData| == 7
    ensures forall k :: 0 <= k < 7 ==>
      r.dailyData[k].day == WeekdayNames()[(Weekday(now) + k) % 7] &&
      r.dailyData[k].count == CountWhere(store.bookings,
        Between(BookedWith(b), BookingTime, DayStart(now) + k * Day, DayStart(now) + (k + 1) * Day - Second))
    ensures r.statusData == [
      LabelCount("Scheduled", CountWhere(store.bookings, WithStatus(b, "scheduled"))),
      LabelCount("Completed", CountWhere(store.bookings, WithStatus(b, "completed"))),
      LabelCount("Cancelled", CountWhere(store.bookings, WithStatus(b, "cancelled")))]
    // upcoming adds a condition to the scheduled filter
    ensures r.upcoming <= r.statusData[0].count
    // today lies inside this week; each listed day of this week inside both
    ensures r.today <= r.week
    ensures r.dailyData[0].count <= r.today
    ensures forall k :: 0 <= k < 7 - Weekday(now) ==> r.dailyData[k].count <= r.week
    // no booking is counted on two days, nor under two statuses
    ensures SumCounts(r.dailyData) <= CountWhere(store.bookings, BookedWith(b))
    ensures r.statusData[0].count + r.statusData[1].count + r.statusData[2].count
            <= CountWhere(store.bookings, BookedWith(b))
    // a business without bookings gets zeros everywhere, in the same shape
    ensures (forall k :: 0 <= k < |store.bookings| ==> store.bookings[k].businessId != b) ==>
      r.upcoming == r.today == r.week == 0 && SumCounts(r.dailyData) == 0 &&
      r.statusData[0].count == r.statusData[1].count == r.statusData[2].count == 0
  {
    var rows := store.bookings;
    var todayStart := DayStart(now);
    var weekStart := WeekStart(now);

    var upcomingBookings := CountWhere(rows, UpcomingScheduled(b, now));
    var todayBookings := CountWhere(rows, BookedIn(b, todayStart, todayStart + Day));
    var weekBookings := CountWhere(rows, BookedIn(b, weekStart, weekStart + 7 * Day));

    var dailyData := DailyBookings(rows, b, now);

    var scheduledCount := CountWhere(rows, WithStatus(b, "scheduled"));
    var completedCount := CountWhere(rows, WithStatus(b, "completed"));
    var cancelledCount := CountWhere(rows, WithStatus(b, "cancelled"));

    CountMonotone(rows, UpcomingScheduled(b, now), WithStatus(b, "scheduled"));
    BookingWindowsNest(rows, b, now, dailyData);
    StatusesWithinBookings(rows, b);
    CountZeroIff(rows, BookedWith(b));
    CountMonotone(rows, UpcomingScheduled(b, now), BookedWith(b));
    CountMonotone(rows, BookedIn(b, weekStart, weekStart + 7 * Day), BookedWith(b));

    r := BookingStats(upcomingBookings, todayBookings, weekBookings, dailyData, [
      LabelCount("Scheduled", scheduledCount),
      LabelCount("Completed", completedCount),
      LabelCount("Cancelled", cancelledCount)]);
  }

  /** Today's window lies inside this week's, each listed day of this week
      inside the week, the first listed day inside today, and the seven
      listed days count no booking twice. */
  lemma BookingWindowsNest(rows: seq<Booking>, b: int, now: int, daily: seq<DayCount>)
    requires |daily| == 7
    requires forall k :: 0 <= k < 7 ==>
      daily[k].count == CountWhere(rows,
        Between(BookedWith(b), BookingTime, DayStart(now) + k * Day, DayStart(now) + (k + 1) * Day - Second))
    ensures CountWhere(rows, BookedIn(b, DayStart(now), DayStart(now) + Day))
            <= CountWhere(rows, BookedIn(b, WeekStart(now), WeekStart(now) + 7 * Day))
    ensures daily[0].count <= CountWhere(rows, BookedIn(b, DayStart(now), DayStart(now) + Day))
    ensures forall k :: 0 <= k < 7 - Weekday(now) ==>
      daily[k].count <= CountWhere(rows, BookedIn(b, WeekStart(now), WeekStart(now) + 7 * Day))
    ensures SumCounts(daily) <= CountWhere(rows, BookedWith(b))
  {
    var todayStart := DayStart(now);
    var weekStart := WeekStart(now);
    var week := BookedIn(b, weekStart, weekStart + 7 * Day);
    CountMonotone(rows, BookedIn(b, todayStart, todayStart + Day), week);
    forall k | 0 <= k < 7
      ensures k < 7 - Weekday(now) ==> daily[k].count <= CountWhere(rows, week)
      ensures k == 0 ==> daily[k].count <= CountWhere(rows, BookedIn(b, todayStart, todayStart + Day))
    {
      var day := Between(BookedWith(b), BookingTime, todayStart + k * Day, todayStart + (k + 1) * Day - Second);
      if k < 7 - Weekday(now) {
        CountMonotone(rows, day, week);
      }
      if k == 0 {
        CountMonotone(rows, day, BookedIn(b, todayStart, todayStart + Day));
      }
    }
    ConsecutiveDays(daily, rows, BookedWith(b), BookingTime, todayStart);
    CountMonotone(rows, Between(BookedWith(b), BookingTime, todayStart, todayStart + 7 * Day - Second), BookedWith(b));
  }

  /** The three status counts add up to the bookings of the three shown statuses. */
  lemma {:induction false} StatusesWithinBookings(rows: seq<Booking>, b: int)
    ensures CountWhere(rows, WithStatus(b, "scheduled")) + CountWhere(rows, WithStatus(b, "completed"))
              + CountWhere(rows, WithStatus(b, "cancelled"))
            == CountWhere(rows, OfShownStatus(b))
    ensures CountWhere(rows, OfShownStatus(b)) <= CountWhere(rows, BookedWith(b))
  {
    var open: Booking -> bool := (x: Booking) => x.businessId == b && (x.status == Some("scheduled") || x.status == Some("completed"));
    CountUnion(rows, WithStatus(b, "scheduled"), WithStatus(b, "completed"), open);
    CountUnion(rows, open, WithStatus(b, "cancelled"), OfShownStatus(b));
    CountMonotone(rows, OfShownStatus(b), BookedWith(b));
  }

  /** The status distribution covers every booking of the business exactly
      when each has one of the three statuses shown (none is NULL or other). */
  lemma {:induction false} StatusesCoverBookingsIff(rows: seq<Booking>, b: int)
    ensures CountWhere(rows, WithStatus(b, "scheduled")) + CountWhere(rows, WithStatus(b, "completed"))
              + CountWhere(rows, WithStatus(b, "cancelled"))
            == CountWhere(rows, BookedWith(b))
            <==> forall k :: 0 <= k < |rows| && rows[k].businessId == b ==>
                   rows[k].status.Some? && rows[k].status.value in ["scheduled", "completed", "cancelled"]
  {
    StatusesWithinBookings(rows, b);
    CountSameIff(rows, OfShownStatus(b), BookedWith(b));
  }

  // ---- get_customer_stats ----

  /** Every customer with an interaction or a booking with the business. */
  function CustomerIds(store: Store, b: int): (ids: set<int>)
    ensures forall k :: 0 <= k < |store.interactions| && store.interactions[k].businessId == b ==>
      store.interactions[k].customerId in ids
    ensures forall k :: 0 <= k < |store.bookings| && store.bookings[k].businessId == b ==>
      store.bookings[k].customerId in ids
    ensures forall c :: c in ids ==>
      (exists i :: i in store.interactions && i.businessId == b && i.customerId == c) ||
      (exists x :: x in store.bookings && x.businessId == b && x.customerId == c)
  {
    (set i | i in store.interactions && i.businessId == b :: i.customerId)
    + (set x | x in store.bookings && x.businessId == b :: x.customerId)
  }

  /** `Customer.query.filter(Customer.id.in_(ids), Customer.is_new == True)`:
      the customer rows among `ids` whose flag is set (NULL is not). */
  function NewAmong(store: Store, ids: set<int>): (news: set<int>)
    ensures news <= ids
  {
    set c | c in ids && c in store.customers && store.customers[c].isNew == Some(true)
  }

  /** One `for row in rows: customer_ids.add(row.customer_id)` loop. */
  method AddIds<T>(customerIds: set<int>, rows: seq<T>, customerId: T -> int) returns (ids: set<int>)
    ensures ids == customerIds + set x | x in rows :: customerId(x)
  {
    ids := customerIds;
    for k := 0 to |rows|
      invariant ids == customerIds + set x | x in rows[..k] :: customerId(x)
    {
      assert rows[..k + 1] == rows[..k] + [rows[k]];
      ids := ids + {customerId(rows[k])};
    }
    assert rows[..|rows|] == rows;
  }

  /** The two loops that `add` each customer id of the business's
      interactions, then of its bookings, to `customer_ids`. */
  method CollectCustomerIds(store: Store, b: int) returns (customerIds: set<int>)
    ensures customerIds == CustomerIds(store, b)
  {
    var interactions := Filter(store.interactions, OfBusiness(b));
    customerIds := AddIds({}, interactions, (i: Interaction) => i.customerId);
    var bookings := Filter(store.bookings, BookedWith(b));
    customerIds := AddIds(customerIds, bookings, (x: Booking) => x.customerId);
  }

  method GetCustomerStats(store: Store, b: int) returns (r: CustomerStats)
    ensures r.total == |CustomerIds(store, b)|
    ensures r.newCustomers == |NewAmong(store, CustomerIds(store, b))|
    ensures r.returning == r.total - r.newCustomers
    ensures r.newCustomers <= r.total && r.returning >= 0
    ensures r.typeData == [LabelCount("New", r.newCustomers), LabelCount("Returning", r.returning)]
    ensures r.total == 0 <==>
      (forall k :: 0 <= k < |store.interactions| ==> store.interactions[k].businessId != b) &&
      (forall k :: 0 <= k < |store.bookings| ==> store.bookings[k].businessId != b)
  {
    var customerIds := CollectCustomerIds(store, b);
    var totalCustomers := |customerIds|;
    var newCustomers := |NewAmong(store, customerIds)|;
    var returningCustomers := totalCustomers - newCustomers;
    SubsetSize(NewAmong(store, customerIds), customerIds);
    NoCustomersIff(store, b);
    r := CustomerStats(totalCustomers, newCustomers, returningCustomers, [
      LabelCount("New", newCustomers),
      LabelCount("Returning", returningCustomers)]);
  }

  /** A business has no customers exactly when it has no interaction and no booking. */
  lemma NoCustomersIff(store: Store, b: int)
    ensures |CustomerIds(store, b)| == 0 <==>
      (forall k :: 0 <= k < |store.interactions| ==> store.interactions[k].businessId != b) &&
      (forall k :: 0 <= k < |store.bookings| ==> store.bookings[k].businessId != b)
  {
    var ids := CustomerIds(store, b);
    if |ids| == 0 {
      forall k | 0 <= k < |store.interactions| ensures store.interactions[k].businessId != b {
        assert store.interactions[k].customerId !in ids;
      }
      forall k | 0 <= k < |store.bookings| ensures store.bookings[k].businessId != b {
        assert store.bookings[k].customerId !in ids;
      }
    } else {
      var c :| c in ids;
    }
  }

  lemma SubsetSize(small: set<int>, big: set<int>)
    requires small <= big
    ensures |small| <= |big|
  {
    assert big == small + (big - small);
  }
}
