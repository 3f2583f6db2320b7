/** The rows the statistics read (models.py), reduced to the columns they use.
    Timestamps are microseconds since the Unix epoch (see module Clock). */
module Models {
  import opened Wrappers

  /** `interaction_type` is free text; 'chat', 'call' and 'message' are only
      the intended values. `start_time` is a nullable column. */
  datatype Interaction = Interaction(
    businessId: int,
    customerId: int,
    interactionType: string,
    startTime: Option<int>)

  /** `status` is nullable (its default 'scheduled' applies only on insert
      through the ORM); `booking_time` is not. */
  datatype Booking = Booking(
    businessId: int,
    customerId: int,
    status: Option<string>,
    bookingTime: int)

  /** `is_new` is a nullable flag shared by every business. */
  datatype Customer = Customer(isNew: Option<bool>)

  /** The tables; customers are keyed by their primary key `id`. */
  datatype Store = Store(
    interactions: seq<Interaction>,
    bookings: seq<Booking>,
    customers: map<int, Customer>)

  function StartTime(i: Interaction): Option<int> { i.startTime }

  function BookingTime(b: Booking): Option<int> { Some(b.bookingTime) }
}
