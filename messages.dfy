/** The `Message` value type of the load generator: one customer's
    electrical consumption reading, built either from given fields or from a
    random draw and the wall clock. */
module Messages {

  /** Rust's `u32`. */
  type U32 = x: int | 0 <= x < 0x1_0000_0000

  /** Rust's `u128`. */
  type U128 = x: int | 0 <= x < 0x1_0000_0000_0000_0000_0000_0000_0000_0000

  /** `MilliwattHours(pub f32)`: the reading is an `f32`, kept opaque here as
      its 32-bit pattern; nothing in the model computes with it. */
  datatype MilliwattHours = MilliwattHours(bits: bv32)

  /** A reading. The three fields are private in the source and reached only
      through `New` and the three getters. */
  datatype Message = Message(customerId: U32, consumption: MilliwattHours, timestamp: U128)
  {
    /** Getter `customer_id(&self)`: gives back the id the message was built from. */
    function CustomerId(): (c: U32)
      ensures New(c, consumption, timestamp) == this
    {
      customerId
    }

    /** Getter `consumption(&self)`: gives back the reading the message was built from. */
    function Consumption(): (k: MilliwattHours)
      ensures New(customerId, k, timestamp) == this
    {
      consumption
    }

    /** Getter `timestamp(&self)`: gives back the timestamp the message was built from. */
    function Timestamp(): (t: U128)
      ensures New(customerId, consumption, t) == this
    {
      timestamp
    }
  }

  /** `Message::new`: a message whose getters return exactly the arguments. */
  function New(customerId: U32, consumption: MilliwattHours, timestamp: U128): (m: Message)
    ensures m.customerId == customerId && m.consumption == consumption && m.timestamp == timestamp
  {
    Message(customerId, consumption, timestamp)
  }

  /** Building from the getters gives back the same message, and the getters
      of a built message give back the arguments. */
  lemma GettersRoundTrip(m: Message, c: U32, k: MilliwattHours, t: U128)
    ensures New(m.CustomerId(), m.Consumption(), m.Timestamp()) == m
    ensures New(c, k, t).CustomerId() == c
    ensures New(c, k, t).Consumption() == k
    ensures New(c, k, t).Timestamp() == t
  {
  }

  /** The closed range `1_000..=9_999` that `with_rng` draws customer ids from. */
  const MinCustomerId: int := 1_000
  const MaxCustomerId: int := 9_999

  const NanosPerMilli: int := 1_000_000

  /** A `Duration` holds at most `u64::MAX` whole seconds; a clock reading is
      its signed distance from the Unix epoch in nanoseconds. */
  const DurationLimitNanos: int := 0x1_0000_0000_0000_0000 * 1_000_000_000
  type ClockNanos = n: int | -DurationLimitNanos < n < DurationLimitNanos

  /** What `with_rng` ends in: a message, or the panic "Time went backwards!"
      raised when the clock reads before the epoch. */
  datatype Generated = Generated(message: Message) | TimeWentBackwards

  /** The customer id that `random_range(1_000..=9_999)` yields for a raw
      32-bit draw. */
  function CustomerIdOfDraw(draw: U32): (c: U32)
    ensures MinCustomerId <= c <= MaxCustomerId
  {
    MinCustomerId + draw % (MaxCustomerId - MinCustomerId + 1)
  }

  /** Every id of the range is drawn by some raw draw. */
  lemma EveryCustomerIdIsDrawn(c: int)
    requires MinCustomerId <= c <= MaxCustomerId
    ensures CustomerIdOfDraw(c - MinCustomerId) == c
  {
  }

  /** `Duration::as_millis` of a non-negative clock reading: whole
      milliseconds, the sub-millisecond rest dropped. */
  function AsMillis(nanos: ClockNanos): (ms: U128)
    requires 0 <= nanos
    ensures ms * NanosPerMilli <= nanos < (ms + 1) * NanosPerMilli
  {
    nanos / NanosPerMilli
  }

  /** `Message::with_rng`, with the random id draw, the already scaled random
      consumption and the clock reading passed in. */
  function WithRng(idDraw: U32, consumption: MilliwattHours, clock: ClockNanos): (g: Generated)
    ensures g.TimeWentBackwards? <==> clock < 0
    ensures g.Generated? ==>
      && MinCustomerId <= g.message.CustomerId() <= MaxCustomerId
      && g.message.Consumption() == consumption
      && g.message.Timestamp() * NanosPerMilli <= clock < (g.message.Timestamp() + 1) * NanosPerMilli
  {
    if clock < 0 then
      TimeWentBackwards
    else
      Generated(New(CustomerIdOfDraw(idDraw), consumption, AsMillis(clock)))
  }

  /** Truncation to milliseconds is monotonic: a clock that does not go back
      gives timestamps that do not go back. */
  lemma {:induction false} TimestampsNonDecreasing(
    d1: U32, k1: MilliwattHours, c1: ClockNanos,
    d2: U32, k2: MilliwattHours, c2: ClockNanos)
    requires 0 <= c1 <= c2
    ensures WithRng(d1, k1, c1).Generated? && WithRng(d2, k2, c2).Generated?
    ensures WithRng(d1, k1, c1).message.Timestamp() <= WithRng(d2, k2, c2).message.Timestamp()
  {
  }
}
