/** The booking record shared by the booking queue and the dashboard
    (src/types/index.ts), with the representation choices of this model:
    instants are milliseconds since the epoch, money is an exact real. */
module Bookings {

  /** A point in time in milliseconds since the epoch (`Date.getTime()`);
      `Date` objects compare by this number. */
  type Instant = int

  /** A monetary amount in baht. */
  type Money = real

  /** A month as `Date.getMonth()` numbers it: 0 is January, 11 December. */
  type MonthIndex = m: int | 0 <= m < 12

  datatype Option<T> = None | Some(value: T)

  datatype Status = Pending | Confirmed | InProgress | Completed | Cancelled

  datatype PaymentStatus = Unpaid | Partial | Paid

  datatype Booking = Booking(
    id: string,
    customerName: string,
    customerPhone: string,
    serviceName: string,
    startDate: Instant,
    endDate: Instant,
    status: Status,
    totalPrice: Money,
    paidAmount: Money,
    remainingAmount: Money,
    paymentStatus: PaymentStatus,
    notes: Option<string>,
    createdAt: Instant,
    updatedAt: Instant)

  /** The local-time calendar of the browser: `getFullYear()` and
      `getMonth()` of an instant. The time zone is the environment's, so it
      is a parameter of every view that groups by month or year. */
  datatype Calendar = Calendar(yearOf: Instant -> int, monthOf: Instant -> MonthIndex)

  /** `bookings.map(booking => booking.serviceName)`. */
  function ServiceNames(bs: seq<Booking>): (r: seq<string>)
    ensures |r| == |bs|
    ensures forall i :: 0 <= i < |bs| ==> r[i] == bs[i].serviceName
  {
    seq(|bs|, i requires 0 <= i < |bs| => bs[i].serviceName)
  }

  function Price(b: Booking): Money { b.totalPrice }

  function Outstanding(b: Booking): Money { b.remainingAmount }
}
