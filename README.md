# Rental booking ledger — a Dafny model

This project models the logic of two pages of a rental-admin web app.

The booking queue (`src/pages/BookingQueue.tsx`):
- the in-memory `bookings` list and the three handlers that replace it: add a booking, update a status, and take a payment;
- the views derived from the list: the multi-criteria filtered list, the overdue list, the distinct service names, and the length of a rental in days.

The revenue dashboard (`src/pages/Dashboard.tsx`):
- the twelve monthly revenue figures of the current year, and the year's total;
- growth against the previous month and the previous year;
- outstanding balances for the month and for the year;
- status counts, the month's bookings and the overdue bookings;
- the per-service accumulator (`serviceStats`) with the five most popular services;
- the five best months.

The booking record (`src/types/index.ts`) is `Bookings.Booking`. Dates are whole milliseconds since the epoch. Money is an exact `real`.

Files and modules:
- `seqs.dfy`, module `Seqs`: the `filter`, `reduce` and `new Set` building blocks.
- `sorting.dfy`, module `Sorting`: the stable descending sort followed by `slice(0, n)`.
- `bookings.dfy`, module `Bookings`: the record and the local calendar.
- `booking_queue.dfy`, module `BookingQueue`: the queue page.
- `dashboard.dfy`, module `Dashboard`: the dashboard page.

The booking list is a class, `BookingQueue.BookingStore`, with a `seq<Booking>` field. Each handler reassigns that field. `serviceStats` is a loop that updates a map and records the order in which its entries were created. Everything else is a function, with lemmas about it.

Three things the page reads from the environment become parameters:
- the clock (`new Date()`, `Date.now()`);
- the fresh booking id;
- the browser's local calendar (`getFullYear`, `getMonth`), which is the `Calendar` value.

## Model

| member | source | states |
|---|---|---|
| `BookingQueue.PaymentStatusFor` | src/pages/BookingQueue.tsx:438-443 | the status is paid exactly when the new paid amount reaches the price, partial exactly when it is positive but short of the price, and unpaid otherwise |
| `BookingQueue.Max0` | src/pages/BookingQueue.tsx:450 | the result is the larger of the input and 0 |
| `BookingQueue.NewBooking` | src/pages/BookingQueue.tsx:389-408 | no booking when a date is missing or the price text is blank; otherwise the form's fields with the given id and time, status pending, nothing paid, the whole price outstanding, unpaid, and the price is 0 when it cannot be read; that record's ledger is consistent exactly when its price is positive |
| `BookingQueue.ReplaceById` | src/pages/BookingQueue.tsx:424-428 | same length, every record with the id is replaced by its image, and every other record stays where it was, unchanged |
| `BookingQueue.Settled` | src/pages/BookingQueue.tsx:434-453 | paid grows by the amount; the balance is never negative and is 0 exactly when the price is covered; paid plus balance is the price unless overpaid; the status is paid exactly when the balance is 0; only the four payment fields change |
| `BookingQueue.StatusUpdateKeepsLedgers` | src/pages/BookingQueue.tsx:423-429 | a status update keeps every ledger consistent |
| `BookingQueue.PaymentKeepsLedgers` | src/pages/BookingQueue.tsx:445-455 | a payment leaves every record's ledger consistent, given that the dialog's copy has the record's price |
| `BookingQueue.PaymentsAccumulate` | src/pages/BookingQueue.tsx:431-455 | after a series of payments, paid has grown by their sum; the price and the id are unchanged; after at least one payment the ledger is consistent |
| `BookingQueue.PaymentsCoveringPriceSettle` | src/pages/BookingQueue.tsx:438-450 | payments that add up to the open price leave the booking paid, with nothing remaining |
| `BookingQueue.OverpaymentIsNotCapped` | src/pages/BookingQueue.tsx:449-450 | overpaying records more than the price as paid, while the balance stays at 0 |
| `BookingQueue.BookingStore.AddBooking` | src/pages/BookingQueue.tsx:388-421 | the list is unchanged when the form is incomplete; otherwise exactly one booking, the one the form describes, is appended, and the earlier records are unchanged and in order |
| `BookingQueue.BookingStore.UpdateStatus` | src/pages/BookingQueue.tsx:423-429 | same length and order; the records with the id get the new status and update time; all others are identical; an unknown id leaves the list as it was |
| `BookingQueue.BookingStore.ApplyPayment` | src/pages/BookingQueue.tsx:431-460 | no change without a selection or an amount; otherwise each record with the selected id gets paid, balance and status computed from the selected copy, and the other records are unchanged |
| `BookingQueue.OverdueBookings` | src/pages/BookingQueue.tsx:466-470 | an order-preserving subsequence holding exactly the bookings that are not paid, ended before now, and not cancelled, each as many times as it occurs in the list |
| `BookingQueue.UniqueServiceTypes` | src/pages/BookingQueue.tsx:463 | no name twice; every booking's service is listed and nothing else; names appear in the order of their first booking |
| `BookingQueue.CalculateDays` | src/pages/BookingQueue.tsx:506-508 | the least whole number of days whose span covers the interval (the ceiling) |
| `BookingQueue.Includes` | src/pages/BookingQueue.tsx:485-487 | true exactly when the needle occurs at some position of the text |
| `BookingQueue.FilteredBookings` | src/pages/BookingQueue.tsx:472-497 | an order-preserving subsequence; every kept booking meets the tab, search, date and service conditions; each booking meeting them is kept as often as it occurs, and none of the others is kept |
| `BookingQueue.FilteredBookingsIdempotent` | src/pages/BookingQueue.tsx:472-497 | filtering the filtered list again changes nothing |
| `BookingQueue.NoCriteriaShowsAll` | src/pages/BookingQueue.tsx:474-496 | tab 0 with no search, dates or service shows the whole list |
| `Seqs.Dedup` | src/pages/BookingQueue.tsx:463 | no repeats; contains exactly the elements of the input |
| `Seqs.DedupFirstAppearance` | src/pages/BookingQueue.tsx:463 | elements are listed in the order of their first occurrence |
| `Dashboard.MonthlyRevenue` | src/pages/Dashboard.tsx:56-64 | twelve entries; entry m is the price total of the completed bookings ending in month m of the year |
| `Dashboard.MonthlyRevenueNonNegative` | src/pages/Dashboard.tsx:56-64 | with no negative price, every monthly entry is at least 0 |
| `Dashboard.MonthlyRevenueSumsToYear` | src/pages/Dashboard.tsx:71 | the twelve entries add up to the completed revenue of bookings ending in the year |
| `Dashboard.CurrentYearRevenue` | src/pages/Dashboard.tsx:71 | the sum of the monthly entries equals the year's completed revenue |
| `Dashboard.PreviousMonth` | src/pages/Dashboard.tsx:74 | the month before, with December before January |
| `Dashboard.Growth` | src/pages/Dashboard.tsx:76-78 | 0 when the previous figure is not positive; otherwise the percentage change, positive exactly when the figure rose and negative exactly when it fell, and never below -100 for a non-negative current figure |
| `Dashboard.MonthGrowth` | src/pages/Dashboard.tsx:74-78 | the growth of this month against the previous entry of the same year's twelve, so January is compared with December of the same year |
| `Dashboard.YearGrowth` | src/pages/Dashboard.tsx:81-89 | the growth of this year's completed revenue against last year's |
| `Dashboard.MonthOutstanding` | src/pages/Dashboard.tsx:92-97 | the month's outstanding total is never negative |
| `Dashboard.YearOutstanding` | src/pages/Dashboard.tsx:99-103 | the year's outstanding total is never negative |
| `Dashboard.MonthOutstandingWithinYear` | src/pages/Dashboard.tsx:92-103 | the month's outstanding total is at most the year's |
| `Dashboard.StatusCountsPartition` | src/pages/Dashboard.tsx:106-109 | the five status counts add up to the number of bookings |
| `Dashboard.MonthBookings` | src/pages/Dashboard.tsx:112-116 | an order-preserving subsequence holding exactly the bookings that start in the month, each as many times as it occurs in the list |
| `Dashboard.OverdueBookings` | src/pages/Dashboard.tsx:119-123 | an order-preserving subsequence holding exactly the bookings that ended before today and are neither completed nor cancelled, whatever their payment, each as many times as it occurs in the list |
| `Dashboard.TallyBooking` | src/pages/Dashboard.tsx:127-135 | one step of the fold: the booking's service entry is created at zero if missing, then counted, then credited with the price if the booking is completed; a new service goes to the end of the creation order |
| `Dashboard.TalliesMeaning` | src/pages/Dashboard.tsx:126-136 | the accumulator has one entry per service that occurs; the entries are in first-appearance order; each holds that service's booking count and the price total of its completed bookings |
| `Dashboard.ServiceStats` | src/pages/Dashboard.tsx:126-136 | the loop builds the fold's accumulator and creation order, so it meets everything `TalliesMeaning` states |
| `Dashboard.ServiceCountsAddUp` | src/pages/Dashboard.tsx:126-136 | the per-service counts add up to the number of bookings |
| `Dashboard.Entries` | src/pages/Dashboard.tsx:138-143 | one row per service in creation order, each showing that service's figures |
| `Dashboard.PopularServices` | src/pages/Dashboard.tsx:138-145 | at most five rows; counts never increase down the list; each row shows its service's figures; no service left out has more bookings than any listed |
| `Dashboard.PopularServicesTiesKeepOrder` | src/pages/Dashboard.tsx:144-145 | among listed services with equal counts, the order is creation order, and they are the first such services |
| `Dashboard.Ranked` | src/pages/Dashboard.tsx:852 | entry i pairs month i with its revenue, and no pair occurs twice |
| `Dashboard.TopMonths` | src/pages/Dashboard.tsx:851-854 | at most five months; revenue never increases down the list; each entry's revenue is that month's entry; no month is listed twice; no month left out earned more than any listed |
| `Dashboard.TopMonthsTiesKeepOrder` | src/pages/Dashboard.tsx:853-854 | among listed months with equal revenue, the order is calendar order, and they are the first such months (all-zero months list January first) |
| `Sorting.SortDesc` | src/pages/Dashboard.tsx:144 | a permutation of the input, non-increasing by the key |
| `Sorting.SortStable` | src/pages/Dashboard.tsx:144 | elements with equal keys keep their input order |
| `Sorting.Top` | src/pages/Dashboard.tsx:853-854 | the first n of the sorted list: sorted, taken from the input, no repeats when the input has none, and no left-out element has a greater key than a kept one |
| `Sorting.TopStable` | src/pages/Dashboard.tsx:144-145 | after the cut, the kept elements with one key are a prefix of that key's elements in input order |

## Left out

- Rendering is not modelled: the JSX, MUI styling, dialogs and tabs. The status and payment colour, icon and label tables are not modelled either. None of these affects the list.
- Mock-data loading (`import('../utils/mockData')`) is not modelled. It is asynchronous I/O, and `src/utils/mockData` is not part of this model. The store's constructor takes the initial list instead.
- `Date.now()` ids and `new Date()` timestamps are parameters.
- `getFullYear`/`getMonth` in the browser's time zone are the `Calendar` parameter.
- `parseFloat` is not modelled:
  - A price text is either blank, a parsed number, or unreadable (`PriceText`).
  - A payment amount is either missing or a number.
  - A payment amount that reads as NaN is not modelled.
- Money is an exact real. IEEE-754 rounding, NaN and the infinities are not modelled.
- `toFixed`, the rounded success rate and the rounded average are presentation only.
- `toLocaleString` formatting is presentation only.
- Chart.js configuration is a foreign library.
- `toLowerCase` lowers the ASCII letters A–Z only. Other Unicode case mappings are not modelled.
- `Dashboard.ServiceStats`: the creation order stands for the order `Object.entries` gives. The model does not capture that keys which look like array indices ("1", "42") come first. It also does not capture that a service named like an `Object.prototype` member (e.g. "constructor") is found on the prototype.
- Layout, PWA install and update prompts, routing and web-vitals (`src/components/*`, `src/App.tsx`, `src/index.tsx`, `src/reportWebVitals.ts`) carry no booking logic.
