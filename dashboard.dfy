/** The revenue dashboard (src/pages/Dashboard.tsx): figures folded from the
    booking list for the year and month of `now` in the local calendar —
    revenue per month, growth against the previous period, outstanding
    balances, status counts, overdue bookings, the services booked most
    often and the best months. */
module Dashboard {
  import opened Seqs
  import opened Sorting
  import opened Bookings

  // ---------------------------------------------------------------------
  // Revenue
  // ---------------------------------------------------------------------

  /** Completed, and ending in month `month` of year `year`. */
  predicate CompletedIn(cal: Calendar, b: Booking, year: int, month: int)
  {
    cal.monthOf(b.endDate) == month && cal.yearOf(b.endDate) == year && b.status == Completed
  }

  /** Completed, and ending in year `year`. */
  predicate CompletedInYear(cal: Calendar, b: Booking, year: int)
  {
    cal.yearOf(b.endDate) == year && b.status == Completed
  }

  /** The price total of the completed bookings ending in one month. */
  function MonthRevenue(bs: seq<Booking>, cal: Calendar, year: int, month: int): Money
  {
    Sum(Filter(bs, (b: Booking) => CompletedIn(cal, b, year, month)), Price)
  }

  /** The price total of the completed bookings ending in one year
      (`previousYearRevenue` for the year before the current one). */
  function YearRevenue(bs: seq<Booking>, cal: Calendar, year: int): Money
  {
    Sum(Filter(bs, (b: Booking) => CompletedInYear(cal, b, year)), Price)
  }

  /** `monthlyRevenue`: one entry per month of `year`, January first. */
  function MonthlyRevenue(bs: seq<Booking>, cal: Calendar, year: int): (r: seq<Money>)
    ensures |r| == 12
    ensures forall m :: 0 <= m < 12 ==> r[m] == MonthRevenue(bs, cal, year, m)
  {
    seq(12, m => MonthRevenue(bs, cal, year, m))
  }

  /** With no negative price, no month has negative revenue. */
  lemma MonthlyRevenueNonNegative(bs: seq<Booking>, cal: Calendar, year: int)
    requires forall b :: b in bs ==> b.totalPrice >= 0.0
    ensures forall m :: 0 <= m < 12 ==> MonthlyRevenue(bs, cal, year)[m] >= 0.0
  {
    forall m | 0 <= m < 12
      ensures MonthRevenue(bs, cal, year, m) >= 0.0
    {
      FilterMembers(bs, (b: Booking) => CompletedIn(cal, b, year, m));
      SumNonNegative(Filter(bs, (b: Booking) => CompletedIn(cal, b, year, m)), Price);
    }
  }

  /** The twelve monthly entries add up to the completed revenue of the
      year: every booking ending in the year ends in exactly one month. */
  lemma {:induction false} MonthlyRevenueSumsToYear(bs: seq<Booking>, cal: Calendar, year: int)
    ensures Sum(MonthlyRevenue(bs, cal, year), Id) == YearRevenue(bs, cal, year)
  {
    if bs == [] {
      SumZero(MonthlyRevenue(bs, cal, year));
    } else {
      var b, rest := bs[0], bs[1..];
      assert bs == [b] + rest;
      MonthlyRevenueSumsToYear(rest, cal, year);
      var before := MonthlyRevenue(rest, cal, year);
      var after := MonthlyRevenue(bs, cal, year);
      var added := seq(12, m => if CompletedIn(cal, b, year, m) then b.totalPrice else 0.0);
      forall m | 0 <= m < 12
        ensures after[m] == before[m] + added[m]
      {
        SumFilterCons(b, rest, x => CompletedIn(cal, x, year, m), Price);
      }
      SumPointwise(before, added, after);
      SumSingleEntry(added, cal.monthOf(b.endDate));
      SumFilterCons(b, rest, x => CompletedInYear(cal, x, year), Price);
    }
  }

  /** `currentYearRevenue`: the sum of the twelve monthly entries, which is
      the completed revenue of the year. */
  function CurrentYearRevenue(bs: seq<Booking>, cal: Calendar, year: int): (r: Money)
    ensures r == YearRevenue(bs, cal, year)
  {
    MonthlyRevenueSumsToYear(bs, cal, year);
    Sum(MonthlyRevenue(bs, cal, year), Id)
  }

  /** The month before `month`, December before January. */
  function PreviousMonth(month: MonthIndex): (p: MonthIndex)
    ensures (p + 1) % 12 == month
  {
    if month == 0 then 11 else month - 1
  }

  /** Percentage change from `previous` to `current`, and 0 when there is no
      positive previous figure to divide by. */
  function Growth(current: Money, previous: Money): (g: real)
    ensures previous <= 0.0 ==> g == 0.0
    ensures previous > 0.0 ==> g * previous == (current - previous) * 100.0
    ensures previous > 0.0 ==> (g > 0.0 <==> current > previous) && (g < 0.0 <==> current < previous)
    ensures previous > 0.0 && current >= 0.0 ==> g >= -100.0
  {
    if previous > 0.0 then
      var ratio := (current - previous) / previous;
      assert previous / previous == 1.0;
      assert ratio == current / previous - previous / previous;
      assert current >= 0.0 ==> current / previous >= 0.0;
      ratio * 100.0
    else 0.0
  }

  /** `monthGrowth`: this month against the previous entry of the same
      year's twelve, so January is compared with December of the same year. */
  function MonthGrowth(bs: seq<Booking>, cal: Calendar, year: int, month: MonthIndex): (g: real)
    ensures g == Growth(MonthRevenue(bs, cal, year, month), MonthRevenue(bs, cal, year, PreviousMonth(month)))
  {
    var monthly := MonthlyRevenue(bs, cal, year);
    Growth(monthly[month], monthly[PreviousMonth(month)])
  }

  /** `yearGrowth`: this year's completed revenue against last year's. */
  function YearGrowth(bs: seq<Booking>, cal: Calendar, year: int): (g: real)
    ensures g == Growth(YearRevenue(bs, cal, year), YearRevenue(bs, cal, year - 1))
  {
    Growth(CurrentYearRevenue(bs, cal, year), YearRevenue(bs, cal, year - 1))
  }

  // ---------------------------------------------------------------------
  // Outstanding balances
  // ---------------------------------------------------------------------

  predicate OwedInMonth(cal: Calendar, b: Booking, year: int, month: int)
  {
    cal.monthOf(b.endDate) == month && cal.yearOf(b.endDate) == year && b.remainingAmount > 0.0
  }

  predicate OwedInYear(cal: Calendar, b: Booking, year: int)
  {
    cal.yearOf(b.endDate) == year && b.remainingAmount > 0.0
  }

  /** `currentMonthOutstanding`: the positive balances of the bookings
      ending in the month. */
  function MonthOutstanding(bs: seq<Booking>, cal: Calendar, year: int, month: int): (r: Money)
    ensures r >= 0.0
  {
    SumNonNegative(Filter(bs, (b: Booking) => OwedInMonth(cal, b, year, month)), Outstanding);
    Sum(Filter(bs, (b: Booking) => OwedInMonth(cal, b, year, month)), Outstanding)
  }

  /** `currentYearOutstanding`: the positive balances of the bookings ending
      in the year. */
  function YearOutstanding(bs: seq<Booking>, cal: Calendar, year: int): (r: Money)
    ensures r >= 0.0
  {
    SumNonNegative(Filter(bs, (b: Booking) => OwedInYear(cal, b, year)), Outstanding);
    Sum(Filter(bs, (b: Booking) => OwedInYear(cal, b, year)), Outstanding)
  }

  /** A month's outstanding total is part of its year's. */
  lemma MonthOutstandingWithinYear(bs: seq<Booking>, cal: Calendar, year: int, month: int)
    ensures MonthOutstanding(bs, cal, year, month) <= YearOutstanding(bs, cal, year)
  {
    SumFilterMonotone(bs, b => OwedInMonth(cal, b, year, month), b => OwedInYear(cal, b, year), Outstanding);
  }

  // ---------------------------------------------------------------------
  // Counts and lists
  // ---------------------------------------------------------------------

  /** The number of bookings in one status (`completedBookings`,
      `pendingBookings`, `inProgressBookings`). */
  function StatusCount(bs: seq<Booking>, status: Status): nat
  {
    |Filter(bs, (b: Booking) => b.status == status)|
  }

  /** Every booking is in exactly one status. */
  lemma {:induction false} StatusCountsPartition(bs: seq<Booking>)
    ensures StatusCount(bs, Pending) + StatusCount(bs, Confirmed) + StatusCount(bs, InProgress)
          + StatusCount(bs, Completed) + StatusCount(bs, Cancelled) == |bs|
  {
    if bs != [] {
      StatusCountsPartition(bs[1..]);
    }
  }

  /** `currentMonthBookings`: the bookings starting in the month. */
  function MonthBookings(bs: seq<Booking>, cal: Calendar, year: int, month: int): (r: seq<Booking>)
    ensures IsSubsequence(r, bs)
    ensures forall b :: b in r <==> b in bs && cal.monthOf(b.startDate) == month && cal.yearOf(b.startDate) == year
    ensures forall b :: multiset(r)[b] ==
              if cal.monthOf(b.startDate) == month && cal.yearOf(b.startDate) == year then multiset(bs)[b] else 0
  {
    var starting := (b: Booking) => cal.monthOf(b.startDate) == month && cal.yearOf(b.startDate) == year;
    FilterMembers(bs, starting);
    forall b
      ensures multiset(Filter(bs, starting))[b] == if starting(b) then multiset(bs)[b] else 0
    {
      FilterCounts(bs, starting, b);
    }
    Filter(bs, starting)
  }

  /** The dashboard's `overdueBookings`: past their end date and neither
      completed nor cancelled, whatever has been paid. */
  function OverdueBookings(bs: seq<Booking>, today: Instant): (r: seq<Booking>)
    ensures IsSubsequence(r, bs)
    ensures forall b :: b in r <==> b in bs && b.endDate < today && b.status != Completed && b.status != Cancelled
    ensures forall b :: multiset(r)[b] ==
              if b.endDate < today && b.status != Completed && b.status != Cancelled then multiset(bs)[b] else 0
  {
    var late := (b: Booking) => b.endDate < today && b.status != Completed && b.status != Cancelled;
    FilterMembers(bs, late);
    forall b
      ensures multiset(Filter(bs, late))[b] == if late(b) then multiset(bs)[b] else 0
    {
      FilterCounts(bs, late, b);
    }
    Filter(bs, late)
  }

  // ---------------------------------------------------------------------
  // Services
  // ---------------------------------------------------------------------

  /** The accumulator entry of one service. */
  datatype ServiceStat = ServiceStat(count: nat, revenue: Money)

  /** The number of bookings of a service. */
  function ServiceCount(bs: seq<Booking>, name: string): nat
  {
    |Filter(bs, (b: Booking) => b.serviceName == name)|
  }

  /** The price total of the completed bookings of a service. */
  function ServiceRevenue(bs: seq<Booking>, name: string): Money
  {
    Sum(Filter(bs, (b: Booking) => b.serviceName == name && b.status == Completed), Price)
  }

  /** How the figures of one service change when a booking is added at the end. */
  lemma ServiceFiguresSnoc(bs: seq<Booking>, b: Booking, name: string)
    ensures ServiceCount(bs + [b], name) == ServiceCount(bs, name) + (if b.serviceName == name then 1 else 0)
    ensures ServiceRevenue(bs + [b], name)
         == ServiceRevenue(bs, name) + (if b.serviceName == name && b.status == Completed then b.totalPrice else 0.0)
  {
    FilterAppend(bs, [b], (x: Booking) => x.serviceName == name);
    var p := (x: Booking) => x.serviceName == name && x.status == Completed;
    FilterAppend(bs, [b], p);
    SumAppend(Filter(bs, p), Filter([b], p), Price);
  }

  /** A service no booking names has no bookings and no revenue. */
  lemma AbsentServiceFigures(bs: seq<Booking>, name: string)
    requires name !in ServiceNames(bs)
    ensures ServiceCount(bs, name) == 0 && ServiceRevenue(bs, name) == 0.0
  {
    assert forall i :: 0 <= i < |bs| ==> ServiceNames(bs)[i] == bs[i].serviceName;
    FilterNone(bs, (x: Booking) => x.serviceName == name);
    FilterNone(bs, (x: Booking) => x.serviceName == name && x.status == Completed);
  }

  /** The booking counts of the names in `names`, added up. */
  function CountsOver(bs: seq<Booking>, names: seq<string>): nat
  {
    if names == [] then 0 else CountsOver(bs, names[..|names| - 1]) + ServiceCount(bs, names[|names| - 1])
  }

  /** Adding a booking raises the total over distinct names by one exactly
      when its service is among them. */
  lemma {:induction false} CountsOverSnoc(bs: seq<Booking>, b: Booking, names: seq<string>)
    requires Distinct(names)
    ensures CountsOver(bs + [b], names) == CountsOver(bs, names) + (if b.serviceName in names then 1 else 0)
  {
    if names != [] {
      var init, last := names[..|names| - 1], names[|names| - 1];
      assert names == init + [last];
      CountsOverSnoc(bs, b, init);
      ServiceFiguresSnoc(bs, b, last);
    }
  }

  /** Meeting one more booking adds its service to the de-duplicated names
      exactly when the service is new. */
  lemma ServiceNamesSnoc(bs: seq<Booking>, b: Booking)
    ensures Dedup(ServiceNames(bs + [b]))
         == if b.serviceName in Dedup(ServiceNames(bs)) then Dedup(ServiceNames(bs))
            else Dedup(ServiceNames(bs)) + [b.serviceName]
  {
    var names := ServiceNames(bs + [b]);
    assert names[..|names| - 1] == ServiceNames(bs);
  }

  /** The per-service counts add up to the number of bookings. */
  lemma {:induction false} ServiceCountsAddUp(bs: seq<Booking>)
    ensures CountsOver(bs, Dedup(ServiceNames(bs))) == |bs|
  {
    if bs != [] {
      var init, b := bs[..|bs| - 1], bs[|bs| - 1];
      assert bs == init + [b];
      ServiceCountsAddUp(init);
      ServiceNamesSnoc(init, b);
      var d := Dedup(ServiceNames(init));
      CountsOverSnoc(init, b, d);
      if b.serviceName !in d {
        ServiceFiguresSnoc(init, b, b.serviceName);
        AbsentServiceFigures(init, b.serviceName);
      }
    }
  }

  /** The accumulator after the bookings `bs`: one entry per service met, in
      the order `order` of first meeting, holding that service's figures. */
  ghost predicate TalliesOf(bs: seq<Booking>, stats: map<string, ServiceStat>, order: seq<string>)
  {
    && order == Dedup(ServiceNames(bs))
    && (forall n :: n in stats <==> n in order)
    && (forall n :: n in stats ==> stats[n] == ServiceStat(ServiceCount(bs, n), ServiceRevenue(bs, n)))
  }

  /** The accumulator's entry for `b`'s service after meeting `b`: created
      at zero if missing, then counted, and credited with the price when `b`
      is completed. */
  function Tallied(stats: map<string, ServiceStat>, b: Booking): ServiceStat
  {
    var current := if b.serviceName in stats then stats[b.serviceName] else ServiceStat(0, 0.0);
    ServiceStat(current.count + 1, current.revenue + if b.status == Completed then b.totalPrice else 0.0)
  }

  /** Meeting one more booking creates an entry exactly for a new service,
      at the end of the creation order. */
  lemma TallyKeysStep(seen: seq<Booking>, b: Booking, stats: map<string, ServiceStat>, order: seq<string>)
    requires order == Dedup(ServiceNames(seen))
    requires forall n :: n in stats <==> n in order
    ensures var order' := if b.serviceName in stats then order else order + [b.serviceName];
      && order' == Dedup(ServiceNames(seen + [b]))
      && forall n :: n in stats[b.serviceName := Tallied(stats, b)] <==> n in order'
  {
    ServiceNamesSnoc(seen, b);
  }

  /** Meeting one more booking brings its service's figures up to date and
      leaves the others as they are. */
  lemma TallyFiguresStep(seen: seq<Booking>, b: Booking, stats: map<string, ServiceStat>)
    requires forall n :: n in stats ==> stats[n] == ServiceStat(ServiceCount(seen, n), ServiceRevenue(seen, n))
    requires forall n :: n in ServiceNames(seen) ==> n in stats
    ensures var stats' := stats[b.serviceName := Tallied(stats, b)];
      forall n :: n in stats' ==> stats'[n] == ServiceStat(ServiceCount(seen + [b], n), ServiceRevenue(seen + [b], n))
  {
    var service := b.serviceName;
    var stats' := stats[service := Tallied(stats, b)];
    forall n | n in stats'
      ensures stats'[n] == ServiceStat(ServiceCount(seen + [b], n), ServiceRevenue(seen + [b], n))
    {
      ServiceFiguresSnoc(seen, b, n);
      if n == service {
        if service !in stats {
          assert service !in ServiceNames(seen);
          AbsentServiceFigures(seen, service);
        }
        assert stats'[n] == Tallied(stats, b);
      } else {
        assert n in stats && stats'[n] == stats[n];
      }
    }
  }

  /** Meeting one more booking keeps the accumulator in step with the
      bookings met so far. */
  lemma TalliesSnoc(seen: seq<Booking>, b: Booking, stats: map<string, ServiceStat>, order: seq<string>)
    requires TalliesOf(seen, stats, order)
    ensures TalliesOf(seen + [b], stats[b.serviceName := Tallied(stats, b)],
                      if b.serviceName in stats then order else order + [b.serviceName])
  {
    assert forall n :: n in ServiceNames(seen) ==> n in stats by {
      assert forall i :: 0 <= i < |seen| ==> ServiceNames(seen)[i] in order;
    }
    TallyFiguresStep(seen, b, stats);
    TallyKeysStep(seen, b, stats, order);
  }

  /** The accumulator the `reduce` of `serviceStats` builds over `bs`. */
  function Tallies(bs: seq<Booking>): map<string, ServiceStat>
  {
    if bs == [] then map[]
    else
      var prior := Tallies(bs[..|bs| - 1]);
      prior[bs[|bs| - 1].serviceName := Tallied(prior, bs[|bs| - 1])]
  }

  lemma TalliesAppend(seen: seq<Booking>, b: Booking)
    ensures Tallies(seen + [b]) == Tallies(seen)[b.serviceName := Tallied(Tallies(seen), b)]
  {
    assert (seen + [b])[..|seen|] == seen;
  }

  /** The accumulator holds one entry per service met, in the order of
      first meeting, with that service's booking count and completed
      revenue. */
  lemma {:induction false} TalliesMeaning(bs: seq<Booking>)
    ensures TalliesOf(bs, Tallies(bs), Dedup(ServiceNames(bs)))
  {
    if bs != [] {
      var init, b := bs[..|bs| - 1], bs[|bs| - 1];
      assert bs == init + [b];
      TalliesMeaning(init);
      TalliesSnoc(init, b, Tallies(init), Dedup(ServiceNames(init)));
      TalliesAppend(init, b);
    }
  }

  /** One more booking extends the creation order the way the `reduce`
      callback does: at the end, exactly when its service has no entry yet. */
  lemma TalliesNext(seen: seq<Booking>, b: Booking)
    ensures Dedup(ServiceNames(seen + [b]))
         == if b.serviceName in Tallies(seen) then Dedup(ServiceNames(seen))
            else Dedup(ServiceNames(seen)) + [b.serviceName]
  {
    assert b.serviceName in Tallies(seen) <==> b.serviceName in Dedup(ServiceNames(seen)) by {
      TalliesMeaning(seen);
    }
    ServiceNamesSnoc(seen, b);
  }

  /** The `reduce` callback of `serviceStats`: create the entry of the
      booking's service at zero if it is missing (noting its place in the
      creation order), count the booking, and credit its price when it is
      completed. */
  method TallyBooking(stats: map<string, ServiceStat>, order: seq<string>, booking: Booking)
    returns (stats': map<string, ServiceStat>, order': seq<string>)
    ensures stats' == stats[booking.serviceName := Tallied(stats, booking)]
    ensures order' == if booking.serviceName in stats then order else order + [booking.serviceName]
  {
    var service := booking.serviceName;
    var entry := if service in stats then stats[service] else ServiceStat(0, 0.0);
    order' := order;
    if service !in stats {
      order' := order + [service];
    }
    entry := entry.(count := entry.count + 1);
    if booking.status == Completed {
      entry := entry.(revenue := entry.revenue + booking.totalPrice);
    }
    stats' := stats[service := entry];
  }

  /** `serviceStats`: one pass over the bookings that counts each service
      and adds the price of its completed bookings, creating a service's
      entry the first time it is met; `order` records the order in which the
      entries were created, which is the order `Object.entries` lists them. */
  method ServiceStats(bs: seq<Booking>) returns (stats: map<string, ServiceStat>, order: seq<string>)
    ensures stats == Tallies(bs)
    ensures TalliesOf(bs, stats, order)
  {
    stats, order := map[], [];
    ghost var seen: seq<Booking> := [];
    var i := 0;
    while i < |bs|
      invariant 0 <= i <= |bs|
      invariant seen == bs[..i]
      invariant stats == Tallies(seen)
      invariant order == Dedup(ServiceNames(seen))
    {
      TalliesAppend(seen, bs[i]);
      TalliesNext(seen, bs[i]);
      stats, order := TallyBooking(stats, order, bs[i]);
      PrefixSnoc(bs, i);
      seen := seen + [bs[i]];
      i := i + 1;
    }
    assert seen == bs;
    TalliesMeaning(bs);
  }

  /** One row of `popularServices`. */
  datatype ServiceEntry = ServiceEntry(service: string, count: nat, revenue: Money)

  /** The row shows the figures the accumulator holds for its service. */
  predicate ShowsTally(stats: map<string, ServiceStat>, e: ServiceEntry)
  {
    e.service in stats && e.count == stats[e.service].count && e.revenue == stats[e.service].revenue
  }

  /** `Object.entries(serviceStats)` as rows, in creation order. */
  function Entries(order: seq<string>, stats: map<string, ServiceStat>): (r: seq<ServiceEntry>)
    requires forall n :: n in order ==> n in stats
    ensures |r| == |order|
    ensures forall i :: 0 <= i < |r| ==> r[i].service == order[i] && ShowsTally(stats, r[i])
  {
    seq(|order|, i requires 0 <= i < |order| =>
      ServiceEntry(order[i], stats[order[i]].count, stats[order[i]].revenue))
  }

  function CountKey(e: ServiceEntry): real { e.count as real }

  /** The ranking order of the rows kept, in terms of their counts. */
  lemma TopCountsOrdered(entries: seq<ServiceEntry>, r: seq<ServiceEntry>)
    requires r == Top(entries, CountKey, 5)
    ensures forall i, j :: 0 <= i < j < |r| ==> r[i].count >= r[j].count
    ensures forall e, i :: e in entries && e !in r && 0 <= i < |r| ==> r[i].count >= e.count
  {
    forall i, j | 0 <= i < j < |r|
      ensures r[i].count >= r[j].count
    {
      assert CountKey(r[i]) >= CountKey(r[j]);
    }
    forall e, i | e in entries && e !in r && 0 <= i < |r|
      ensures r[i].count >= e.count
    {
      assert CountKey(r[i]) >= CountKey(e);
    }
  }

  /** Rows drawn from `Entries` show the accumulator's figures. */
  lemma EntriesShowTally(order: seq<string>, stats: map<string, ServiceStat>, r: seq<ServiceEntry>)
    requires forall n :: n in order ==> n in stats
    requires forall i :: 0 <= i < |r| ==> r[i] in Entries(order, stats)
    ensures forall i :: 0 <= i < |r| ==> ShowsTally(stats, r[i])
  {
    var entries := Entries(order, stats);
    forall i | 0 <= i < |r|
      ensures ShowsTally(stats, r[i])
    {
      assert r[i] in entries;
      var j :| 0 <= j < |entries| && entries[j] == r[i];
    }
  }

  /** `popularServices`: the five services with the most bookings, most
      first, each with its own figures; no service left out has more
      bookings than one listed. */
  function PopularServices(order: seq<string>, stats: map<string, ServiceStat>): (r: seq<ServiceEntry>)
    requires forall n :: n in order ==> n in stats
    ensures |r| == if |order| < 5 then |order| else 5
    ensures forall i, j :: 0 <= i < j < |r| ==> r[i].count >= r[j].count
    ensures forall i :: 0 <= i < |r| ==> ShowsTally(stats, r[i])
    ensures forall e, i :: e in Entries(order, stats) && e !in r && 0 <= i < |r| ==> r[i].count >= e.count
  {
    var entries := Entries(order, stats);
    var r := Top(entries, CountKey, 5);
    TopCountsOrdered(entries, r);
    EntriesShowTally(order, stats, r);
    r
  }

  /** Services with equal counts keep the order in which they were first
      met: the listed services with any one count are the first services
      with that count in creation order. */
  lemma PopularServicesTiesKeepOrder(order: seq<string>, stats: map<string, ServiceStat>, count: nat)
    requires forall n :: n in order ==> n in stats
    ensures Filter(PopularServices(order, stats), (e: ServiceEntry) => e.count == count)
         <= Filter(Entries(order, stats), (e: ServiceEntry) => e.count == count)
  {
    TopStable(Entries(order, stats), CountKey, 5, count as real, (e: ServiceEntry) => e.count == count);
  }

  // ---------------------------------------------------------------------
  // The best months
  // ---------------------------------------------------------------------

  /** A month paired with its revenue, so that the month survives the sort. */
  datatype RankedMonth = RankedMonth(revenue: Money, month: int)

  function RevenueKey(e: RankedMonth): real { e.revenue }

  /** `monthlyRevenue.map((revenue, index) => ({ revenue, month: index }))`. */
  function Ranked(monthly: seq<Money>): (r: seq<RankedMonth>)
    ensures |r| == |monthly|
    ensures forall i :: 0 <= i < |r| ==> r[i] == RankedMonth(monthly[i], i)
    ensures Distinct(r)
  {
    seq(|monthly|, i requires 0 <= i < |monthly| => RankedMonth(monthly[i], i))
  }

  /** The months by decreasing revenue, best five: each listed once, with its
      own revenue, and no unlisted month earning more than a listed one. */
  function TopMonths(monthly: seq<Money>): (r: seq<RankedMonth>)
    ensures |r| == if |monthly| < 5 then |monthly| else 5
    ensures forall i, j :: 0 <= i < j < |r| ==> r[i].revenue >= r[j].revenue
    ensures forall i :: 0 <= i < |r| ==> 0 <= r[i].month < |monthly| && r[i].revenue == monthly[r[i].month]
    ensures forall i, j :: 0 <= i < j < |r| ==> r[i].month != r[j].month
    ensures forall m, i :: 0 <= m < |monthly| && RankedMonth(monthly[m], m) !in r && 0 <= i < |r| ==>
      r[i].revenue >= monthly[m]
  {
    var ranked := Ranked(monthly);
    var r := Top(ranked, RevenueKey, 5);
    forall m, i | 0 <= m < |monthly| && RankedMonth(monthly[m], m) !in r && 0 <= i < |r|
      ensures r[i].revenue >= monthly[m]
    {
      assert ranked[m] == RankedMonth(monthly[m], m) && ranked[m] in ranked;
      assert RevenueKey(r[i]) >= RevenueKey(ranked[m]);
    }
    r
  }

  /** Months with equal revenue keep calendar order: the listed months with
      any one revenue are the first months with that revenue. */
  lemma TopMonthsTiesKeepOrder(monthly: seq<Money>, revenue: Money)
    ensures Filter(TopMonths(monthly), (e: RankedMonth) => e.revenue == revenue)
         <= Filter(Ranked(monthly), (e: RankedMonth) => e.revenue == revenue)
  {
    TopStable(Ranked(monthly), RevenueKey, 5, revenue, (e: RankedMonth) => e.revenue == revenue);
  }
}
