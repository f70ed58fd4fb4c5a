/**
  The analytics page: the selected range becomes an interval of local time, the services
  dated inside it are kept and summarised, and the chart gets one entry per calendar day of
  the interval, each holding the total and the number of that day's services.
*/
module Analytics {
  import opened Wrappers
  import opened Domain
  import opened Text
  import opened Dates
  import opened Seqs
  import opened Summaries

  /** `{ start, end }`, both ends included. */
  datatype Interval = Interval(start: Instant, end: Instant)

  /** Day of the week with Sunday as 0, the first day of the week in the pt-BR locale
      (0001-01-01 was a Monday). */
  function Weekday(d: Date): (w: nat)
    ensures w < 7
  {
    (DayNumber(d) + 1) % 7
  }

  lemma SevenStep(n: int)
    ensures (n + 2) % 7 == ((n + 1) % 7 + 1) % 7
    ensures (n - (n + 1) % 7 + 1) % 7 == 0
  {
  }

  /** The weekday moves on by one each day. */
  lemma NextWeekday(d: Date)
    ensures Weekday(NextDay(d)) == (Weekday(d) + 1) % 7
  {
    SevenStep(DayNumber(d));
  }

  /** The Sunday that begins the week of `d`. */
  function WeekStartDay(d: Date): (e: Date)
    ensures Weekday(e) == 0
    ensures DayNumber(d) - 6 <= DayNumber(e) <= DayNumber(d)
  {
    SevenStep(DayNumber(d));
    SubDays(d, Weekday(d))
  }

  /** The interval the selected range stands for: "15" is the last fourteen days up to now,
      "30" is the current month, and "7" (and any other key) is the current week. */
  function ResolveRange(range: string, now: Instant): (iv: Interval)
    ensures range == "15" ==>
      && iv.end == now && iv.start.ms == now.ms
      && DayNumber(iv.start.date) == DayNumber(now.date) - 14
    ensures range == "30" ==>
      && iv.start.date.year == now.date.year && iv.start.date.month == now.date.month
      && iv.start.date.day == 1 && iv.start.ms == 0
      && iv.end.date.year == now.date.year && iv.end.date.month == now.date.month
      && iv.end.date.day == DaysInMonth(now.date.year, now.date.month) && iv.end.ms == MsPerDay - 1
    ensures range != "15" && range != "30" ==>
      && Weekday(iv.start.date) == 0 && iv.start.ms == 0
      && DayNumber(iv.end.date) == DayNumber(iv.start.date) + 6 && iv.end.ms == MsPerDay - 1
    ensures ValidInstant(now) ==> InstantLe(iv.start, now) && InstantLe(now, iv.end)
  {
    if range == "15" then Interval(Instant(SubDays(now.date, 14), now.ms), now)
    else if range == "30" then Interval(Midnight(FirstOfMonth(now.date)), EndOfDay(LastOfMonth(now.date)))
    else
      var first := WeekStartDay(now.date);
      Interval(Midnight(first), EndOfDay(AddDays(first, 6)))
  }

  /** `service.date && isWithinInterval(parseISO(service.date), { start, end })`: the stored
      date, read as local midnight, lies inside the interval. A date that does not read is an
      invalid date, which no interval contains. */
  predicate InInterval(s: Service, iv: Interval)
  {
    && s.date != []
    && match ParseIso(s.date)
       case None => false
       case Some(d) => InstantLe(iv.start, Midnight(d)) && InstantLe(Midnight(d), iv.end)
  }

  function InIntervalOf(iv: Interval): Service -> bool
  {
    (s: Service) => InInterval(s, iv)
  }

  /** The services the page works with, in the order of the full list. */
  function Kept(all: seq<Service>, iv: Interval): (r: seq<Service>)
    ensures |r| <= |all|
    ensures forall i :: 0 <= i < |r| ==> InInterval(r[i], iv)
  {
    Filter(all, InIntervalOf(iv))
  }

  /** A service is kept exactly when it is in the list and inside the interval, as often as
      it occurs; the kept services of two lists one after the other are those of the first
      followed by those of the second. */
  lemma KeptExactly(all: seq<Service>, more: seq<Service>, iv: Interval, s: Service)
    ensures s in Kept(all, iv) <==> s in all && InInterval(s, iv)
    ensures multiset(Kept(all, iv))[s] == if InInterval(s, iv) then multiset(all)[s] else 0
    ensures Kept(all + more, iv) == Kept(all, iv) + Kept(more, iv)
  {
    FilterMember(all, InIntervalOf(iv), s);
    FilterCounts(all, InIntervalOf(iv));
    FilterAppend(all, more, InIntervalOf(iv));
  }

  // ----- The chart ---------------------------------------------------------------------

  datatype Bucket = Bucket(total: real, count: nat)

  /** One bar of the chart: its "dd/MM" label `date`, the day's total and its number of services. */
  datatype ChartEntry = ChartEntry(date: string, total: real, services: nat)

  /** How many times the loop `for (d = new Date(start); d <= end; d.setDate(d.getDate() + 1))`
      runs: `d` keeps the start's time of day, so the end's own day is reached only when the
      end is not earlier in its day than the start is in its. */
  function DayCount(iv: Interval): nat
  {
    var span := DayNumber(iv.end.date) - DayNumber(iv.start.date);
    if span < 0 then 0 else if iv.start.ms <= iv.end.ms then span + 1 else span
  }

  /** The loop runs its `k`-th round exactly when `k` is below `DayCount`. */
  lemma LoopRounds(iv: Interval, k: nat)
    ensures k < DayCount(iv) <==> InstantLe(Instant(AddDays(iv.start.date, k), iv.start.ms), iv.end)
  {
  }

  /** The days the loop visits, from the start's day on, one after the other. */
  function ChartDays(iv: Interval): (days: seq<Date>)
    ensures |days| == DayCount(iv)
    ensures forall k :: 0 <= k < |days| ==> DayNumber(days[k]) == DayNumber(iv.start.date) + k
  {
    DaysFrom(iv.start.date, DayCount(iv))
  }

  /** The `n` days from `first` on. */
  function DaysFrom(first: Date, n: nat): (days: seq<Date>)
    ensures |days| == n
    ensures forall k :: 0 <= k < n ==> days[k] == AddDays(first, k)
  {
    if n == 0 then [] else DaysFrom(first, n - 1) + [AddDays(first, n - 1)]
  }

  /** The chart's days are consecutive calendar days, so no day comes twice. */
  lemma ChartDaysConsecutive(iv: Interval)
    ensures |ChartDays(iv)| > 0 ==> ChartDays(iv)[0] == iv.start.date
    ensures forall k :: 0 < k < |ChartDays(iv)| ==> ChartDays(iv)[k] == NextDay(ChartDays(iv)[k - 1])
    ensures forall i, j :: 0 <= i < j < |ChartDays(iv)| ==> ChartDays(iv)[i] != ChartDays(iv)[j]
  {
  }

  /** The day a service is counted on: `format(parseISO(service.date), 'yyyy-MM-dd')` names
      it, and the dictionary key of that day is the same text. */
  function StoredDay(): Service -> Option<Date>
  {
    (s: Service) => ParseIso(s.date)
  }

  /** The chart arithmetic below holds for any way `dayOf` of assigning services to days;
      the page's is `StoredDay()`. */
  function OnDayOf(dayOf: Service -> Option<Date>, d: Date): Service -> bool
  {
    (s: Service) => dayOf(s) == Some(d)
  }

  /** What `dataByDay[d]` holds after the `forEach`: the prices and the number of the
      services that fall on `d`. */
  function BucketOf(services: seq<Service>, d: Date, dayOf: Service -> Option<Date>): Bucket
  {
    var on := Filter(services, OnDayOf(dayOf, d));
    Bucket(PriceSum(on), |on|)
  }

  /** Bucket `b` of day `d` after service `x` is added: its price and one more when `x` falls
      on `d`, unchanged otherwise. */
  function Bumped(b: Bucket, x: Service, d: Date, dayOf: Service -> Option<Date>): Bucket
  {
    if dayOf(x) == Some(d) then Bucket(b.total + x.price, b.count + 1) else b
  }

  /** Adding one service to the list adds its price and one to its own day's bucket and
      leaves every other day's bucket as it was. */
  lemma BucketSnoc(services: seq<Service>, x: Service, d: Date, dayOf: Service -> Option<Date>)
    ensures BucketOf(services + [x], d, dayOf) == Bumped(BucketOf(services, d, dayOf), x, d, dayOf)
  {
    FilterAppend(services, [x], OnDayOf(dayOf, d));
    assert Filter([x], OnDayOf(dayOf, d)) == if dayOf(x) == Some(d) then [x] else [];
    PriceSumAppend(Filter(services, OnDayOf(dayOf, d)), Filter([x], OnDayOf(dayOf, d)));
  }

  function EntryFor(services: seq<Service>, d: Date, dayOf: Service -> Option<Date>): ChartEntry
  {
    ChartEntry(FormatDayMonth(d), BucketOf(services, d, dayOf).total, BucketOf(services, d, dayOf).count)
  }

  /** The chart entries in the order of the dictionary's keys, which is the order the days
      were inserted in. */
  function Entries(days: seq<Date>, services: seq<Service>, dayOf: Service -> Option<Date>): (r: seq<ChartEntry>)
    ensures |r| == |days|
    ensures forall k :: 0 <= k < |days| ==> r[k] == EntryFor(services, days[k], dayOf)
  {
    if days == [] then [] else [EntryFor(services, days[0], dayOf)] + Entries(days[1..], services, dayOf)
  }

  /** `a.date.localeCompare(b.date) <= 0` on the "dd/MM" labels, which all have the same
      shape, so the comparison is the code-point order. */
  predicate ByLabel(a: ChartEntry, b: ChartEntry)
  {
    LexLe(a.date, b.date)
  }

  lemma ByLabelIsTotalPreorder()
    ensures TotalPreorder(ByLabel)
  {
    forall a, b ensures ByLabel(a, b) || ByLabel(b, a) {
      LexTotal(a.date, b.date);
    }
    forall a, b, c | ByLabel(a, b) && ByLabel(b, c) ensures ByLabel(a, c) {
      LexTransitive(a.date, b.date, c.date);
    }
  }

  /** `chartData`: one entry per day of the interval, sorted by label. */
  function ChartOf(iv: Interval, services: seq<Service>): (r: seq<ChartEntry>)
    ensures multiset(r) == multiset(Entries(ChartDays(iv), services, StoredDay()))
    ensures |r| == DayCount(iv)
    ensures SortedBy(r, ByLabel)
  {
    ByLabelIsTotalPreorder();
    SortSorted(Entries(ChartDays(iv), services, StoredDay()), ByLabel);
    Sort(Entries(ChartDays(iv), services, StoredDay()), ByLabel)
  }

  /** The `chartData` computation as the page performs it: a loop that advances a date one
      day at a time and creates a zeroed bucket per day, a pass over the services that adds
      each one to its own day's bucket when that day has one, and the sorted entries. Every
      service reaching the chart has a readable date (the page hands it the kept services). */
  method ChartData(services: seq<Service>, iv: Interval) returns (chart: seq<ChartEntry>)
    requires forall i :: 0 <= i < |services| ==> ParseIso(services[i].date).Some?
    ensures chart == ChartOf(iv, services)
  {
    var byDay, days := ZeroBuckets(iv);
    byDay := FillBuckets(services, days, byDay, StoredDay());
    EntriesFromBuckets(days, byDay, services, StoredDay());
    chart := Sort(ReadEntries(days, byDay), ByLabel);
  }

  /** `Object.entries(dataByDay).map(...)`: the entries in key order, labelled "dd/MM". */
  function ReadEntries(days: seq<Date>, byDay: map<Date, Bucket>): (r: seq<ChartEntry>)
    requires forall e :: e in days ==> e in byDay
    ensures |r| == |days|
  {
    seq(|days|, k requires 0 <= k < |days| => ChartEntry(FormatDayMonth(days[k]), byDay[days[k]].total, byDay[days[k]].count))
  }

  /** Reading the filled buckets gives the entries of the specification. */
  lemma EntriesFromBuckets(days: seq<Date>, byDay: map<Date, Bucket>, services: seq<Service>, dayOf: Service -> Option<Date>)
    requires forall e :: e in byDay <==> e in days
    requires forall e :: e in byDay ==> byDay[e] == BucketOf(services, e, dayOf)
    ensures ReadEntries(days, byDay) == Entries(days, services, dayOf)
  {
  }

  /** The first loop of `chartData`: a zeroed bucket for every day it visits, keyed in the
      order of the days. */
  method ZeroBuckets(iv: Interval) returns (byDay: map<Date, Bucket>, days: seq<Date>)
    ensures days == ChartDays(iv)
    ensures forall e :: e in byDay <==> e in days
    ensures forall e :: e in byDay ==> byDay[e] == Bucket(0.0, 0)
  {
    byDay := map[];
    days := [];
    var d := iv.start.date;
    while InstantLe(Instant(d, iv.start.ms), iv.end)
      invariant |days| <= DayCount(iv) && d == AddDays(iv.start.date, |days|)
      invariant days == DaysFrom(iv.start.date, |days|)
      invariant forall e :: e in byDay <==> e in days
      invariant forall e :: e in byDay ==> byDay[e] == Bucket(0.0, 0)
      decreases DayNumber(iv.end.date) - DayNumber(d)
    {
      LoopRounds(iv, |days|);
      DaysStep(iv.start.date, |days|);
      var before := byDay;
      byDay := byDay[d := Bucket(0.0, 0)];
      ZeroStep(before, days, d, byDay);
      days := days + [d];
      d := NextDay(d);
    }
    LoopRounds(iv, |days|);
  }

  /** One more day of the loop extends the visited days and moves the cursor to the next day. */
  lemma DaysStep(first: Date, n: nat)
    ensures DaysFrom(first, n + 1) == DaysFrom(first, n) + [AddDays(first, n)]
    ensures AddDays(first, n + 1) == NextDay(AddDays(first, n))
  {
  }

  /** A zeroed bucket for one more day keeps the keys equal to the visited days. */
  lemma ZeroStep(byDay: map<Date, Bucket>, days: seq<Date>, d: Date, after: map<Date, Bucket>)
    requires forall e :: e in byDay <==> e in days
    requires forall e :: e in byDay ==> byDay[e] == Bucket(0.0, 0)
    requires after == byDay[d := Bucket(0.0, 0)]
    ensures forall e :: e in after <==> e in days + [d]
    ensures forall e :: e in after ==> after[e] == Bucket(0.0, 0)
  {
  }

  /** The `forEach` of `chartData`: each service adds its price and one to the bucket of its
      own day, when that day has one. */
  method FillBuckets(services: seq<Service>, days: seq<Date>, zeroed: map<Date, Bucket>, dayOf: Service -> Option<Date>)
    returns (byDay: map<Date, Bucket>)
    requires forall i :: 0 <= i < |services| ==> dayOf(services[i]).Some?
    requires forall e :: e in zeroed <==> e in days
    requires forall e :: e in zeroed ==> zeroed[e] == Bucket(0.0, 0)
    ensures forall e :: e in byDay <==> e in days
    ensures forall e :: e in byDay ==> byDay[e] == BucketOf(services, e, dayOf)
  {
    byDay := zeroed;
    for i := 0 to |services|
      invariant forall e :: e in byDay <==> e in days
      invariant forall e :: e in byDay ==> byDay[e] == BucketOf(services[..i], e, dayOf)
    {
      var s := services[i];
      var day := dayOf(s).value;
      var before := byDay;
      if day in byDay {
        byDay := byDay[day := Bucket(byDay[day].total + s.price, byDay[day].count + 1)];
      }
      FillStep(services, i, dayOf, before, byDay);
    }
    assert services[..|services|] == services;
  }

  /** One round of the `forEach` keeps the keys and moves every bucket from the services
      before `i` to those up to `i`. */
  lemma FillStep(services: seq<Service>, i: nat, dayOf: Service -> Option<Date>,
                 before: map<Date, Bucket>, after: map<Date, Bucket>)
    requires i < |services| && dayOf(services[i]).Some?
    requires forall e :: e in before ==> before[e] == BucketOf(services[..i], e, dayOf)
    requires after == (var day := dayOf(services[i]).value;
      if day in before then before[day := Bucket(before[day].total + services[i].price, before[day].count + 1)]
      else before)
    ensures forall e :: e in after <==> e in before
    ensures forall e :: e in after ==> after[e] == BucketOf(services[..i + 1], e, dayOf)
  {
    BucketStep(services, i, dayOf);
  }

  /** The bucket step of `FillBuckets`, for every day at once. */
  lemma BucketStep(services: seq<Service>, i: nat, dayOf: Service -> Option<Date>)
    requires i < |services|
    ensures forall e :: BucketOf(services[..i + 1], e, dayOf) == Bumped(BucketOf(services[..i], e, dayOf), services[i], e, dayOf)
  {
    assert services[..i + 1] == services[..i] + [services[i]];
    forall e {
      BucketSnoc(services[..i], services[i], e, dayOf);
    }
  }

  /** With no services every day's entry is zero. */
  lemma ChartZeroFilled(iv: Interval)
    ensures forall k :: 0 <= k < |ChartOf(iv, [])| ==> ChartOf(iv, [])[k].total == 0.0 && ChartOf(iv, [])[k].services == 0
  {
    var es := Entries(ChartDays(iv), [], StoredDay());
    forall k | 0 <= k < |ChartOf(iv, [])|
      ensures ChartOf(iv, [])[k].total == 0.0 && ChartOf(iv, [])[k].services == 0
    {
      var e := ChartOf(iv, [])[k];
      assert e in multiset(es);
      var j :| 0 <= j < |es| && es[j] == e;
      assert e == EntryFor([], ChartDays(iv)[j], StoredDay());
    }
  }

  // ----- Sums over the chart -----------------------------------------------------------

  function ChartTotal(es: seq<ChartEntry>): real
  {
    if es == [] then 0.0 else es[0].total + ChartTotal(es[1..])
  }

  function ChartCount(es: seq<ChartEntry>): nat
  {
    if es == [] then 0 else es[0].services + ChartCount(es[1..])
  }

  lemma {:induction false} InsertKeepsSums(x: ChartEntry, es: seq<ChartEntry>)
    ensures ChartTotal(Insert(x, es, ByLabel)) == x.total + ChartTotal(es)
    ensures ChartCount(Insert(x, es, ByLabel)) == x.services + ChartCount(es)
  {
    if es != [] && !ByLabel(x, es[0]) {
      InsertKeepsSums(x, es[1..]);
      assert Insert(x, es, ByLabel)[1..] == Insert(x, es[1..], ByLabel);
    }
  }

  /** Sorting the entries does not change what they add up to. */
  lemma {:induction false} SortKeepsSums(es: seq<ChartEntry>)
    ensures ChartTotal(Sort(es, ByLabel)) == ChartTotal(es)
    ensures ChartCount(Sort(es, ByLabel)) == ChartCount(es)
  {
    if es != [] {
      SortKeepsSums(es[1..]);
      InsertKeepsSums(es[0], Sort(es[1..], ByLabel));
    }
  }

  lemma {:induction false} EmptyEntries(days: seq<Date>, dayOf: Service -> Option<Date>)
    ensures ChartTotal(Entries(days, [], dayOf)) == 0.0 && ChartCount(Entries(days, [], dayOf)) == 0
  {
    if days != [] {
      EmptyEntries(days[1..], dayOf);
    }
  }

  predicate DistinctDays(days: seq<Date>)
  {
    forall i, j :: 0 <= i < j < |days| ==> days[i] != days[j]
  }

  /** One more service adds its price and one to the chart's sums when its day is charted,
      and nothing otherwise. */
  lemma {:induction false} EntriesSnoc(days: seq<Date>, services: seq<Service>, x: Service, dayOf: Service -> Option<Date>)
    requires DistinctDays(days) && dayOf(x).Some?
    ensures ChartTotal(Entries(days, services + [x], dayOf)) ==
      ChartTotal(Entries(days, services, dayOf)) + if dayOf(x).value in days then x.price else 0.0
    ensures ChartCount(Entries(days, services + [x], dayOf)) ==
      ChartCount(Entries(days, services, dayOf)) + if dayOf(x).value in days then 1 else 0
  {
    if days != [] {
      var tail := days[1..];
      assert DistinctDays(tail);
      EntriesSnoc(tail, services, x, dayOf);
      BucketSnoc(services, x, days[0], dayOf);
      if dayOf(x).value == days[0] {
        assert days[0] !in tail;
      }
      assert dayOf(x).value in days <==> dayOf(x).value == days[0] || dayOf(x).value in tail;
    }
  }

  /** When every service falls on a charted day, the bars add up to the services' total and
      their number. */
  lemma {:induction false} BucketsSumToSummary(days: seq<Date>, services: seq<Service>, dayOf: Service -> Option<Date>)
    requires DistinctDays(days)
    requires forall i :: 0 <= i < |services| ==> dayOf(services[i]).Some? && dayOf(services[i]).value in days
    ensures ChartTotal(Entries(days, services, dayOf)) == PriceSum(services)
    ensures ChartCount(Entries(days, services, dayOf)) == |services|
    decreases |services|
  {
    if services == [] {
      EmptyEntries(days, dayOf);
    } else {
      var init := services[..|services| - 1];
      var x := services[|services| - 1];
      assert services == init + [x];
      BucketsSumToSummary(days, init, dayOf);
      EntriesSnoc(days, init, x, dayOf);
      PriceSumAppend(init, [x]);
    }
  }

  /** Every service the page keeps falls on one of the chart's days, whichever range is
      selected. */
  lemma KeptDayIsCharted(range: string, now: Instant, s: Service)
    requires InInterval(s, ResolveRange(range, now))
    ensures ParseIso(s.date).Some? && ParseIso(s.date).value in ChartDays(ResolveRange(range, now))
  {
    var iv := ResolveRange(range, now);
    var d := ParseIso(s.date).value;
    var k := DayNumber(d) - DayNumber(iv.start.date);
    assert 0 <= k < DayCount(iv);
    DayNumberInjective(ChartDays(iv)[k], d);
  }

  /** The chart agrees with the summary cards: its bars add up to the kept services' total
      and their count. */
  lemma ChartMatchesSummary(all: seq<Service>, range: string, now: Instant)
    ensures ChartTotal(ChartOf(ResolveRange(range, now), Kept(all, ResolveRange(range, now))))
            == TotalsOf(Kept(all, ResolveRange(range, now))).total
    ensures ChartCount(ChartOf(ResolveRange(range, now), Kept(all, ResolveRange(range, now))))
            == TotalsOf(Kept(all, ResolveRange(range, now))).count
  {
    var iv := ResolveRange(range, now);
    var kept := Kept(all, iv);
    forall i | 0 <= i < |kept|
      ensures StoredDay()(kept[i]).Some? && StoredDay()(kept[i]).value in ChartDays(iv)
    {
      KeptDayIsCharted(range, now, kept[i]);
    }
    ChartDaysConsecutive(iv);
    BucketsSumToSummary(ChartDays(iv), kept, StoredDay());
    SortKeepsSums(Entries(ChartDays(iv), kept, StoredDay()));
    FoldTotalsSplit(NoTotals, kept);
  }

  // ----- Findings ----------------------------------------------------------------------

  /** The label order is not the calendar order: over the last day of May and the first of
      June the chart shows June first. */
  lemma LabelOrderNotChronological()
    ensures var iv := Interval(Midnight(CivilDate(2024, 5, 31)), EndOfDay(CivilDate(2024, 6, 1)));
      && ChartDays(iv) == [CivilDate(2024, 5, 31), CivilDate(2024, 6, 1)]
      && ChartOf(iv, [])[0].date == "01/06" && ChartOf(iv, [])[1].date == "31/05"
  {
    var iv := Interval(Midnight(CivilDate(2024, 5, 31)), EndOfDay(CivilDate(2024, 6, 1)));
    MayJuneDays();
    MayJuneLabels();
    var days := ChartDays(iv);
    var may := EntryFor([], CivilDate(2024, 5, 31), StoredDay());
    var june := EntryFor([], CivilDate(2024, 6, 1), StoredDay());
    var es := Entries(days, [], StoredDay());
    assert es == [may, june];
    assert !ByLabel(may, june);
    assert Sort(es, ByLabel) == Insert(may, Sort([june], ByLabel), ByLabel);
    assert Sort([june], ByLabel) == [june];
  }

  /** The range from the last day of May 2024 to the first of June visits those two days. */
  lemma MayJuneDays()
    ensures ChartDays(Interval(Midnight(CivilDate(2024, 5, 31)), EndOfDay(CivilDate(2024, 6, 1))))
      == [CivilDate(2024, 5, 31), CivilDate(2024, 6, 1)]
  {
    var may: Date := CivilDate(2024, 5, 31);
    assert NextDay(may) == CivilDate(2024, 6, 1);
    assert AddDays(may, 1) == NextDay(AddDays(may, 0));
    assert DaysFrom(may, 2) == DaysFrom(may, 1) + [AddDays(may, 1)];
  }

  lemma MayJuneLabels()
    ensures FormatDayMonth(CivilDate(2024, 5, 31)) == "31/05"
    ensures FormatDayMonth(CivilDate(2024, 6, 1)) == "01/06"
  {
    TwoDigitPad(31);
    OneDigitPad(5);
    OneDigitPad(1);
    OneDigitPad(6);
  }

  /** The chart as evidently intended: the bars in the order of their days. */
  function ChronologicalChart(iv: Interval, services: seq<Service>): (r: seq<ChartEntry>)
    ensures multiset(r) == multiset(ChartOf(iv, services))
    ensures forall k :: 0 <= k < |r| ==> r[k] == EntryFor(services, AddDays(iv.start.date, k), StoredDay())
  {
    Entries(ChartDays(iv), services, StoredDay())
  }

  /** In the chronological chart the bar after each bar is the next day's. */
  lemma ChronologicalChartInDayOrder(iv: Interval, services: seq<Service>)
    ensures |ChronologicalChart(iv, services)| == DayCount(iv)
    ensures forall k :: 0 < k < DayCount(iv) ==>
      ChronologicalChart(iv, services)[k] == EntryFor(services, NextDay(ChartDays(iv)[k - 1]), StoredDay())
  {
    ChartDaysConsecutive(iv);
  }

  /** Over the last fifteen days the first day has a bar but its services are not kept: the
      range starts at the current time of day on that day, after its midnight. */
  lemma FifteenDropsFirstDay(now: Instant, s: Service)
    requires ValidInstant(now) && now.ms > 0
    requires ParseIso(s.date) == Some(SubDays(now.date, 14))
    ensures SubDays(now.date, 14) in ChartDays(ResolveRange("15", now))
    ensures !InInterval(s, ResolveRange("15", now))
  {
    var iv := ResolveRange("15", now);
    assert ChartDays(iv)[0] == SubDays(now.date, 14);
  }

  /** The range as evidently intended: the last fifteen days start at that day's midnight. */
  function ResolveRangeFromMidnight(range: string, now: Instant): (iv: Interval)
    ensures range == "15" ==>
      && iv.end == now && iv.start.ms == 0
      && DayNumber(iv.start.date) == DayNumber(now.date) - 14
    ensures range != "15" ==> iv == ResolveRange(range, now)
  {
    if range == "15" then Interval(Midnight(SubDays(now.date, 14)), now) else ResolveRange(range, now)
  }

  /** On an interval that starts at a midnight and ends within a day, a service is kept
      exactly when its day is one the loop visits. */
  lemma MidnightStartKeptIffCharted(iv: Interval, s: Service)
    requires iv.start.ms == 0 && 0 <= iv.end.ms < MsPerDay
    ensures InInterval(s, iv) <==> ParseIso(s.date).Some? && ParseIso(s.date).value in ChartDays(iv)
  {
    match ParseIso(s.date)
    case None =>
    case Some(d) =>
      if d in ChartDays(iv) {
        var k :| 0 <= k < |ChartDays(iv)| && ChartDays(iv)[k] == d;
        assert DayNumber(d) == DayNumber(iv.start.date) + k;
      }
      if InInterval(s, iv) {
        var k := DayNumber(d) - DayNumber(iv.start.date);
        assert 0 <= k < DayCount(iv);
        DayNumberInjective(ChartDays(iv)[k], d);
      }
  }

  /** With the corrected range a service is kept exactly when its day has a bar. */
  lemma KeptIffCharted(range: string, now: Instant, s: Service)
    requires ValidInstant(now)
    ensures InInterval(s, ResolveRangeFromMidnight(range, now)) <==>
      ParseIso(s.date).Some? && ParseIso(s.date).value in ChartDays(ResolveRangeFromMidnight(range, now))
  {
    MidnightStartKeptIffCharted(ResolveRangeFromMidnight(range, now), s);
  }
}
