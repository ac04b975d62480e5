/**
 * Ramadan date detection for pricing.
 *
 * A booking date is mapped to an approximate Hijri year; the Gregorian start and end
 * of month 9 of that year come from a cache kept in the browser's durable storage or,
 * on a miss, from an external Islamic-calendar service; the date is then classified
 * as "in the Ramadan pricing period" when it is day 18 to 30 of the month and lies
 * inside the month.
 *
 * Times are integer milliseconds since the epoch. The calendar service is an oracle
 * `Calendar` from a Hijri year to its reply; the storage slot is the field `stored`
 * of class `RamadanCache`; the clock reading `now` and whether the storage accepts a
 * write (`saveAccepted`) are parameters of each call.
 */
module RamadanDates {
  import opened Wrappers

  /** Freshness of the whole cache: 30 days. */
  const CacheDuration: int := 30 * 24 * 60 * 60 * 1000

  const MsPerDay: int := 1000 * 60 * 60 * 24

  /** First and last day of the month (1-based) on which Ramadan prices apply. */
  datatype PricingConfig = PricingConfig(startDay: int, endDay: int)

  const RamadanPricingConfig: PricingConfig := PricingConfig(18, 30)

  /** A JavaScript `Date`: its `getTime()`, and its local `getFullYear()` and `getMonth()` (0-based). */
  datatype Date = Date(time: int, fullYear: int, month: int)

  datatype RamadanPeriod = RamadanPeriod(startDate: int, endDate: int, year: int)

  /** The cache: periods by Hijri year, and one freshness stamp for all of them. */
  datatype CachedRamadanData = CachedRamadanData(periods: map<int, RamadanPeriod>, lastUpdated: int)

  /** What the storage slot holds when it is not empty: text that parses as a cache, or text that does not. */
  datatype StoredValue = Readable(data: CachedRamadanData) | Unreadable

  /** The result of reading the cache; `ParseFailure` is the exception `JSON.parse` throws. */
  datatype LoadOutcome = Loaded(cache: CachedRamadanData) | ParseFailure

  /** The calendar service's answer for month 9 of a Hijri year: no answer at all (network error,
      timeout, body that is not JSON), or a status flag and the optional list of days, each day
      given by the timestamp of its Gregorian date. */
  datatype CalendarReply = NetworkFailure | Reply(ok: bool, days: Option<seq<int>>)

  type Calendar = int -> CalendarReply

  // ---------------------------------------------------------------------------
  // Reading the calendar reply

  /** `fetchRamadanDatesFromAPI`, after the request: a period only from a successful reply
      with at least 30 days; day 0 is the start, day 29 the end. */
  function ParseCalendarReply(hijriYear: int, reply: CalendarReply): (r: Option<RamadanPeriod>)
    ensures r.Some? <==> reply.Reply? && reply.ok && reply.days.Some? && |reply.days.value| >= 30
    ensures r.Some? ==> r.value == RamadanPeriod(reply.days.value[0], reply.days.value[29], hijriYear)
  {
    match reply
    case NetworkFailure => None
    case Reply(ok, days) =>
      if !ok then None
      else if days.None? || |days.value| == 0 then None
      else if |days.value| <= 29 then None
      else Some(RamadanPeriod(days.value[0], days.value[29], hijriYear))
  }

  // ---------------------------------------------------------------------------
  // The stored cache

  function EmptyCache(now: int): CachedRamadanData {
    CachedRamadanData(map[], now)
  }

  /** `getCachedRamadanData`: the stored cache while it is younger than 30 days, otherwise an
      empty cache stamped `now`; unreadable text makes `JSON.parse` throw. */
  function LoadStored(stored: Option<StoredValue>, now: int): (r: LoadOutcome)
    ensures r == ParseFailure <==> stored == Some(Unreadable)
    ensures (stored.Some? && stored.value.Readable? && now - stored.value.data.lastUpdated < CacheDuration)
              ==> r == Loaded(stored.value.data)
    ensures (stored.None? || (stored.value.Readable? && now - stored.value.data.lastUpdated >= CacheDuration))
              ==> r == Loaded(EmptyCache(now))
  {
    match stored
    case None => Loaded(EmptyCache(now))
    case Some(Unreadable) => ParseFailure
    case Some(Readable(data)) =>
      if now - data.lastUpdated < CacheDuration then Loaded(data) else Loaded(EmptyCache(now))
  }

  /** `saveCacheData`: the slot after a write, which storage may refuse (the error is swallowed). */
  function AfterSave(stored: Option<StoredValue>, data: CachedRamadanData, saveAccepted: bool): Option<StoredValue> {
    if saveAccepted then Some(Readable(data)) else stored
  }

  /** Saving and then reading back within 30 days gives back exactly what was saved. */
  lemma SaveThenLoad(stored: Option<StoredValue>, data: CachedRamadanData, now: int)
    requires now - data.lastUpdated < CacheDuration
    ensures LoadStored(AfterSave(stored, data, true), now) == Loaded(data)
  {
  }

  /** After `clearRamadanCache` the next read is an empty cache. */
  lemma ClearedCacheLoadsEmpty(now: int)
    ensures LoadStored(None, now) == Loaded(EmptyCache(now))
  {
  }

  // ---------------------------------------------------------------------------
  // Hijri year

  /** `gregorianToHijriYear`: floor((year - 622) * 1.030684 + month / 12), in exact arithmetic. */
  function GregorianToHijriYear(fullYear: int, month: int): (h: int)
    ensures h as real <= (fullYear - 622) as real * 1.030684 + month as real / 12.0 < h as real + 1.0
  {
    ((fullYear - 622) as real * 1.030684 + month as real / 12.0).Floor
  }

  function HijriYearOf(date: Date): int {
    GregorianToHijriYear(date.fullYear, date.month)
  }

  /** A later Gregorian year never maps to an earlier Hijri year, and one Gregorian year
      advances the Hijri year by one or two. */
  lemma HijriYearAdvances(fullYear: int, month: int)
    ensures GregorianToHijriYear(fullYear, month) + 1 <= GregorianToHijriYear(fullYear + 1, month)
    ensures GregorianToHijriYear(fullYear + 1, month) <= GregorianToHijriYear(fullYear, month) + 2
  {
    var x := (fullYear - 622) as real * 1.030684 + month as real / 12.0;
    var y := (fullYear + 1 - 622) as real * 1.030684 + month as real / 12.0;
    assert y == x + 1.030684;
  }

  lemma HijriYearExamples()
    ensures GregorianToHijriYear(2025, 0) == 1446
    ensures GregorianToHijriYear(2026, 1) == 1447
  {
  }

  // ---------------------------------------------------------------------------
  // Classifying a date against a period

  /** `Math.ceil(x / d)` for a positive divisor. */
  function CeilDiv(x: int, d: int): (q: int)
    requires d > 0
    ensures (q - 1) * d < x <= q * d
  {
    -((-x) / d)
  }

  /** The 1-based day of the month: `ceil((time - start) / 1 day) + 1`. */
  function DaysIntoRamadan(time: int, start: int): int {
    CeilDiv(time - start, MsPerDay) + 1
  }

  /** `isDateInRamadan`'s test. */
  predicate InRamadan(time: int, p: RamadanPeriod) {
    p.startDate <= time && time <= p.endDate
  }

  /** `isDateInRamadanPricingPeriod`'s test: the day lies in the configured range and the
      date lies inside the month. */
  predicate InPricingWindow(time: int, p: RamadanPeriod, config: PricingConfig) {
    var day := DaysIntoRamadan(time, p.startDate);
    config.startDay <= day && day <= config.endDay && p.startDate <= time && time <= p.endDate
  }

  /** Day `k` of the month, counted from a start at midnight, begins exactly `k - 1` days after it. */
  lemma {:induction false} DayOffsetIsWholeDays(start: int, k: int)
    ensures DaysIntoRamadan(start + (k - 1) * MsPerDay, start) == k
  {
    var q := CeilDiv((k - 1) * MsPerDay, MsPerDay);
    assert (q - 1) * MsPerDay < (k - 1) * MsPerDay <= q * MsPerDay;
    assert q - 1 < k - 1 <= q;
  }

  /** The day offset compared with a bound, restated as distances in milliseconds. */
  lemma {:induction false} DayOffsetBounds(time: int, start: int, k: int)
    ensures DaysIntoRamadan(time, start) >= k <==> time - start > (k - 2) * MsPerDay
    ensures DaysIntoRamadan(time, start) <= k <==> time - start <= (k - 1) * MsPerDay
  {
    var q := CeilDiv(time - start, MsPerDay);
    assert (q - 1) * MsPerDay < time - start <= q * MsPerDay;
    if q >= k - 1 {
      assert (q - 1) * MsPerDay >= (k - 2) * MsPerDay;
    } else {
      assert q * MsPerDay <= (k - 2) * MsPerDay;
    }
    if q <= k - 1 {
      assert q * MsPerDay <= (k - 1) * MsPerDay;
    } else {
      assert (q - 1) * MsPerDay >= (k - 1) * MsPerDay;
    }
  }

  /** The pricing window of any configuration starting on day 1 or later, as an interval: after
      `startDay - 2` whole days from the start, up to `endDay - 1` whole days, and not after the end. */
  lemma {:induction false} PricingWindowInterval(time: int, p: RamadanPeriod, config: PricingConfig)
    requires 1 <= config.startDay
    ensures InPricingWindow(time, p, config) <==>
              p.startDate + (config.startDay - 2) * MsPerDay < time &&
              time <= p.startDate + (config.endDay - 1) * MsPerDay &&
              p.startDate <= time && time <= p.endDate
  {
    DayOffsetBounds(time, p.startDate, config.startDay);
    DayOffsetBounds(time, p.startDate, config.endDay);
  }

  /** With the shipped configuration (days 18 to 30): strictly more than 16 days after the start,
      at most 29 days after it, and not after the end of the month. */
  lemma {:induction false} RamadanPricingWindowInterval(time: int, p: RamadanPeriod)
    ensures InPricingWindow(time, p, RamadanPricingConfig) <==>
              p.startDate + 16 * MsPerDay < time && time <= p.startDate + 29 * MsPerDay && time <= p.endDate
  {
    PricingWindowInterval(time, p, RamadanPricingConfig);
  }

  /** The clamp: no date outside the month is priced as Ramadan, whatever its day offset. */
  lemma OutsideMonthIsNeverPriced(time: int, p: RamadanPeriod, config: PricingConfig)
    requires time < p.startDate || time > p.endDate
    ensures !InPricingWindow(time, p, config)
  {
  }

  /** The bounds are inclusive: the first configured day is priced and the day before it is not;
      the last configured day is priced (when the month reaches it) and the day after it is not. */
  lemma {:induction false} PricingWindowEdges(p: RamadanPeriod, config: PricingConfig)
    requires p.startDate + (config.endDay - 1) * MsPerDay <= p.endDate
    requires 1 <= config.startDay <= config.endDay
    ensures InPricingWindow(p.startDate + (config.startDay - 1) * MsPerDay, p, config)
    ensures !InPricingWindow(p.startDate + (config.startDay - 2) * MsPerDay, p, config)
    ensures InPricingWindow(p.startDate + (config.endDay - 1) * MsPerDay, p, config)
    ensures !InPricingWindow(p.startDate + config.endDay * MsPerDay, p, config)
  {
    DayOffsetIsWholeDays(p.startDate, config.startDay);
    DayOffsetIsWholeDays(p.startDate, config.startDay - 1);
    DayOffsetIsWholeDays(p.startDate, config.endDay);
    DayOffsetIsWholeDays(p.startDate, config.endDay + 1);
  }

  /** 1 March 2025, 00:00 UTC. */
  const March1st2025: int := 1740787200000

  /** A month from 1 to 30 March 2025: the 18th is priced, the 17th is not, and the 31st is not. */
  lemma {:induction false} March2025Scenario()
    ensures var p := RamadanPeriod(March1st2025, March1st2025 + 29 * MsPerDay, 1446);
            && InPricingWindow(March1st2025 + 17 * MsPerDay, p, RamadanPricingConfig)
            && !InPricingWindow(March1st2025 + 16 * MsPerDay, p, RamadanPricingConfig)
            && !InPricingWindow(March1st2025 + 30 * MsPerDay, p, RamadanPricingConfig)
  {
    var p := RamadanPeriod(March1st2025, March1st2025 + 29 * MsPerDay, 1446);
    PricingWindowEdges(p, RamadanPricingConfig);
  }

  /** For a period whose end is 28 days after its start, the day after the end still has day
      offset 30, yet it is not priced. A parsed calendar reply never gives such a period on its
      own (the end is the 30th listed day), so this concerns a calendar whose 30th day is dated
      28 days after the first: the month test, not the day range, excludes that date. */
  lemma {:induction false} ClampAfterShortMonth(start: int)
    ensures var p := RamadanPeriod(start, start + 28 * MsPerDay, 1446);
            && DaysIntoRamadan(start + 29 * MsPerDay, start) == 30
            && !InPricingWindow(start + 29 * MsPerDay, p, RamadanPricingConfig)
  {
    DayOffsetIsWholeDays(start, 30);
  }

  // ---------------------------------------------------------------------------
  // Finding the period of a Hijri year (the shared part of the three lookups)

  /** The period found (if any), whether the calendar service was asked, and the storage slot after. */
  datatype Resolution = Resolution(period: Option<RamadanPeriod>, fetched: bool, stored: Option<StoredValue>)

  /** Load the cache; on a miss ask the calendar, and keep a period it gives under its year,
      restamping the cache and saving it. */
  function Resolve(stored: Option<StoredValue>, hijriYear: int, now: int, calendar: Calendar,
                   saveAccepted: bool): Resolution
  {
    match LoadStored(stored, now)
    case ParseFailure => Resolution(None, false, stored)
    case Loaded(cache) =>
      if hijriYear in cache.periods then Resolution(Some(cache.periods[hijriYear]), false, stored)
      else match ParseCalendarReply(hijriYear, calendar(hijriYear))
        case None => Resolution(None, true, stored)
        case Some(p) =>
          var updated := CachedRamadanData(cache.periods[hijriYear := p], now);
          Resolution(Some(p), true, AfterSave(stored, updated, saveAccepted))
  }

  /** A hit does not ask the calendar and writes nothing. */
  lemma ResolveHit(stored: Option<StoredValue>, hijriYear: int, now: int, calendar: Calendar, saveAccepted: bool)
    requires LoadStored(stored, now).Loaded? && hijriYear in LoadStored(stored, now).cache.periods
    ensures var r := Resolve(stored, hijriYear, now, calendar, saveAccepted);
            && !r.fetched && r.stored == stored
            && r.period == Some(LoadStored(stored, now).cache.periods[hijriYear])
  {
  }

  /** A miss answered by the calendar stores the period under its year, restamps the cache with
      `now` and leaves every other year's entry as it was. */
  lemma ResolveMissStores(stored: Option<StoredValue>, hijriYear: int, now: int, calendar: Calendar)
    requires LoadStored(stored, now).Loaded? && hijriYear !in LoadStored(stored, now).cache.periods
    requires ParseCalendarReply(hijriYear, calendar(hijriYear)).Some?
    ensures var r := Resolve(stored, hijriYear, now, calendar, true);
            var before := LoadStored(stored, now).cache.periods;
            && r.fetched && r.stored.Some? && r.stored.value.Readable?
            && r.stored.value.data.lastUpdated == now
            && r.stored.value.data.periods == before[hijriYear := r.period.value]
            && r.period == ParseCalendarReply(hijriYear, calendar(hijriYear))
            && forall y :: y in before && y != hijriYear ==> r.stored.value.data.periods[y] == before[y]
  {
  }

  /** When nothing is found, nothing is written. */
  lemma ResolveFailureSavesNothing(stored: Option<StoredValue>, hijriYear: int, now: int, calendar: Calendar,
                                   saveAccepted: bool)
    requires Resolve(stored, hijriYear, now, calendar, saveAccepted).period.None?
    ensures Resolve(stored, hijriYear, now, calendar, saveAccepted).stored == stored
  {
  }

  /** One stamp governs every year: once it is 30 days old, even a year that is stored misses,
      and a successful refetch keeps only the year just fetched. */
  lemma WholeCacheExpires(data: CachedRamadanData, hijriYear: int, now: int, calendar: Calendar)
    requires now - data.lastUpdated >= CacheDuration
    requires ParseCalendarReply(hijriYear, calendar(hijriYear)).Some?
    ensures var r := Resolve(Some(Readable(data)), hijriYear, now, calendar, true);
            && r.fetched
            && r.stored == Some(Readable(CachedRamadanData(map[hijriYear := r.period.value], now)))
  {
  }

  /** Unreadable storage finds nothing, never asks the calendar and is never overwritten. */
  lemma UnreadableStorageIsPermanent(hijriYear: int, now: int, calendar: Calendar, saveAccepted: bool)
    ensures Resolve(Some(Unreadable), hijriYear, now, calendar, saveAccepted) == Resolution(None, false, Some(Unreadable))
  {
  }

  /** Looking the same year up a second time, at the same moment, finds the same period; and when
      the first lookup left the period in storage, the second one does not ask the calendar. */
  lemma {:induction false} ResolveAgain(stored: Option<StoredValue>, hijriYear: int, now: int, calendar: Calendar,
                                        saveAccepted: bool)
    ensures var first := Resolve(stored, hijriYear, now, calendar, saveAccepted);
            var second := Resolve(first.stored, hijriYear, now, calendar, saveAccepted);
            && second.period == first.period
            && (first.period.Some? && (saveAccepted || !first.fetched) ==> !second.fetched)
  {
    var first := Resolve(stored, hijriYear, now, calendar, saveAccepted);
    match LoadStored(stored, now)
    case ParseFailure =>
    case Loaded(cache) =>
      if hijriYear !in cache.periods && first.period.Some? && saveAccepted {
        assert first.stored == Some(Readable(CachedRamadanData(cache.periods[hijriYear := first.period.value], now)));
        assert LoadStored(first.stored, now) == Loaded(first.stored.value.data);
      }
  }

  /** Every stored period is what the calendar gives for its year. */
  ghost predicate CacheSound(stored: Option<StoredValue>, calendar: Calendar) {
    stored.Some? && stored.value.Readable? ==>
      forall y :: y in stored.value.data.periods ==>
        ParseCalendarReply(y, calendar(y)) == Some(stored.value.data.periods[y])
  }

  /** The cache is transparent: over readable storage that only ever held the calendar's answers,
      a lookup finds exactly what asking the calendar directly would give, and keeps storage so. */
  lemma {:induction false} ResolveTransparent(stored: Option<StoredValue>, hijriYear: int, now: int,
                                              calendar: Calendar, saveAccepted: bool)
    requires CacheSound(stored, calendar) && stored != Some(Unreadable)
    ensures var r := Resolve(stored, hijriYear, now, calendar, saveAccepted);
            && r.period == ParseCalendarReply(hijriYear, calendar(hijriYear))
            && CacheSound(r.stored, calendar) && r.stored != Some(Unreadable)
  {
    var r := Resolve(stored, hijriYear, now, calendar, saveAccepted);
    var cache := LoadStored(stored, now).cache;
    assert forall y :: y in cache.periods ==> ParseCalendarReply(y, calendar(y)) == Some(cache.periods[y]);
    if hijriYear !in cache.periods && r.period.Some? && saveAccepted {
      var updated := cache.periods[hijriYear := r.period.value];
      assert r.stored == Some(Readable(CachedRamadanData(updated, now)));
      forall y | y in updated
        ensures ParseCalendarReply(y, calendar(y)) == Some(updated[y])
      {
        if y != hijriYear {
          assert y in cache.periods;
        }
      }
    }
  }

  /** The entry stored for one year, if there is one, is what the calendar gives for it. */
  ghost predicate SoundFor(stored: Option<StoredValue>, hijriYear: int, calendar: Calendar) {
    stored.Some? && stored.value.Readable? && hijriYear in stored.value.data.periods ==>
      ParseCalendarReply(hijriYear, calendar(hijriYear)) == Some(stored.value.data.periods[hijriYear])
  }

  /** Transparency for one year: it needs only that year's entry to be the calendar's answer. */
  lemma {:induction false} ResolveTransparentFor(stored: Option<StoredValue>, hijriYear: int, now: int,
                                                 calendar: Calendar, saveAccepted: bool)
    requires SoundFor(stored, hijriYear, calendar) && stored != Some(Unreadable)
    ensures var r := Resolve(stored, hijriYear, now, calendar, saveAccepted);
            && r.period == ParseCalendarReply(hijriYear, calendar(hijriYear))
            && SoundFor(r.stored, hijriYear, calendar) && r.stored != Some(Unreadable)
  {
    var r := Resolve(stored, hijriYear, now, calendar, saveAccepted);
    var cache := LoadStored(stored, now).cache;
    if hijriYear !in cache.periods && r.period.Some? && saveAccepted {
      assert r.stored == Some(Readable(CachedRamadanData(cache.periods[hijriYear := r.period.value], now)));
    }
  }

  // ---------------------------------------------------------------------------
  // The verdicts of the two classifiers

  /** `isDateInRamadan`'s answer from a given storage slot. */
  function InRamadanVerdict(stored: Option<StoredValue>, date: Date, now: int, calendar: Calendar,
                            saveAccepted: bool): bool
  {
    var r := Resolve(stored, HijriYearOf(date), now, calendar, saveAccepted);
    r.period.Some? && InRamadan(date.time, r.period.value)
  }

  /** `isDateInRamadanPricingPeriod`'s answer from a given storage slot. */
  function PricingVerdict(stored: Option<StoredValue>, date: Date, now: int, calendar: Calendar,
                          saveAccepted: bool): bool
  {
    var r := Resolve(stored, HijriYearOf(date), now, calendar, saveAccepted);
    r.period.Some? && InPricingWindow(date.time, r.period.value, RamadanPricingConfig)
  }

  /** The verdict taken straight from the calendar, without any cache. */
  function CalendarPricingVerdict(date: Date, calendar: Calendar): bool {
    match ParseCalendarReply(HijriYearOf(date), calendar(HijriYearOf(date)))
    case None => false
    case Some(p) => InPricingWindow(date.time, p, RamadanPricingConfig)
  }

  /** When the period cannot be found the date is not a pricing date. */
  lemma NoPeriodNoPricing(stored: Option<StoredValue>, date: Date, now: int, calendar: Calendar, saveAccepted: bool)
    requires Resolve(stored, HijriYearOf(date), now, calendar, saveAccepted).period.None?
    ensures !PricingVerdict(stored, date, now, calendar, saveAccepted)
    ensures !InRamadanVerdict(stored, date, now, calendar, saveAccepted)
  {
  }

  /** Every pricing date is a Ramadan date. */
  lemma {:induction false} PricingDatesAreInRamadan(stored: Option<StoredValue>, date: Date, now: int,
                                                    calendar: Calendar, saveAccepted: bool)
    ensures PricingVerdict(stored, date, now, calendar, saveAccepted) ==>
              InRamadanVerdict(stored, date, now, calendar, saveAccepted)
  {
  }

  /** Over sound storage the cached verdict is the calendar's verdict. */
  lemma {:induction false} CachedVerdictIsCalendarVerdict(stored: Option<StoredValue>, date: Date, now: int,
                                                          calendar: Calendar, saveAccepted: bool)
    requires CacheSound(stored, calendar) && stored != Some(Unreadable)
    ensures PricingVerdict(stored, date, now, calendar, saveAccepted) == CalendarPricingVerdict(date, calendar)
  {
    ResolveTransparent(stored, HijriYearOf(date), now, calendar, saveAccepted);
  }

  // ---------------------------------------------------------------------------
  // The cache store

  class RamadanCache {
    /** The storage slot under the key 'ramadan_cache'; `None` when it is empty. */
    var stored: Option<StoredValue>

    constructor (initial: Option<StoredValue>)
      ensures stored == initial
    {
      stored := initial;
    }

    /** `saveCacheData` */
    method Save(data: CachedRamadanData, saveAccepted: bool)
      modifies this
      ensures stored == AfterSave(old(stored), data, saveAccepted)
    {
      if saveAccepted {
        stored := Some(Readable(data));
      }
    }

    /** `clearRamadanCache` */
    method Clear()
      modifies this
      ensures stored == None
    {
      stored := None;
    }

    /** `getRamadanCacheSummary`: the periods of the loaded cache; `None` when reading throws. */
    function CacheSummary(now: int): (r: Option<map<int, RamadanPeriod>>)
      reads this
      ensures r.None? <==> stored == Some(Unreadable)
      ensures (stored.Some? && stored.value.Readable? && now - stored.value.data.lastUpdated < CacheDuration)
                ==> r == Some(stored.value.data.periods)
      ensures (stored.None? || (stored.value.Readable? && now - stored.value.data.lastUpdated >= CacheDuration))
                ==> r == Some(map[])
    {
      match LoadStored(stored, now)
      case ParseFailure => None
      case Loaded(cache) => Some(cache.periods)
    }

    /** The lookup the three public operations share: load, and on a miss fetch, record in the
        loaded cache, restamp it and save it. */
    method ResolvePeriod(hijriYear: int, now: int, calendar: Calendar, saveAccepted: bool)
      returns (period: Option<RamadanPeriod>, fetched: bool)
      modifies this
      ensures var r := Resolve(old(stored), hijriYear, now, calendar, saveAccepted);
              period == r.period && fetched == r.fetched && stored == r.stored
    {
      var loaded := LoadStored(stored, now);
      if loaded.ParseFailure? {
        return None, false;
      }
      var cache := loaded.cache;
      fetched := false;
      if hijriYear !in cache.periods {
        fetched := true;
        var fromCalendar := ParseCalendarReply(hijriYear, calendar(hijriYear));
        if fromCalendar.None? {
          return None, true;
        }
        cache := cache.(periods := cache.periods[hijriYear := fromCalendar.value]);
        cache := cache.(lastUpdated := now);
        Save(cache, saveAccepted);
      }
      period := Some(cache.periods[hijriYear]);
    }

    /** `isDateInRamadan` */
    method IsDateInRamadan(date: Date, now: int, calendar: Calendar, saveAccepted: bool)
      returns (inRamadan: bool)
      modifies this
      ensures inRamadan == InRamadanVerdict(old(stored), date, now, calendar, saveAccepted)
      ensures stored == Resolve(old(stored), HijriYearOf(date), now, calendar, saveAccepted).stored
    {
      var hijriYear := GregorianToHijriYear(date.fullYear, date.month);
      var period, fetched := ResolvePeriod(hijriYear, now, calendar, saveAccepted);
      if period.None? {
        return false;
      }
      inRamadan := date.time >= period.value.startDate && date.time <= period.value.endDate;
    }

    /** `isDateInRamadanPricingPeriod` */
    method IsDateInRamadanPricingPeriod(date: Date, now: int, calendar: Calendar, saveAccepted: bool)
      returns (inPricingPeriod: bool)
      modifies this
      ensures inPricingPeriod == PricingVerdict(old(stored), date, now, calendar, saveAccepted)
      ensures stored == Resolve(old(stored), HijriYearOf(date), now, calendar, saveAccepted).stored
    {
      var hijriYear := GregorianToHijriYear(date.fullYear, date.month);
      var period, fetched := ResolvePeriod(hijriYear, now, calendar, saveAccepted);
      if period.None? {
        return false;
      }
      var ramadanStart := period.value.startDate;
      var ramadanEnd := period.value.endDate;
      var daysIntoRamadan := CeilDiv(date.time - ramadanStart, MsPerDay) + 1;
      inPricingPeriod := daysIntoRamadan >= RamadanPricingConfig.startDay &&
                         daysIntoRamadan <= RamadanPricingConfig.endDay &&
                         date.time >= ramadanStart && date.time <= ramadanEnd;
    }

    /** `getRamadanDatesForYear`: the period of the Hijri year that 1 January of `year` falls in;
        `new Date(year, 0, 1)` reads a year from 0 to 99 as 1900 to 1999. */
    method GetRamadanDatesForYear(year: int, now: int, calendar: Calendar, saveAccepted: bool)
      returns (period: Option<RamadanPeriod>)
      modifies this
      ensures var fullYear := if 0 <= year <= 99 then 1900 + year else year;
              var r := Resolve(old(stored), GregorianToHijriYear(fullYear, 0), now, calendar, saveAccepted);
              period == r.period && stored == r.stored
    {
      var fullYear := if 0 <= year <= 99 then 1900 + year else year;
      var hijriYear := GregorianToHijriYear(fullYear, 0);
      var fetched;
      period, fetched := ResolvePeriod(hijriYear, now, calendar, saveAccepted);
    }
  }

  // ---------------------------------------------------------------------------
  // As written: periods read back from storage are not revived into `Date` objects

  /** A period bound as the code holds it: a `Date` right after a fetch, but after
      `JSON.stringify` and `JSON.parse` the ISO text of that date. */
  datatype JsTime = JsDate(ms: int) | JsString(text: string)

  /** `v.getTime()`; on a string it throws (`None`). */
  function GetTimeAsWritten(v: JsTime): Option<int> {
    match v
    case JsDate(ms) => Some(ms)
    case JsString(_) => None
  }

  /** `isDateInRamadanPricingPeriod` on the period as the code holds it: `getTime` on a string
      throws and the catch returns false. */
  function PricingCheckAsWritten(date: Date, start: JsTime, end: JsTime): bool {
    match GetTimeAsWritten(start)
    case None => false
    case Some(startMs) =>
      var day := CeilDiv(date.time - startMs, MsPerDay) + 1;
      && RamadanPricingConfig.startDay <= day && day <= RamadanPricingConfig.endDay
      && startMs <= date.time
      && match GetTimeAsWritten(end) { case None => false case Some(endMs) => date.time <= endMs }
  }

  /** Right after a fetch the period holds real dates and the check is the intended one. */
  lemma {:induction false} AsWrittenFreshPeriodAgrees(date: Date, p: RamadanPeriod)
    ensures PricingCheckAsWritten(date, JsDate(p.startDate), JsDate(p.endDate)) ==
            InPricingWindow(date.time, p, RamadanPricingConfig)
  {
  }

  /** On a cache hit the period's bounds are strings, so the check as written is false even on
      the 18th day of the month, where the intended check is true. */
  lemma {:induction false} AsWrittenCacheHitNeverPriced(startText: string, endText: string)
    ensures var p := RamadanPeriod(March1st2025, March1st2025 + 29 * MsPerDay, 1446);
            var date := Date(March1st2025 + 17 * MsPerDay, 2025, 2);
            && InPricingWindow(date.time, p, RamadanPricingConfig)
            && !PricingCheckAsWritten(date, JsString(startText), JsString(endText))
  {
    March2025Scenario();
  }
}
