/**
 * Choosing between the standard and the Ramadan price table by the booking date.
 *
 * Each operation asks the Ramadan classifier (class `RamadanDates.RamadanCache`), so each
 * may fill the cache; the specification functions below say what the answer and the
 * storage slot afterwards are, as functions of the slot before.
 */
module DynamicPricing {
  import opened Wrappers
  import opened PricingData
  import opened RamadanDates

  datatype PricingTier = Standard | Ramadan

  function TierFor(inPricingPeriod: bool): (tier: PricingTier)
    ensures tier == Ramadan <==> inPricingPeriod
  {
    if inPricingPeriod then Ramadan else Standard
  }

  /** `(tier === 'ramadan' ? ramadanPricing : standardPricing)[vehicleId] ?? null`: a vehicle has a
      row on either tier exactly when it has a standard row. */
  function PricingTable(tier: PricingTier, vehicleId: string): (r: Option<PriceRow>)
    ensures r.Some? <==> StandardPricing(vehicleId).Some?
  {
    TablesAgree(vehicleId);
    match tier
    case Standard => StandardPricing(vehicleId)
    case Ramadan => RamadanPricing(vehicleId)
  }

  /** The price of a service in the table of a tier; `None` when the vehicle or the service has
      none. Whether there is a price does not depend on the tier. */
  function PriceOnTier(tier: PricingTier, vehicleId: string, serviceId: string): (r: Option<int>)
    ensures r.Some? <==> GetPrice(vehicleId, serviceId).Some?
  {
    TablesAgree(vehicleId);
    match PricingTable(tier, vehicleId)
    case None => None
    case Some(row) => if serviceId in row then Some(row[serviceId]) else None
  }

  /** The standard tier is the catalog's `getPrice`. */
  lemma {:induction false} StandardTierIsCatalogPrice(vehicleId: string, serviceId: string)
    ensures PriceOnTier(Standard, vehicleId, serviceId) == GetPrice(vehicleId, serviceId)
  {
  }

  /** The tier decides the price and not whether there is one: a route is priced on the Ramadan
      tier exactly when it is priced on the standard tier, the standard price is positive, and the
      Ramadan price is higher. */
  lemma {:induction false} RamadanTierCostsMore(vehicleId: string, serviceId: string)
    ensures PriceOnTier(Ramadan, vehicleId, serviceId).Some? <==> PriceOnTier(Standard, vehicleId, serviceId).Some?
    ensures PriceOnTier(Standard, vehicleId, serviceId).Some? ==>
              0 < PriceOnTier(Standard, vehicleId, serviceId).value < PriceOnTier(Ramadan, vehicleId, serviceId).value
  {
    TablesAgree(vehicleId);
    if PriceOnTier(Standard, vehicleId, serviceId).Some? {
      StandardPricesPositive(vehicleId, serviceId);
    }
  }

  // ---------------------------------------------------------------------------
  // One date

  /** `getPricingTierForDate`'s answer from a given storage slot. */
  function TierOnDate(stored: Option<StoredValue>, date: Date, now: int, calendar: Calendar,
                      saveAccepted: bool): PricingTier
  {
    TierFor(PricingVerdict(stored, date, now, calendar, saveAccepted))
  }

  /** The storage slot after classifying `date`. */
  function StoredAfter(stored: Option<StoredValue>, date: Date, now: int, calendar: Calendar,
                       saveAccepted: bool): Option<StoredValue>
  {
    Resolve(stored, HijriYearOf(date), now, calendar, saveAccepted).stored
  }

  /** When detection finds no period (calendar unreachable, storage unreadable) the standard
      tier applies. */
  lemma {:induction false} FailedDetectionIsStandard(stored: Option<StoredValue>, date: Date, now: int,
                                                     calendar: Calendar, saveAccepted: bool)
    requires Resolve(stored, HijriYearOf(date), now, calendar, saveAccepted).period.None?
    ensures TierOnDate(stored, date, now, calendar, saveAccepted) == Standard
  {
    NoPeriodNoPricing(stored, date, now, calendar, saveAccepted);
  }

  /** Over sound storage the tier is the one the calendar alone decides. */
  lemma {:induction false} TierIsCalendarTier(stored: Option<StoredValue>, date: Date, now: int,
                                              calendar: Calendar, saveAccepted: bool)
    requires CacheSound(stored, calendar) && stored != Some(Unreadable)
    ensures TierOnDate(stored, date, now, calendar, saveAccepted) == TierFor(CalendarPricingVerdict(date, calendar))
  {
    CachedVerdictIsCalendarVerdict(stored, date, now, calendar, saveAccepted);
  }

  /** `getPricingTierForDate` */
  method GetPricingTierForDate(cache: RamadanCache, date: Date, now: int, calendar: Calendar, saveAccepted: bool)
    returns (tier: PricingTier)
    modifies cache
    ensures tier == TierOnDate(old(cache.stored), date, now, calendar, saveAccepted)
    ensures cache.stored == StoredAfter(old(cache.stored), date, now, calendar, saveAccepted)
  {
    var inRamadanPricingPeriod := cache.IsDateInRamadanPricingPeriod(date, now, calendar, saveAccepted);
    tier := if inRamadanPricingPeriod then Ramadan else Standard;
  }

  /** `getPricingForVehicleOnDate` */
  method GetPricingForVehicleOnDate(cache: RamadanCache, vehicleId: string, date: Date, now: int,
                                    calendar: Calendar, saveAccepted: bool)
    returns (pricing: Option<PriceRow>)
    modifies cache
    ensures pricing == PricingTable(TierOnDate(old(cache.stored), date, now, calendar, saveAccepted), vehicleId)
    ensures cache.stored == StoredAfter(old(cache.stored), date, now, calendar, saveAccepted)
  {
    var tier := GetPricingTierForDate(cache, date, now, calendar, saveAccepted);
    pricing := if tier == Ramadan then RamadanPricing(vehicleId) else StandardPricing(vehicleId);
  }

  /** `getPriceForServiceOnDate` */
  method GetPriceForServiceOnDate(cache: RamadanCache, vehicleId: string, serviceId: string, date: Date,
                                  now: int, calendar: Calendar, saveAccepted: bool)
    returns (price: Option<int>)
    modifies cache
    ensures price == PriceOnTier(TierOnDate(old(cache.stored), date, now, calendar, saveAccepted), vehicleId, serviceId)
    ensures cache.stored == StoredAfter(old(cache.stored), date, now, calendar, saveAccepted)
  {
    var servicePricing := GetPricingForVehicleOnDate(cache, vehicleId, date, now, calendar, saveAccepted);
    if servicePricing.None? {
      return None;
    }
    price := if serviceId in servicePricing.value then Some(servicePricing.value[serviceId]) else None;
  }

  // ---------------------------------------------------------------------------
  // Several dates

  datatype RangeResult = RangeResult(tier: PricingTier, stored: Option<StoredValue>)

  /** `getPricingTierForDateRange`: the dates are classified in order and the first pricing
      date ends the scan. */
  function RangeOutcome(stored: Option<StoredValue>, dates: seq<Date>, now: int, calendar: Calendar,
                        saveAccepted: bool): RangeResult
    decreases |dates|
  {
    if dates == [] then RangeResult(Standard, stored)
    else
      var after := StoredAfter(stored, dates[0], now, calendar, saveAccepted);
      if PricingVerdict(stored, dates[0], now, calendar, saveAccepted) then RangeResult(Ramadan, after)
      else RangeOutcome(after, dates[1..], now, calendar, saveAccepted)
  }

  /** A range of one date has that date's tier. */
  lemma {:induction false} SingleDateRange(stored: Option<StoredValue>, date: Date, now: int, calendar: Calendar,
                                           saveAccepted: bool)
    ensures RangeOutcome(stored, [date], now, calendar, saveAccepted).tier ==
            TierOnDate(stored, date, now, calendar, saveAccepted)
  {
    assert [date][1..] == [];
  }

  /** Unreadable storage makes every range standard. */
  lemma {:induction false} UnreadableRangeIsStandard(dates: seq<Date>, now: int, calendar: Calendar, saveAccepted: bool)
    ensures RangeOutcome(Some(Unreadable), dates, now, calendar, saveAccepted) == RangeResult(Standard, Some(Unreadable))
    decreases |dates|
  {
    if dates != [] {
      UnreadableStorageIsPermanent(HijriYearOf(dates[0]), now, calendar, saveAccepted);
      UnreadableRangeIsStandard(dates[1..], now, calendar, saveAccepted);
    }
  }

  /** Over sound storage a range is on the Ramadan tier exactly when one of its dates is a
      pricing date by the calendar, and the storage stays sound. */
  lemma {:induction false} RangeIsRamadanIffSomeDate(stored: Option<StoredValue>, dates: seq<Date>, now: int,
                                                     calendar: Calendar, saveAccepted: bool)
    requires CacheSound(stored, calendar) && stored != Some(Unreadable)
    ensures var r := RangeOutcome(stored, dates, now, calendar, saveAccepted);
            && (r.tier == Ramadan <==> exists i :: 0 <= i < |dates| && CalendarPricingVerdict(dates[i], calendar))
            && CacheSound(r.stored, calendar) && r.stored != Some(Unreadable)
    decreases |dates|
  {
    if dates != [] {
      ResolveTransparent(stored, HijriYearOf(dates[0]), now, calendar, saveAccepted);
      CachedVerdictIsCalendarVerdict(stored, dates[0], now, calendar, saveAccepted);
      var after := StoredAfter(stored, dates[0], now, calendar, saveAccepted);
      if !CalendarPricingVerdict(dates[0], calendar) {
        RangeIsRamadanIffSomeDate(after, dates[1..], now, calendar, saveAccepted);
        if exists i :: 0 <= i < |dates| && CalendarPricingVerdict(dates[i], calendar) {
          var i :| 0 <= i < |dates| && CalendarPricingVerdict(dates[i], calendar);
          assert dates[1..][i - 1] == dates[i];
        }
        if exists j :: 0 <= j < |dates[1..]| && CalendarPricingVerdict(dates[1..][j], calendar) {
          var j :| 0 <= j < |dates[1..]| && CalendarPricingVerdict(dates[1..][j], calendar);
          assert dates[j + 1] == dates[1..][j];
        }
      }
    }
  }

  /** `getPricingTierForDateRange` */
  method GetPricingTierForDateRange(cache: RamadanCache, dates: seq<Date>, now: int, calendar: Calendar,
                                    saveAccepted: bool)
    returns (tier: PricingTier)
    modifies cache
    ensures RangeResult(tier, cache.stored) == RangeOutcome(old(cache.stored), dates, now, calendar, saveAccepted)
  {
    var i := 0;
    while i < |dates|
      invariant 0 <= i <= |dates|
      invariant RangeOutcome(old(cache.stored), dates, now, calendar, saveAccepted) ==
                RangeOutcome(cache.stored, dates[i..], now, calendar, saveAccepted)
      decreases |dates| - i
    {
      assert dates[i..][1..] == dates[i + 1..];
      var inRamadanPricingPeriod := cache.IsDateInRamadanPricingPeriod(dates[i], now, calendar, saveAccepted);
      if inRamadanPricingPeriod {
        return Ramadan;
      }
      i := i + 1;
    }
    tier := Standard;
  }

  // ---------------------------------------------------------------------------
  // A priced service

  datatype PricedService = PricedService(vehicleId: string, serviceId: string, date: Date, price: int,
                                         pricingTier: PricingTier, ramadanIndicator: bool)

  datatype PricedResult = PricedResult(service: Option<PricedService>, stored: Option<StoredValue>)

  /** The conditions of one tier lookup: its clock reading, the calendar's replies, and whether
      storage accepts a write. */
  datatype Lookup = Lookup(now: int, calendar: Calendar, saveAccepted: bool)

  function TierAt(stored: Option<StoredValue>, date: Date, lookup: Lookup): PricingTier {
    TierOnDate(stored, date, lookup.now, lookup.calendar, lookup.saveAccepted)
  }

  function StoredAt(stored: Option<StoredValue>, date: Date, lookup: Lookup): Option<StoredValue> {
    StoredAfter(stored, date, lookup.now, lookup.calendar, lookup.saveAccepted)
  }

  /** `getPricedService`: the price on the date's tier (no result when it is missing or zero),
      then the tier asked for a second time, under that lookup's own conditions. */
  function PricedServiceOutcome(stored: Option<StoredValue>, vehicleId: string, serviceId: string, date: Date,
                                first: Lookup, second: Lookup): PricedResult
  {
    var price := PriceOnTier(TierAt(stored, date, first), vehicleId, serviceId);
    var afterPrice := StoredAt(stored, date, first);
    if price.None? || price.value == 0 then PricedResult(None, afterPrice)
    else
      var tier := TierAt(afterPrice, date, second);
      var afterTier := StoredAt(afterPrice, date, second);
      PricedResult(Some(PricedService(vehicleId, serviceId, date, price.value, tier, tier == Ramadan)), afterTier)
  }

  /** Under one set of conditions for both lookups a priced service is returned exactly for the
      routes the catalog prices, and it is consistent: its price is the price of the tier it
      reports, and the indicator is that tier. */
  lemma {:induction false} PricedServiceIsConsistent(stored: Option<StoredValue>, vehicleId: string, serviceId: string,
                                                     date: Date, lookup: Lookup)
    ensures var r := PricedServiceOutcome(stored, vehicleId, serviceId, date, lookup, lookup).service;
            && (r.Some? <==> GetPrice(vehicleId, serviceId).Some?)
            && (r.Some? ==> r.value.price == PriceOnTier(r.value.pricingTier, vehicleId, serviceId).value
                            && r.value.ramadanIndicator == (r.value.pricingTier == Ramadan)
                            && r.value.pricingTier == TierAt(stored, date, lookup))
  {
    ResolveAgain(stored, HijriYearOf(date), lookup.now, lookup.calendar, lookup.saveAccepted);
    RamadanTierCostsMore(vehicleId, serviceId);
  }

  /** The two lookups may differ in clock, storage acceptance and calendar replies; the record is
      still consistent when the stored entry for the date's year is the calendar's answer (or the
      slot is unreadable) and the calendar answers that year the same way both times. */
  lemma {:induction false} PricedServiceAgreesAcrossLookups(stored: Option<StoredValue>, vehicleId: string,
                                                            serviceId: string, date: Date, first: Lookup, second: Lookup)
    requires stored == Some(Unreadable) ||
             (SoundFor(stored, HijriYearOf(date), first.calendar) &&
              ParseCalendarReply(HijriYearOf(date), second.calendar(HijriYearOf(date))) ==
              ParseCalendarReply(HijriYearOf(date), first.calendar(HijriYearOf(date))))
    ensures var r := PricedServiceOutcome(stored, vehicleId, serviceId, date, first, second).service;
            && (r.Some? <==> GetPrice(vehicleId, serviceId).Some?)
            && (r.Some? ==> r.value.price == PriceOnTier(r.value.pricingTier, vehicleId, serviceId).value
                            && r.value.ramadanIndicator == (r.value.pricingTier == Ramadan)
                            && r.value.pricingTier == TierAt(stored, date, first))
  {
    SecondLookupAgrees(stored, date, first, second);
    RamadanTierCostsMore(vehicleId, serviceId);
  }

  /** Under the same conditions, the second tier lookup finds the tier the first one found. */
  lemma {:induction false} SecondLookupAgrees(stored: Option<StoredValue>, date: Date, first: Lookup, second: Lookup)
    requires stored == Some(Unreadable) ||
             (SoundFor(stored, HijriYearOf(date), first.calendar) &&
              ParseCalendarReply(HijriYearOf(date), second.calendar(HijriYearOf(date))) ==
              ParseCalendarReply(HijriYearOf(date), first.calendar(HijriYearOf(date))))
    ensures TierAt(StoredAt(stored, date, first), date, second) == TierAt(stored, date, first)
  {
    var year := HijriYearOf(date);
    if stored != Some(Unreadable) {
      ResolveTransparentFor(stored, year, first.now, first.calendar, first.saveAccepted);
      var afterPrice := StoredAt(stored, date, first);
      assert SoundFor(afterPrice, year, second.calendar);
      ResolveTransparentFor(afterPrice, year, second.now, second.calendar, second.saveAccepted);
    }
  }

  /** As written, the second lookup can disagree with the first: when the first lookup's save is
      refused (or its stamp has expired by the second), the second asks the calendar again, and if
      that request fails the record pairs the Ramadan price with the standard tier. */
  lemma {:induction false} RetriedFetchCanDisagree(vehicleId: string, serviceId: string, date: Date,
                                                   first: Lookup, second: Lookup)
    requires !first.saveAccepted
    requires GetPrice(vehicleId, serviceId).Some?
    requires CalendarPricingVerdict(date, first.calendar)
    requires ParseCalendarReply(HijriYearOf(date), second.calendar(HijriYearOf(date))).None?
    ensures var r := PricedServiceOutcome(None, vehicleId, serviceId, date, first, second).service;
            && r.Some? && r.value.pricingTier == Standard && !r.value.ramadanIndicator
            && r.value.price == PriceOnTier(Ramadan, vehicleId, serviceId).value
            && r.value.price != PriceOnTier(Standard, vehicleId, serviceId).value
  {
    RamadanTierCostsMore(vehicleId, serviceId);
    CachedVerdictIsCalendarVerdict(None, date, first.now, first.calendar, first.saveAccepted);
    assert StoredAt(None, date, first) == None;
    CachedVerdictIsCalendarVerdict(None, date, second.now, second.calendar, second.saveAccepted);
  }

  /** `getPricedService` */
  method GetPricedService(cache: RamadanCache, vehicleId: string, serviceId: string, date: Date,
                          first: Lookup, second: Lookup)
    returns (result: Option<PricedService>)
    modifies cache
    ensures PricedResult(result, cache.stored) ==
            PricedServiceOutcome(old(cache.stored), vehicleId, serviceId, date, first, second)
  {
    var price := GetPriceForServiceOnDate(cache, vehicleId, serviceId, date, first.now, first.calendar,
                                          first.saveAccepted);
    if price.None? || price.value == 0 {
      return None;
    }
    var pricingTier := GetPricingTierForDate(cache, date, second.now, second.calendar, second.saveAccepted);
    var ramadanIndicator := pricingTier == Ramadan;
    result := Some(PricedService(vehicleId, serviceId, date, price.value, pricingTier, ramadanIndicator));
  }
}
