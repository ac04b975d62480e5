# Transport booking: date-dependent pricing, catalog and cart

This project models the booking logic of a transport-booking web client for Makkah and Madina. The client offers vehicles and routes from a fixed catalog, and each route has a price in a standard table and a higher price in a Ramadan table. Which table applies depends on the booking date. A date is a Ramadan pricing date when it is day 18 to 30 of Ramadan and lies inside the month.

The start and end of the month come from an Islamic-calendar service. The client keeps them in a browser-storage cache with one 30-day freshness stamp. Around this core the model covers:

- the catalog lookups;
- the cart list (append, remove by id, clear, total, count, item details);
- the service picker (half-hour time slots, their 12-hour display, the category and search filter, the add-to-cart guards).

Modules follow the source files:

| module | file | models |
|---|---|---|
| `PricingData` | `pricing_data.dfy` | `client/src/data/pricing.ts` |
| `RamadanDates` | `ramadan_dates.dfy` | `client/src/utils/ramadanUtils.ts` |
| `DynamicPricing` | `dynamic_pricing.dfy` | `client/src/utils/dynamicPricingUtils.ts` |
| `CartContext` | `cart_context.dfy` | `client/src/contexts/CartContext.tsx` |
| `ServiceSelector` | `service_selector.dfy` | `client/src/components/ServiceSelector.tsx` |

These are supported by three helper modules:

- `Wrappers`: `Option`.
- `Text`: the JavaScript string built-ins the code uses.
- `Sequences`: `filter`, `find` and subsequences.

How the model represents the runtime:

- **Times.** Times are integer milliseconds, so `Math.ceil` of the day offset is exact.
- **Hijri year.** The Hijri-year estimate uses exact rational arithmetic with the source's factor 1.030684.
- **Calendar service.** The service is an oracle `Calendar` from a Hijri year to a `CalendarReply`.
- **Ramadan cache.** Its storage slot is the field `stored` of class `RamadanDates.RamadanCache`. It is either empty, readable (a cache) or unreadable (text `JSON.parse` rejects).
- **Time and storage writes.** The clock reading `now` and whether storage accepts a write (`saveAccepted`) are parameters of each operation. An operation that looks up several dates (`GetPricingTierForDateRange`) uses the same values for all of them; see Left out.
- **Cart.** The cart's list state is the `items` field of class `CartContext.Cart`, and its storage slot is `persisted`.
- **Async operations.** They become methods whose result and new storage state are tied to specification functions (`Resolve`, `PricingVerdict`, `RangeOutcome`, `PricedServiceOutcome`). The properties are then proved about those functions.

Three places in the code behave differently from what a reader of it would expect. The model follows what the code does.

1. **Unreadable stored cache.** `getCachedRamadanData` passes the stored text to `JSON.parse` (`ramadanUtils.ts:93`). Text that does not parse makes it throw, and the classifiers' catch returns false (`getRamadanDatesForYear` returns null). Nothing is ever saved over that text. So the model's `Unreadable` storage is permanent (`UnreadableStorageIsPermanent`), and every date is then priced on the standard tier (`UnreadableRangeIsStandard`).
2. **Stored periods.** The cache is meant to answer a later lookup exactly as the calendar did. The code reads stored periods back without reviving their dates; see Findings. The classes model a cache that keeps the periods intact, and the as-written behaviour is modelled beside it.
3. **`getPricedService`.** It asks for the tier a second time after taking the price. The model keeps both calls, each with its own clock reading, calendar replies and storage acceptance (a `Lookup`). The two agree under the same conditions (`PricedServiceIsConsistent`). They also agree across different conditions when the stored entry for the year is the calendar's answer and the calendar answers that year the same way both times (`PricedServiceAgreesAcrossLookups`). Otherwise they can disagree: when the first lookup's save is refused and the repeated request fails, the record pairs the Ramadan price with the standard tier (`RetriedFetchCanDisagree`).

## Model

| member | source | states |
|---|---|---|
| PricingData.TablesAgree | client/src/data/pricing.ts:173-456 | a vehicle has a standard row exactly when it has a Ramadan row; the two rows price the same services, and every Ramadan price is above the standard price |
| PricingData.CamryRowsAgree | client/src/data/pricing.ts:174-195 | camry's standard row (and its Ramadan row at 318-339) offer the same routes, and Ramadan is higher on each |
| PricingData.H1RowsAgree | client/src/data/pricing.ts:196-219 | the same for h1 (Ramadan row at 340-363) |
| PricingData.StariaRowsAgree | client/src/data/pricing.ts:220-242 | the same for staria (Ramadan row at 364-386) |
| PricingData.HiaceRowsAgree | client/src/data/pricing.ts:243-265 | the same for hiace (Ramadan row at 387-409) |
| PricingData.YukonRowsAgree | client/src/data/pricing.ts:266-288 | the same for yukon (Ramadan row at 410-432) |
| PricingData.CoasterRowsAgree | client/src/data/pricing.ts:289-311 | the same for coaster (Ramadan row at 433-455) |
| PricingData.StandardPricing | client/src/data/pricing.ts:173-312 | specification function, no contract of its own: `standardPricing[vehicleId]`, the vehicle's row or none; its properties are `TablesAgree`, the per-vehicle `…RowsAgree` lemmas, `StandardPricesPositive` and `FleetIsPriced` |
| PricingData.RamadanPricing | client/src/data/pricing.ts:317-456 | specification function, no contract of its own: `ramadanPricing[vehicleId]`, the vehicle's row or none; its properties are `TablesAgree`, the per-vehicle `…RowsAgree` lemmas and `FleetIsPriced` |
| PricingData.StandardPricesPositive | client/src/data/pricing.ts:173-312 | every standard price is positive, so no priced route looks unpriced to a `!price` test |
| PricingData.GetPrice | client/src/data/pricing.ts:466-470 | reads only the standard table; there is a price exactly when the vehicle has a row containing the service, and it is that entry |
| PricingData.GetVehicleById | client/src/data/pricing.ts:472-474 | none exactly when no vehicle has the id; otherwise the first vehicle with that id |
| PricingData.GetServiceById | client/src/data/pricing.ts:476-478 | none exactly when no service has the id; otherwise the first service with that id |
| PricingData.GetServicesByCategory | client/src/data/pricing.ts:480-482 | a subsequence of the catalog (catalog order); every service in it is of the category, and every catalog service of the category is in it |
| PricingData.InCategory | client/src/data/pricing.ts:481 | the `filter` by category on any list: a subsequence keeping each service of the category as many times as in the list, and no other service |
| PricingData.GetAvailableServicesForVehicle | client/src/data/pricing.ts:484-491 | empty for a vehicle without a standard row; otherwise a subsequence of the catalog holding exactly the services with a standard price for the vehicle |
| PricingData.PricedIn | client/src/data/pricing.ts:490 | the `filter` by price-row key on any list: a subsequence keeping each service the row prices as many times as in the list, and no other service |
| PricingData.AvailableServiceHasRamadanPrice | client/src/data/pricing.ts:484-491 | availability is judged on the standard table, yet every offered service also has a Ramadan price, and it is the higher one |
| PricingData.FleetIsPriced | client/src/data/pricing.ts:32-105 | every vehicle of the fleet has a row in both tables |
| RamadanDates.ParseCalendarReply | client/src/utils/ramadanUtils.ts:49-80 | a period exactly when the reply is ok, has a day list and the list has at least 30 days; then the start is day 0, the end is day 29 and the year is the requested one |
| RamadanDates.LoadStored | client/src/utils/ramadanUtils.ts:90-100 | unreadable text fails; a readable cache younger than 30 days (strictly) is returned as is; an empty slot or an expired cache gives an empty cache stamped `now` |
| RamadanDates.AfterSave | client/src/utils/ramadanUtils.ts:105-111 | specification function, no contract of its own: the slot after a write holds the data when storage accepts it and is unchanged otherwise; its property is `SaveThenLoad` |
| RamadanDates.WholeCacheExpires | client/src/utils/ramadanUtils.ts:94-99 | one stamp governs every year: once it is 30 days old even a stored year misses, and the refetch keeps only the year fetched |
| RamadanDates.SaveThenLoad | client/src/utils/ramadanUtils.ts:105-111 | a saved cache read back within 30 days is exactly the saved cache |
| RamadanDates.ClearedCacheLoadsEmpty | client/src/utils/ramadanUtils.ts:185-191 | after clearing, the next read is an empty cache |
| RamadanDates.GregorianToHijriYear | client/src/utils/ramadanUtils.ts:117-119 | the result is the floor of (year − 622) · 1.030684 + month / 12 |
| RamadanDates.HijriYearAdvances | client/src/utils/ramadanUtils.ts:117-119 | one Gregorian year later is one or two Hijri years later, never earlier |
| RamadanDates.HijriYearExamples | client/src/utils/ramadanUtils.ts:118 | January 2025 is Hijri 1446, February 2026 is Hijri 1447 |
| RamadanDates.CeilDiv | client/src/utils/ramadanUtils.ts:238-240 | the quotient q satisfies (q − 1)·d < x ≤ q·d, which makes it the ceiling |
| RamadanDates.DaysIntoRamadan | client/src/utils/ramadanUtils.ts:237-240 | specification function, no contract of its own: `ceil((date − start) / one day) + 1`; its properties are `DayOffsetIsWholeDays` and `DayOffsetBounds` |
| RamadanDates.InPricingWindow | client/src/utils/ramadanUtils.ts:243-248 | specification predicate, no contract of its own: the day offset is within the configured days and the date is inside the month; its properties are `PricingWindowInterval`, `PricingWindowEdges` and `OutsideMonthIsNeverPriced` |
| RamadanDates.InRamadan | client/src/utils/ramadanUtils.ts:147 | specification predicate, no contract of its own: start ≤ date ≤ end; its property is `PricingDatesAreInRamadan` |
| RamadanDates.DayOffsetIsWholeDays | client/src/utils/ramadanUtils.ts:237-240 | a date exactly k − 1 days after the start has day offset k; the start itself has offset 1 |
| RamadanDates.DayOffsetBounds | client/src/utils/ramadanUtils.ts:237-240 | the offset is at least k exactly when the date is more than k − 2 days after the start, and at most k exactly when it is at most k − 1 days after it |
| RamadanDates.PricingWindowInterval | client/src/utils/ramadanUtils.ts:243-248 | for any configuration the pricing test is an interval of times: after startDay − 2 days, up to endDay − 1 days, and inside the month |
| RamadanDates.RamadanPricingWindowInterval | client/src/utils/ramadanUtils.ts:29-32 | with days 18 to 30, a date is priced exactly when it is more than 16 days and at most 29 days after the start and not after the end |
| RamadanDates.OutsideMonthIsNeverPriced | client/src/utils/ramadanUtils.ts:246-247 | a date before the start or after the end is never priced, whatever its offset |
| RamadanDates.PricingWindowEdges | client/src/utils/ramadanUtils.ts:244-245 | both day bounds are inclusive: the first and last configured days are priced, the days just outside are not |
| RamadanDates.March2025Scenario | client/src/utils/ramadanUtils.ts:237-248 | a month from 1 to 30 March 2025 prices the 18th, and not the 17th or the 31st |
| RamadanDates.ClampAfterShortMonth | client/src/utils/ramadanUtils.ts:246-247 | for a period whose end is 28 days after its start (a calendar whose 30th day is dated that way), the day after the end has offset 30 and is still not priced, by the month test alone |
| RamadanDates.Resolve | client/src/utils/ramadanUtils.ts:208-227 | specification function, no contract of its own: load the cache, use a stored year, otherwise ask the calendar and save what it gives; its properties are the `Resolve…` lemmas below |
| RamadanDates.ResolveHit | client/src/utils/ramadanUtils.ts:214 | a year in the loaded cache is not fetched, nothing is written, and its stored period is used |
| RamadanDates.ResolveMissStores | client/src/utils/ramadanUtils.ts:214-219 | a miss answered by the calendar stores the period under its year, restamps with `now`, and keeps every other year's entry |
| RamadanDates.ResolveFailureSavesNothing | client/src/utils/ramadanUtils.ts:220-223 | when no period is found the storage is unchanged |
| RamadanDates.UnreadableStorageIsPermanent | client/src/utils/ramadanUtils.ts:92-93 | unreadable storage finds nothing, never asks the calendar and is never overwritten |
| RamadanDates.ResolveAgain | client/src/utils/ramadanUtils.ts:208-227 | a second lookup of the same year finds the same period; it does not fetch when the first one left the period in storage |
| RamadanDates.ResolveTransparent | client/src/utils/ramadanUtils.ts:210-227 | over storage holding only the calendar's answers, a lookup finds exactly the calendar's answer and keeps storage that way |
| RamadanDates.ResolveTransparentFor | client/src/utils/ramadanUtils.ts:210-227 | when the stored entry for one year (if any) is the calendar's answer, a lookup of that year finds exactly the calendar's answer, and the storage after it still has that property |
| RamadanDates.NoPeriodNoPricing | client/src/utils/ramadanUtils.ts:220-223 | when detection finds no period both classifiers say false |
| RamadanDates.InRamadanVerdict | client/src/utils/ramadanUtils.ts:125-152 | specification function, no contract of its own: a period is found for the date's Hijri year and the date is `InRamadan` of it; its properties are `NoPeriodNoPricing` and `PricingDatesAreInRamadan` |
| RamadanDates.PricingVerdict | client/src/utils/ramadanUtils.ts:208-253 | specification function, no contract of its own: a period is found for the date's Hijri year and the date is `InPricingWindow` of it; its properties are `NoPeriodNoPricing`, `PricingDatesAreInRamadan` and `CachedVerdictIsCalendarVerdict` |
| RamadanDates.PricingDatesAreInRamadan | client/src/utils/ramadanUtils.ts:243-248 | every pricing date is a Ramadan date |
| RamadanDates.CachedVerdictIsCalendarVerdict | client/src/utils/ramadanUtils.ts:208-248 | over such storage the cached pricing verdict equals the verdict from the calendar alone |
| RamadanDates.RamadanCache.Save | client/src/utils/ramadanUtils.ts:105-111 | the slot holds the data when the write is accepted; otherwise it is unchanged |
| RamadanDates.RamadanCache.Clear | client/src/utils/ramadanUtils.ts:185-191 | the slot is empty |
| RamadanDates.RamadanCache.CacheSummary | client/src/utils/ramadanUtils.ts:196-199 | none exactly when reading fails; the stored periods of a cache younger than 30 days; an empty map for an empty slot or an expired cache |
| RamadanDates.RamadanCache.ResolvePeriod | client/src/utils/ramadanUtils.ts:210-227 | the period, whether it fetched, and the new slot are those of `Resolve` |
| RamadanDates.RamadanCache.IsDateInRamadan | client/src/utils/ramadanUtils.ts:125-152 | true exactly when a period is found and start ≤ date ≤ end; the new slot is that of the lookup |
| RamadanDates.RamadanCache.IsDateInRamadanPricingPeriod | client/src/utils/ramadanUtils.ts:208-253 | true exactly when a period is found and the day offset and month test of `InPricingWindow` hold; the new slot is that of the lookup |
| RamadanDates.RamadanCache.GetRamadanDatesForYear | client/src/utils/ramadanUtils.ts:158-180 | the period of the Hijri year of 1 January of the year (a year from 0 to 99 read as 1900 to 1999, as `new Date(year, 0, 1)` does), or none, with the slot updated as by the lookup |
| RamadanDates.GetTimeAsWritten | client/src/utils/ramadanUtils.ts:239 | specification function, no contract of its own: `getTime()` gives the milliseconds of a date and throws on the text a stored bound is read back as; its properties are `AsWrittenFreshPeriodAgrees` and `AsWrittenCacheHitNeverPriced` |
| RamadanDates.PricingCheckAsWritten | client/src/utils/ramadanUtils.ts:230-252 | specification function, no contract of its own: the pricing test on bounds as the code holds them, false when `getTime()` throws; its properties are the two lemmas below |
| RamadanDates.AsWrittenFreshPeriodAgrees | client/src/utils/ramadanUtils.ts:237-248 | right after a fetch (real dates) the as-written test equals the intended window test |
| RamadanDates.AsWrittenCacheHitNeverPriced | client/src/utils/ramadanUtils.ts:93 | with bounds read back as text, the as-written test is false on day 18, where the intended test is true |
| DynamicPricing.TierFor | client/src/utils/dynamicPricingUtils.ts:22 | the Ramadan tier exactly when the date is in the pricing period |
| DynamicPricing.PricingTable | client/src/utils/dynamicPricingUtils.ts:42-43 | the selected table has a row for the vehicle on either tier exactly when the standard table has one |
| DynamicPricing.PriceOnTier | client/src/utils/dynamicPricingUtils.ts:64 | there is a price on either tier exactly when the catalog's `getPrice` has one |
| DynamicPricing.StandardTierIsCatalogPrice | client/src/utils/dynamicPricingUtils.ts:42-43 | the standard tier's price is the catalog's `getPrice` |
| DynamicPricing.RamadanTierCostsMore | client/src/utils/dynamicPricingUtils.ts:42-43 | a route is priced on the Ramadan tier exactly when it is priced on the standard tier; the standard price is positive and the Ramadan price is higher |
| DynamicPricing.FailedDetectionIsStandard | client/src/utils/dynamicPricingUtils.ts:17-28 | when no period is found the tier is standard, so no price is taken from the Ramadan table |
| DynamicPricing.TierIsCalendarTier | client/src/utils/dynamicPricingUtils.ts:17-28 | over sound storage the tier is the one the calendar alone decides |
| DynamicPricing.TierOnDate | client/src/utils/dynamicPricingUtils.ts:17-28 | specification function, no contract of its own: `TierFor` of the pricing verdict from a storage slot; its properties are `FailedDetectionIsStandard` and `TierIsCalendarTier` |
| DynamicPricing.StoredAfter | client/src/utils/dynamicPricingUtils.ts:17-28 | specification function, no contract of its own: the slot after the date's lookup; its properties come from the `Resolve…` lemmas and `UnreadableRangeIsStandard` |
| DynamicPricing.GetPricingTierForDate | client/src/utils/dynamicPricingUtils.ts:17-28 | Ramadan exactly when the pricing-period check holds for the storage before the call |
| DynamicPricing.GetPricingForVehicleOnDate | client/src/utils/dynamicPricingUtils.ts:36-48 | the Ramadan table's row on the Ramadan tier, the standard row otherwise, none for an unknown vehicle |
| DynamicPricing.GetPriceForServiceOnDate | client/src/utils/dynamicPricingUtils.ts:57-69 | the selected table's entry for vehicle and service, none when either key is missing |
| DynamicPricing.RangeOutcome | client/src/utils/dynamicPricingUtils.ts:77-92 | specification function, no contract of its own: the dates classified in order, stopping at the first pricing date; its properties are the three lemmas below |
| DynamicPricing.SingleDateRange | client/src/utils/dynamicPricingUtils.ts:77-92 | a range of one date has that date's tier |
| DynamicPricing.UnreadableRangeIsStandard | client/src/utils/dynamicPricingUtils.ts:77-92 | with unreadable storage every range is standard and storage stays as it was |
| DynamicPricing.RangeIsRamadanIffSomeDate | client/src/utils/dynamicPricingUtils.ts:77-92 | over sound storage a range is Ramadan exactly when one of its dates is a pricing date (an empty range is standard) |
| DynamicPricing.GetPricingTierForDateRange | client/src/utils/dynamicPricingUtils.ts:77-92 | the loop's answer and final storage are `RangeOutcome`: dates classified in order, stopping at the first pricing date |
| DynamicPricing.PricedServiceIsConsistent | client/src/utils/dynamicPricingUtils.ts:106-125 | when both tier lookups run under the same conditions: a record exactly for routes the catalog prices; its price is the price of the tier it reports, that tier is the date's tier, and the indicator is set exactly on the Ramadan tier |
| DynamicPricing.PricedServiceOutcome | client/src/utils/dynamicPricingUtils.ts:106-130 | specification function, no contract of its own: the price on the first lookup's tier, none when it is missing or zero, otherwise the record with the second lookup's tier; its properties are the lemmas around it |
| DynamicPricing.PricedServiceAgreesAcrossLookups | client/src/utils/dynamicPricingUtils.ts:106-125 | the same consistency when the two lookups differ in clock, calendar and storage acceptance, provided storage is unreadable, or its entry for the year is the calendar's answer and the calendar answers that year the same way both times |
| DynamicPricing.SecondLookupAgrees | client/src/utils/dynamicPricingUtils.ts:112-115 | under those conditions the second tier lookup finds the first lookup's tier |
| DynamicPricing.RetriedFetchCanDisagree | client/src/utils/dynamicPricingUtils.ts:106-125 | with an empty slot, a refused save and a failed repeat request, a Ramadan pricing date gets a record with the Ramadan price, the standard tier and no indicator, and that price is not the standard price |
| DynamicPricing.GetPricedService | client/src/utils/dynamicPricingUtils.ts:106-130 | none when the price is missing or zero; otherwise the record with the second tier lookup, as `PricedServiceOutcome` |
| CartContext.ItemId | client/src/contexts/CartContext.tsx:56 | the id is the vehicle id, a dash, the service id, a dash, then the decimal numeral of `now` |
| CartContext.ItemIdsDifferInTime | client/src/contexts/CartContext.tsx:56 | two items for the same vehicle and service added at different milliseconds have different ids |
| CartContext.Created | client/src/contexts/CartContext.tsx:54-58 | the new item carries the given fields, id `ItemId` and `addedAt = now` |
| CartContext.Total | client/src/contexts/CartContext.tsx:70 | the sum of the prices, folded from the left; non-negative when every price is |
| CartContext.TotalAppend | client/src/contexts/CartContext.tsx:70 | appending an item adds exactly its price to the total |
| CartContext.TotalConcat | client/src/contexts/CartContext.tsx:70 | the total of two lists put together is the sum of their totals |
| CartContext.TotalBounds | client/src/contexts/CartContext.tsx:70 | with non-negative prices the total is at least any one item's price |
| CartContext.WithoutId | client/src/contexts/CartContext.tsx:62-64 | a subsequence of the list (order kept); every item of another id keeps its multiplicity, and no item of that id remains |
| CartContext.RemoveAbsentIsNoop | client/src/contexts/CartContext.tsx:62-64 | removing an id no item has changes nothing |
| CartContext.InitialItems | client/src/contexts/CartContext.tsx:35-46 | the stored list when there is one that parses, otherwise empty |
| CartContext.Cart.constructor | client/src/contexts/CartContext.tsx:35-51 | the list starts as `InitialItems` of the slot, which is then written back |
| CartContext.Cart.TotalPrice | client/src/contexts/CartContext.tsx:70 | the total of the list; non-negative when every price is |
| CartContext.Cart.ItemCount | client/src/contexts/CartContext.tsx:71 | the number of entries in the list |
| CartContext.Cart.AddItem | client/src/contexts/CartContext.tsx:53-60 | exactly one item at the end, earlier items untouched; count + 1, total + price; the slot holds the new list |
| CartContext.Cart.RemoveItem | client/src/contexts/CartContext.tsx:62-64 | the list becomes `WithoutId` of the old list; the slot holds the new list |
| CartContext.Cart.ClearCart | client/src/contexts/CartContext.tsx:66-68 | the list is empty, total and count are 0 |
| CartContext.ReloadCart | client/src/contexts/CartContext.tsx:35-51 | a cart built on a reload from the slot another cart wrote holds exactly that cart's items and slot |
| CartContext.JsRemainder | client/src/contexts/CartContext.tsx:90 | JavaScript's `%`: the remainder takes the sign of the dividend |
| CartContext.DisplayHour | client/src/contexts/CartContext.tsx:90 | for a non-negative hour the shown hour is 1 to 12 and congruent to it modulo 12 |
| CartContext.FormatTime | client/src/contexts/CartContext.tsx:87-91 | the text ends in " PM" exactly when the hour field parses to at least 12, and in " AM" otherwise |
| CartContext.FormatClockTime | client/src/contexts/CartContext.tsx:87-91 | on digits, a colon and text without a colon: the hour modulo 12 with 0 as 12, the minutes as given, and PM exactly from hour 12 |
| CartContext.FormatUnparsedHour | client/src/contexts/CartContext.tsx:88-90 | an hour that does not parse (`NaN`) shows as 12 AM with its minutes |
| CartContext.FormatMissingMinutes | client/src/contexts/CartContext.tsx:87-91 | a time without a colon has no minutes field, and "undefined" is shown in its place |
| CartContext.SplitAtColon | client/src/contexts/CartContext.tsx:87 | `split(':')` of text with one colon gives the text before it and the text after it |
| CartContext.VehicleName | client/src/contexts/CartContext.tsx:94 | the catalog name, or "Unknown Vehicle" for an unknown id or an empty name |
| CartContext.ServiceName | client/src/contexts/CartContext.tsx:95 | the catalog name, or "Unknown Service" for an unknown id or an empty name |
| CartContext.GetItemDetails | client/src/contexts/CartContext.tsx:73-100 | a vehicle or service found in the catalog with a non-empty name shows that name; an unknown one shows its fallback name; both names are non-empty; the time is `FormatTime` of the item's time |
| ServiceSelector.TwoDigitText | client/src/components/ServiceSelector.tsx:91-92 | a number below 100 padded to two digits keeps its value |
| ServiceSelector.TimeSlots | client/src/components/ServiceSelector.tsx:87-97 | 48 clock times; entry i is 30·i minutes after midnight with minutes "00" or "30"; first "00:00", last "23:30" |
| ServiceSelector.AppendHourSlots | client/src/components/ServiceSelector.tsx:90-94 | the inner loop: two more entries, and every entry is still the slot of its position |
| ServiceSelector.AllSlots | client/src/components/ServiceSelector.tsx:87-97 | forty-eight slots in place begin at "00:00" and end at "23:30" |
| ServiceSelector.SlotsAscend | client/src/components/ServiceSelector.tsx:87-97 | the slots ascend strictly |
| ServiceSelector.FormatTimeDisplay | client/src/components/ServiceSelector.tsx:99-106 | empty exactly for an empty time; any other time is formatted as the cart formats it |
| ServiceSelector.ClockTimeDisplay | client/src/components/ServiceSelector.tsx:99-106 | a clock time shows its hour modulo 12 (0 as 12), the minutes unchanged, and PM from noon |
| ServiceSelector.MidnightHourDisplay | client/src/components/ServiceSelector.tsx:101-105 | a time in hour "00" shows as 12 with its minutes and AM |
| ServiceSelector.NoonHourDisplay | client/src/components/ServiceSelector.tsx:101-105 | a time in hour "12" shows as 12 with its minutes and PM |
| ServiceSelector.AfternoonHourDisplay | client/src/components/ServiceSelector.tsx:101-105 | a time in hour "13" shows as 1, without a leading zero, with its minutes and PM |
| ServiceSelector.AvailableServices | client/src/components/ServiceSelector.tsx:274-277 | none without a vehicle; otherwise exactly the catalog services the standard table prices for it |
| ServiceSelector.MatchesCategory | client/src/components/ServiceSelector.tsx:283-285 | specification predicate, no contract of its own: the category is "all" or the service's; used in `FilteredServices`' ensures |
| ServiceSelector.MatchesSearch | client/src/components/ServiceSelector.tsx:288-294 | specification predicate, no contract of its own: an empty query, or the lowercased query inside the lowercased name or the Arabic name; used in `FilteredServices`' ensures |
| ServiceSelector.FilteredServices | client/src/components/ServiceSelector.tsx:279-298 | a subsequence of the available services keeping each service of the category (any for "all") whose lowercased name or Arabic name contains the lowercased query, as many times as it is available, and no other; with "all" and no query, everything |
| ServiceSelector.MatchingQuery | client/src/components/ServiceSelector.tsx:290-294 | the search `filter`: a subsequence keeping each service whose lowercased name or Arabic name contains the query as many times as in the list, and no other service |
| ServiceSelector.ServiceItemRequest | client/src/components/ServiceSelector.tsx:108-112 | a request exactly when a date, a non-empty time and a present non-zero price are all given |
| ServiceSelector.OfferedServiceIsAlwaysAddable | client/src/components/ServiceSelector.tsx:108-112 | every service offered for a vehicle has a price on either tier, so the guard passes once a date and time are chosen |
| ServiceSelector.HandleAddToCart | client/src/components/ServiceSelector.tsx:300-309 | nothing changes without a vehicle; otherwise one item of that vehicle is appended |
| ServiceSelector.AddServiceToCart | client/src/components/ServiceSelector.tsx:108-121 | the cart grows by one item exactly when a vehicle is selected and the guard passes; that item's price is non-zero and the slot holds the new list; otherwise list and slot are unchanged |
| Text.NatToDecimal | client/src/contexts/CartContext.tsx:56 | `toString` of a natural number: a shortest digit string denoting it |
| Text.DecimalRoundTrip | client/src/contexts/CartContext.tsx:56 | a canonical digit string is the numeral of its value |
| Text.PadStart | client/src/components/ServiceSelector.tsx:91-92 | `padStart`: the width reached, the text as a suffix, the fill before it |
| Text.IntToDecimal | client/src/contexts/CartContext.tsx:91 | `toString` of an integer: the numeral of its magnitude, with a minus sign in front of a negative number (`NatToDecimal` states the numeral) |
| Text.ToLower | client/src/components/ServiceSelector.tsx:289-292 | `toLowerCase` on ASCII letters: the same length, each character lowered on its own |
| Text.Includes | client/src/components/ServiceSelector.tsx:292-293 | specification predicate, no contract of its own: `includes`, the second text occurs as a contiguous block somewhere in the first; used in `MatchingQuery`'s and `FilteredServices`' ensures |
| Text.FieldBefore | client/src/contexts/CartContext.tsx:87 | the first field of `split(':')`: the whole text without a colon, otherwise the prefix before the first colon |
| Text.SecondField | client/src/contexts/CartContext.tsx:87 | the second field of `split(':')`: none exactly when there is no colon, otherwise the text after the first colon up to the next colon (or the end) |
| Text.ParseInt | client/src/contexts/CartContext.tsx:88 | on a non-empty digit string, its decimal value |
| Sequences.Filter | client/src/data/pricing.ts:480-482 | `filter`: a subsequence holding exactly the elements that pass, each as many times as in the input |
| Sequences.Find | client/src/data/pricing.ts:472-474 | `find`: the first element that passes, none exactly when no element passes |

## Left out

- **Network requests.** The request to the calendar service is left out: the URL, the 5-second timeout and `response.json()`. The calendar is an oracle. A network error, a timeout and a body that is not JSON all become `NetworkFailure`.
- **Calendar date text.** The service reports each day as date text (`gregorian.date`), and the code converts it with `new Date(...)` (`ramadanUtils.ts:73-74`). That conversion is not modelled; the oracle gives each day as a timestamp directly.
- **Local time zone.** `getFullYear`, `getMonth` and the calendar dates depend on the browser's time zone and daylight-saving rules. The model takes the year, the 0-based month and the timestamp as given.
- RamadanDates.GregorianToHijriYear: uses exact arithmetic, so at an exact integer boundary IEEE double rounding of `1.030684` could give a different floor.
- **Storage serialisation.** Browser storage and JSON text are abstract. A stored cache is readable or unreadable. Text that parses but has the wrong shape (for example `null`, which makes `data.lastUpdated` throw) is not told apart from unreadable text. A missing `lastUpdated` (age `NaN`, treated as expired) is not modelled.
- **Clock readings.** `Date.now()` is one `now` parameter per lookup. The source reads the clock separately for the age test, for the restamp, and (in `addItem`) for the id and for `addedAt`; the model assumes the readings within one lookup or one `addItem` are equal. The two lookups of `getPricedService` have separate readings.
- DynamicPricing.GetPricingTierForDateRange: every date of the range shares one clock reading, one set of calendar replies and one storage acceptance. In the source each date is a separate `isDateInRamadanPricingPeriod` call (`dynamicPricingUtils.ts:81-86`). Each call reads the clock again, and after a refused save or an expired stamp it asks the calendar again, possibly with a different reply. `RangeOutcome` and `RangeIsRamadanIffSomeDate` ("exactly when one of its dates is a pricing date") hold only when those repeated readings and replies agree, as they do within one `Lookup` of `getPricedService`. `RetriedFetchCanDisagree` shows what a repeated request that fails does to one date's answer.
- **Concurrency.** Concurrent lookups are left out: two overlapping async calls can both miss, both fetch, and the later write wins. Each method runs from start to end without interleaving.
- **Unreachable catch branches.** `getPricingForVehicleOnDate`, `getPriceForServiceOnDate`, `getPricingTierForDateRange` and `getPricedService` fall back in their catch blocks. The operations they call never throw, so the model has no exceptions and those branches are unreachable.
- **Locale formatting.** `formatPrice` (`toLocaleString`) and the cart's `toLocaleDateString` are left out, so `GetItemDetails` returns only the names and the time. `toISOString().split('T')[0]` for the selected date is also left out; the selector is given the date text directly.
- **Case folding and number parsing.** `toLowerCase` is modelled on ASCII letters only. `parseInt` is modelled without leading blanks, without hexadecimal and without loss of precision for very long digit runs.
- **UI behaviour.** The React rendering, toasts and the 300 ms delay before the add are left out. So are the resets of the row's date, time and price after an add, and the price fetch effect that fills a row's price.
- CartContext.InitialItems: the server-side branch (`typeof window === 'undefined'`) is left out. Stored text that parses to something other than a list of items is taken to be a list.
- CartContext.Cart: a storage write that throws (for example when storage is full) is not modelled; the slot always holds the current list.
- **Related context files.** `RamadanContext.tsx` only wraps the classifier in a hook; `WelcomePopup.tsx` repeats the slot and display helpers verbatim. Neither is part of this model.
- `getRamadanPricingConfig` only returns the constant `RamadanPricingConfig`.

## Findings

| source | as written | input that shows it | evidently intended | confidence | as-written member | corrected member |
|---|---|---|---|---|---|---|
| client/src/utils/ramadanUtils.ts:93 | stored periods are read back with a cast only, so their dates are ISO text. On a cache hit `ramadanStart.getTime()` (`:239`) throws, and the catch (`:249-252`) returns false. `isDateInRamadan`'s comparisons with text are false as well. | a month cached as 1 to 30 March 2025, and 18 March 2025, day 18: the first lookup (a miss) prices it as Ramadan, every later lookup (a hit) says standard | the cache is lossless: a hit classifies exactly as a fresh fetch | not executed | RamadanDates.AsWrittenCacheHitNeverPriced | RamadanDates.CachedVerdictIsCalendarVerdict |

A consequence of this finding shows in `getPricedService` as written. Its first tier lookup may fetch and price the route on the Ramadan tier. Its second lookup then hits the cache and reports the standard tier. The record pairs a Ramadan price with `pricingTier: 'standard'`. With the corrected cache this cannot happen when the second lookup finds the period the first one stored (`PricedServiceAgreesAcrossLookups`). It still happens when the first lookup could not store the period and the repeated request fails (`RetriedFetchCanDisagree`).
