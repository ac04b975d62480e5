/**
 * The service picker: the half-hour time slots offered for a booking, their 12-hour
 * display, the category and text filter over the services a vehicle offers, and the
 * guards in front of adding a service to the cart.
 */
module ServiceSelector {
  import opened Wrappers
  import opened Text
  import opened Sequences
  import opened PricingData
  import opened DynamicPricing
  import opened CartContext

  // ---------------------------------------------------------------------------
  // Time slots

  /** `n.toString().padStart(2, '0')` */
  function TwoDigitText(n: nat): (p: string)
    requires n < 100
    ensures |p| == 2 && AllDigits(p) && DecimalValue(p) == n
  {
    var digits := NatToDecimal(n);
    var p := PadStart(digits, 2, '0');
    if n < 10 then
      assert p == ['0'] + digits;
      assert p[..1] == ['0'];
      p
    else
      assert |NatToDecimal(n / 10)| == 1;
      assert p == digits;
      p
  }

  /** Text of the form `HH:MM`: two digits, a colon, two digits. */
  predicate IsClockTime(s: string) {
    |s| == 5 && AllDigits(s[..2]) && s[2] == ':' && AllDigits(s[3..])
  }

  /** Minutes since midnight of a clock time. */
  function ClockMinutes(s: string): nat
    requires IsClockTime(s)
  {
    DecimalValue(s[..2]) * 60 + DecimalValue(s[3..])
  }

  /** Slot `i` of the list: a clock time `30 * i` minutes after midnight, on the hour or the half hour. */
  predicate IsSlot(s: string, i: int) {
    IsClockTime(s) && ClockMinutes(s) == 30 * i && (s[3..] == "00" || s[3..] == "30")
  }

  /** The slot built from the two-digit texts of `hour` and `minute` is slot `index`. */
  lemma {:induction false} SlotText(h: string, m: string, hour: nat, minute: nat, index: nat)
    requires |h| == 2 && AllDigits(h) && DecimalValue(h) == hour
    requires |m| == 2 && AllDigits(m) && DecimalValue(m) == minute
    requires minute == 0 || minute == 30
    requires 30 * index == 60 * hour + minute
    ensures IsSlot(h + ":" + m, index)
  {
    var slot := h + ":" + m;
    assert slot[..2] == h && slot[2] == ':' && slot[3..] == m;
    if minute == 0 {
      assert DecimalValue("00") == 0;
      TwoDigitsDetermined(m, "00");
    } else {
      assert DecimalValue("30") == 30;
      TwoDigitsDetermined(m, "30");
    }
  }

  /** `timeSlots`: for every hour, the slots at minute 0 and minute 30. */
  method TimeSlots() returns (slots: seq<string>)
    ensures |slots| == 48
    ensures forall i :: 0 <= i < |slots| ==> IsSlot(slots[i], i)
    ensures slots[0] == "00:00" && slots[47] == "23:30"
  {
    slots := [];
    var hour := 0;
    while hour < 24
      invariant 0 <= hour <= 24
      invariant |slots| == 2 * hour
      invariant SlotsInPlace(slots)
    {
      slots := AppendHourSlots(slots, hour);
      hour := hour + 1;
    }
    AllSlots(slots);
  }

  /** The inner loop of `timeSlots`: the slots at minute 0 and minute 30 of `hour`, appended.
      Every entry stays the slot of its position, so the earlier entries are unchanged. */
  method AppendHourSlots(before: seq<string>, hour: nat) returns (slots: seq<string>)
    requires hour < 24 && |before| == 2 * hour && SlotsInPlace(before)
    ensures |slots| == |before| + 2 && SlotsInPlace(slots)
  {
    slots := before;
    var minute := 0;
    while minute < 60
      invariant minute == 0 || minute == 30 || minute == 60
      invariant 30 * |slots| == 60 * hour + minute
      invariant SlotsInPlace(slots)
    {
      var h := TwoDigitText(hour);
      var m := TwoDigitText(minute);
      NextSlot(slots, h, m, hour, minute);
      slots := slots + [h + ":" + m];
      minute := minute + 30;
    }
  }

  /** Forty-eight slots in place run from 00:00 to 23:30. */
  lemma {:induction false} AllSlots(slots: seq<string>)
    requires |slots| == 48 && SlotsInPlace(slots)
    ensures forall i :: 0 <= i < |slots| ==> IsSlot(slots[i], i)
    ensures slots[0] == "00:00" && slots[47] == "23:30"
  {
    FirstAndLastSlot(slots[0], slots[47]);
  }

  /** Every entry is the slot of its position. */
  predicate SlotsInPlace(slots: seq<string>) {
    forall k :: 0 <= k < |slots| ==> IsSlot(slots[k], k)
  }

  /** Appending the slot of `hour` and `minute` keeps every slot in its place. */
  lemma {:induction false} NextSlot(slots: seq<string>, h: string, m: string, hour: nat, minute: nat)
    requires SlotsInPlace(slots)
    requires |h| == 2 && AllDigits(h) && DecimalValue(h) == hour
    requires |m| == 2 && AllDigits(m) && DecimalValue(m) == minute
    requires minute == 0 || minute == 30
    requires 30 * |slots| == 60 * hour + minute
    ensures SlotsInPlace(slots + [h + ":" + m])
  {
    SlotText(h, m, hour, minute, |slots|);
    AppendSlot(slots, h + ":" + m);
  }

  lemma {:induction false} AppendSlot(slots: seq<string>, slot: string)
    requires forall k :: 0 <= k < |slots| ==> IsSlot(slots[k], k)
    requires IsSlot(slot, |slots|)
    ensures forall k :: 0 <= k < |slots + [slot]| ==> IsSlot((slots + [slot])[k], k)
  {
    forall k | 0 <= k < |slots + [slot]|
      ensures IsSlot((slots + [slot])[k], k)
    {
      if k < |slots| {
        assert (slots + [slot])[k] == slots[k];
      }
    }
  }

  lemma {:induction false} FirstAndLastSlot(first: string, last: string)
    requires IsSlot(first, 0) && IsSlot(last, 47)
    ensures first == "00:00" && last == "23:30"
  {
    assert DecimalValue("30") == 30;
    assert DecimalValue("00") == 0;
    assert DecimalValue("23") == 23;
    TwoDigitsDetermined(first[..2], "00");
    TwoDigitsDetermined(last[..2], "23");
    assert first == first[..2] + ":" + first[3..];
    assert last == last[..2] + ":" + last[3..];
  }

  /** The slots ascend strictly. */
  lemma {:induction false} SlotsAscend(slots: seq<string>, i: nat, j: nat)
    requires forall k :: 0 <= k < |slots| ==> IsSlot(slots[k], k)
    requires i < j < |slots|
    ensures IsClockTime(slots[i]) && IsClockTime(slots[j]) && ClockMinutes(slots[i]) < ClockMinutes(slots[j])
  {
    assert IsSlot(slots[i], i) && IsSlot(slots[j], j);
  }

  /** Two digits are fixed by their value. */
  lemma {:induction false} TwoDigitsDetermined(s: string, t: string)
    requires |s| == 2 && AllDigits(s) && |t| == 2 && AllDigits(t) && DecimalValue(s) == DecimalValue(t)
    ensures s == t
  {
    TwoDigitValue(s);
    TwoDigitValue(t);
    assert DigitValue(s[0]) == DigitValue(t[0]) && DigitValue(s[1]) == DigitValue(t[1]);
    assert s == [s[0], s[1]] && t == [t[0], t[1]];
  }

  lemma {:induction false} TwoDigitValue(s: string)
    requires |s| == 2 && AllDigits(s)
    ensures DecimalValue(s) == DigitValue(s[0]) * 10 + DigitValue(s[1])
  {
    var a := s[..1];
    assert a[..0] == [];
    assert DecimalValue(a) == DigitValue(s[0]);
  }

  // ---------------------------------------------------------------------------
  // Time display

  /** `formatTimeDisplay`: empty text stays empty, anything else is formatted as the cart does. */
  function FormatTimeDisplay(time: string): (r: string)
    ensures time == "" <==> r == ""
    ensures time != "" ==> r == FormatTime(time)
  {
    if time == "" then "" else FormatTime(time)
  }

  /** A clock time shows its hour modulo 12 (0 as 12), its minutes unchanged, and PM from noon. */
  lemma {:induction false} ClockTimeDisplay(s: string)
    requires IsClockTime(s)
    ensures FormatTimeDisplay(s) ==
            NatToDecimal(DisplayHour(DecimalValue(s[..2]))) + ":" + s[3..] +
            (if DecimalValue(s[..2]) >= 12 then " PM" else " AM")
  {
    assert s == s[..2] + ":" + s[3..];
    assert ':' !in s[3..] by {
      assert IsDigit(s[3]) && IsDigit(s[4]);
      assert s[3..] == [s[3], s[4]];
    }
    FormatClockTime(s[..2], s[3..]);
  }

  /** The hour after midnight shows as 12 AM. */
  lemma {:induction false} MidnightHourDisplay(s: string)
    requires IsClockTime(s) && s[..2] == "00"
    ensures FormatTimeDisplay(s) == "12:" + s[3..] + " AM"
  {
    ClockTimeDisplay(s);
    MidnightHourDigits();
  }

  lemma {:induction false} MidnightHourDigits()
    ensures DecimalValue("00") == 0 && NatToDecimal(DisplayHour(0)) == "12"
  {
    assert DecimalValue("00") == 0;
    assert NatToDecimal(DisplayHour(0)) == "12";
  }

  /** The hour from noon shows as 12 PM. */
  lemma {:induction false} NoonHourDisplay(s: string)
    requires IsClockTime(s) && s[..2] == "12"
    ensures FormatTimeDisplay(s) == "12:" + s[3..] + " PM"
  {
    ClockTimeDisplay(s);
    NoonHourDigits();
  }

  lemma {:induction false} NoonHourDigits()
    ensures DecimalValue("12") == 12 && NatToDecimal(DisplayHour(12)) == "12"
  {
    assert DecimalValue("12") == 12;
    assert NatToDecimal(DisplayHour(12)) == "12";
  }

  /** 13:xx shows as 1:xx PM, without a leading zero. */
  lemma {:induction false} AfternoonHourDisplay(s: string)
    requires IsClockTime(s) && s[..2] == "13"
    ensures FormatTimeDisplay(s) == "1:" + s[3..] + " PM"
  {
    ClockTimeDisplay(s);
    AfternoonHourDigits();
  }

  lemma {:induction false} AfternoonHourDigits()
    ensures DecimalValue("13") == 13 && NatToDecimal(DisplayHour(13)) == "1"
  {
    assert DecimalValue("13") == 13;
    assert NatToDecimal(DisplayHour(13)) == "1";
  }

  // ---------------------------------------------------------------------------
  // Filtering the services

  /** `availableServices`: nothing without a vehicle. */
  function AvailableServices(vehicle: Option<Vehicle>): (r: seq<Service>)
    ensures vehicle.None? ==> r == []
    ensures vehicle.Some? ==> forall i :: 0 <= i < |r| ==> r[i] in Services && GetPrice(vehicle.value.id, r[i].id).Some?
    ensures vehicle.Some? ==> forall i :: 0 <= i < |Services| && GetPrice(vehicle.value.id, Services[i].id).Some? ==>
                                Services[i] in r
  {
    match vehicle
    case None => []
    case Some(v) => GetAvailableServicesForVehicle(v.id)
  }

  predicate MatchesCategory(service: Service, selectedCategory: string) {
    selectedCategory == "all" || service.category == selectedCategory
  }

  /** The English name, lowercased, or the Arabic name contains the lowercased query; an empty
      query matches everything. */
  predicate MatchesSearch(service: Service, searchQuery: string) {
    searchQuery == "" ||
    Includes(ToLower(service.name), ToLower(searchQuery)) || Includes(service.nameAr, ToLower(searchQuery))
  }

  /** `filteredServices`: the category filter, then the search filter. */
  method FilteredServices(available: seq<Service>, selectedCategory: string, searchQuery: string)
    returns (services: seq<Service>)
    ensures IsSubsequence(services, available)
    ensures forall i :: 0 <= i < |services| ==>
              services[i] in available && MatchesCategory(services[i], selectedCategory) &&
              MatchesSearch(services[i], searchQuery)
    ensures forall i :: 0 <= i < |available| &&
              MatchesCategory(available[i], selectedCategory) && MatchesSearch(available[i], searchQuery)
              ==> available[i] in services
    ensures forall x :: multiset(services)[x] ==
              if MatchesCategory(x, selectedCategory) && MatchesSearch(x, searchQuery) then multiset(available)[x] else 0
    ensures selectedCategory == "all" && searchQuery == "" ==> services == available
  {
    services := available;
    SubsequenceOfSelf(available);
    if selectedCategory != "all" {
      services := InCategory(services, selectedCategory);
    }
    assert forall x :: multiset(services)[x] ==
             if MatchesCategory(x, selectedCategory) then multiset(available)[x] else 0;
    if searchQuery != "" {
      var before := services;
      services := MatchingQuery(services, ToLower(searchQuery));
      SubsequenceTransitive(services, before, available);
    }
    CountedMembers(available, services,
                   (x: Service) => MatchesCategory(x, selectedCategory) && MatchesSearch(x, searchQuery));
  }

  /** The services whose lowercased English name or Arabic name contains `query`, in list order. */
  function MatchingQuery(services: seq<Service>, query: string): (r: seq<Service>)
    ensures IsSubsequence(r, services)
    ensures forall i :: 0 <= i < |r| ==>
              r[i] in services && (Includes(ToLower(r[i].name), query) || Includes(r[i].nameAr, query))
    ensures forall i :: 0 <= i < |services| && (Includes(ToLower(services[i].name), query) ||
                                                Includes(services[i].nameAr, query)) ==>
              services[i] in r
    ensures forall x :: multiset(r)[x] ==
              if Includes(ToLower(x.name), query) || Includes(x.nameAr, query) then multiset(services)[x] else 0
  {
    Filter(services, (s: Service) => Includes(ToLower(s.name), query) || Includes(s.nameAr, query))
  }

  // ---------------------------------------------------------------------------
  // Adding to the cart

  /** What a service row hands to the selector. */
  datatype AddRequest = AddRequest(serviceId: string, date: string, time: string, price: int)

  /** `ServiceItem.handleAddToCart`'s guard: a date, a non-empty time and a price that is
      present and not zero, or nothing is forwarded. */
  function ServiceItemRequest(serviceId: string, selectedDate: Option<string>, selectedTime: string,
                              price: Option<int>): (r: Option<AddRequest>)
    ensures r.Some? <==> selectedDate.Some? && selectedTime != "" && price.Some? && price.value != 0
    ensures r.Some? ==> r.value == AddRequest(serviceId, selectedDate.value, selectedTime, price.value)
  {
    if selectedDate.None? || selectedTime == "" || price.None? || price.value == 0 then None
    else Some(AddRequest(serviceId, selectedDate.value, selectedTime, price.value))
  }

  /** Every service offered for a vehicle has a non-zero price on either tier, so the row's
      guard only ever waits for the date and the time. */
  lemma {:induction false} OfferedServiceIsAlwaysAddable(vehicle: Vehicle, service: Service, tier: PricingTier,
                                                         selectedDate: string, selectedTime: string)
    requires service in AvailableServices(Some(vehicle)) && selectedTime != ""
    ensures PriceOnTier(tier, vehicle.id, service.id).Some?
    ensures ServiceItemRequest(service.id, Some(selectedDate), selectedTime, PriceOnTier(tier, vehicle.id, service.id)).Some?
  {
    OfferedServiceIsPriced(vehicle, service);
    RamadanTierCostsMore(vehicle.id, service.id);
  }

  /** A service offered for a vehicle has a standard price for it. */
  lemma {:induction false} OfferedServiceIsPriced(vehicle: Vehicle, service: Service)
    requires service in AvailableServices(Some(vehicle))
    ensures GetPrice(vehicle.id, service.id).Some?
  {
    var offered := AvailableServices(Some(vehicle));
    var i :| 0 <= i < |offered| && offered[i] == service;
  }

  /** `ServiceSelector.handleAddToCart`: nothing without a vehicle, otherwise one item of that vehicle. */
  method HandleAddToCart(cart: Cart, vehicle: Option<Vehicle>, request: AddRequest, now: nat)
    modifies cart
    ensures vehicle.None? ==> cart.items == old(cart.items) && cart.persisted == old(cart.persisted)
    ensures vehicle.Some? ==>
              cart.items == old(cart.items) +
                [Created(NewItem(vehicle.value.id, request.serviceId, request.date, request.time, request.price), now)]
              && cart.persisted == StoredItems(cart.items)
  {
    if vehicle.None? {
      return;
    }
    cart.AddItem(NewItem(vehicle.value.id, request.serviceId, request.date, request.time, request.price), now);
  }

  /** A row's add button followed by the selector's handler: the cart grows by one item exactly
      when a vehicle is selected and the row's guard passes, and that item has a non-zero price. */
  method AddServiceToCart(cart: Cart, vehicle: Option<Vehicle>, serviceId: string, selectedDate: Option<string>,
                          selectedTime: string, price: Option<int>, now: nat)
    modifies cart
    ensures var request := ServiceItemRequest(serviceId, selectedDate, selectedTime, price);
            if vehicle.Some? && request.Some? then
              && cart.items == old(cart.items) + [Created(NewItem(vehicle.value.id, serviceId, selectedDate.value,
                                                                  selectedTime, price.value), now)]
              && cart.items[|cart.items| - 1].price != 0
              && cart.persisted == StoredItems(cart.items)
            else cart.items == old(cart.items) && cart.persisted == old(cart.persisted)
  {
    var request := ServiceItemRequest(serviceId, selectedDate, selectedTime, price);
    if request.None? {
      return;
    }
    HandleAddToCart(cart, vehicle, request.value, now);
  }
}
