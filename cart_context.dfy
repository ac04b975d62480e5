/**
 * The booking cart: a list of items that the provider replaces on every change (append,
 * remove by id, clear) and writes back to durable storage after each change, its total and
 * count, and the 12-hour time text shown for an item.
 */
module CartContext {
  import opened Wrappers
  import opened Text
  import opened Sequences
  import opened PricingData

  datatype CartItem = CartItem(id: string, vehicleId: string, serviceId: string, date: string, time: string,
                               price: int, addedAt: int)

  /** What `addItem` is given: an item without its id and its time of addition. */
  datatype NewItem = NewItem(vehicleId: string, serviceId: string, date: string, time: string, price: int)

  /** The storage slot 'transport-booking-cart': empty (or empty text), text that does not
      parse, or a stored list. */
  datatype StoredCart = NoStoredCart | Unparseable | StoredItems(items: seq<CartItem>)

  /** `${vehicleId}-${serviceId}-${Date.now()}` */
  function ItemId(vehicleId: string, serviceId: string, now: nat): (id: string)
    ensures |id| == |vehicleId| + |serviceId| + 2 + |NatToDecimal(now)|
    ensures id[..|vehicleId| + |serviceId| + 2] == vehicleId + "-" + serviceId + "-"
    ensures id[|vehicleId| + |serviceId| + 2..] == NatToDecimal(now)
  {
    vehicleId + "-" + serviceId + "-" + NatToDecimal(now)
  }

  /** Two items of the same vehicle and service added at different milliseconds get different ids. */
  lemma {:induction false} ItemIdsDifferInTime(vehicleId: string, serviceId: string, now1: nat, now2: nat)
    requires ItemId(vehicleId, serviceId, now1) == ItemId(vehicleId, serviceId, now2)
    ensures now1 == now2
  {
    var k := |vehicleId| + |serviceId| + 2;
    assert NatToDecimal(now1) == ItemId(vehicleId, serviceId, now1)[k..];
    assert NatToDecimal(now2) == ItemId(vehicleId, serviceId, now2)[k..];
    assert DecimalValue(NatToDecimal(now1)) == now1;
    assert DecimalValue(NatToDecimal(now2)) == now2;
  }

  /** The item `addItem` appends. */
  function Created(item: NewItem, now: nat): (c: CartItem)
    ensures c.id == ItemId(item.vehicleId, item.serviceId, now) && c.addedAt == now
    ensures c.vehicleId == item.vehicleId && c.serviceId == item.serviceId
    ensures c.date == item.date && c.time == item.time && c.price == item.price
  {
    CartItem(ItemId(item.vehicleId, item.serviceId, now), item.vehicleId, item.serviceId, item.date, item.time,
             item.price, now)
  }

  /** `items.reduce((sum, item) => sum + item.price, 0)`: a fold from the left. */
  function Total(items: seq<CartItem>): (t: int)
    ensures (forall i :: 0 <= i < |items| ==> items[i].price >= 0) ==> t >= 0
    decreases |items|
  {
    if items == [] then 0 else Total(items[..|items| - 1]) + items[|items| - 1].price
  }

  /** Appending an item adds exactly its price to the total. */
  lemma {:induction false} TotalAppend(items: seq<CartItem>, item: CartItem)
    ensures Total(items + [item]) == Total(items) + item.price
  {
    assert (items + [item])[..|items|] == items;
  }

  /** The total of two lists put together is the sum of their totals. */
  lemma {:induction false} TotalConcat(a: seq<CartItem>, b: seq<CartItem>)
    ensures Total(a + b) == Total(a) + Total(b)
    decreases |b|
  {
    if b != [] {
      var front := b[..|b| - 1];
      assert a + b == (a + front) + [b[|b| - 1]];
      assert b == front + [b[|b| - 1]];
      TotalConcat(a, front);
      TotalAppend(a + front, b[|b| - 1]);
      TotalAppend(front, b[|b| - 1]);
    } else {
      assert a + b == a;
    }
  }

  /** A cart of non-negative prices has a non-negative total, at least as large as any one price. */
  lemma {:induction false} TotalBounds(items: seq<CartItem>, k: nat)
    requires forall i :: 0 <= i < |items| ==> items[i].price >= 0
    requires k < |items|
    ensures Total(items) >= items[k].price >= 0
    decreases |items|
  {
    var front := items[..|items| - 1];
    if k < |items| - 1 {
      TotalBounds(front, k);
    } else if front != [] {
      TotalBounds(front, 0);
    }
  }

  /** `prev.filter(item => item.id !== id)` */
  function WithoutId(items: seq<CartItem>, id: string): (r: seq<CartItem>)
    ensures IsSubsequence(r, items)
    ensures forall i :: 0 <= i < |r| ==> r[i].id != id && r[i] in items
    ensures forall i :: 0 <= i < |items| && items[i].id != id ==> items[i] in r
    ensures forall x :: multiset(r)[x] == if x.id != id then multiset(items)[x] else 0
  {
    Filter(items, (item: CartItem) => item.id != id)
  }

  /** Removing an id no item has changes nothing. */
  lemma {:induction false} RemoveAbsentIsNoop(items: seq<CartItem>, id: string)
    requires forall i :: 0 <= i < |items| ==> items[i].id != id
    ensures WithoutId(items, id) == items
  {
    FilterKeepsAll(items, (item: CartItem) => item.id != id);
  }

  /** The initial list: the stored list when there is one and it parses, otherwise empty. */
  function InitialItems(stored: StoredCart): (items: seq<CartItem>)
    ensures stored.StoredItems? ==> items == stored.items
    ensures !stored.StoredItems? ==> items == []
  {
    match stored
    case StoredItems(items) => items
    case _ => []
  }

  class Cart {
    var items: seq<CartItem>
    /** The storage slot, written with the list after every change. */
    var persisted: StoredCart

    constructor (stored: StoredCart)
      ensures items == InitialItems(stored)
      ensures persisted == StoredItems(items)
    {
      items := InitialItems(stored);
      persisted := StoredItems(items);
    }

    /** `totalPrice` */
    function TotalPrice(): (total: int)
      reads this
      ensures (forall i :: 0 <= i < |items| ==> items[i].price >= 0) ==> total >= 0
    {
      Total(items)
    }

    /** `itemCount`: the number of entries, not a sum of quantities (an item has none). */
    function ItemCount(): (n: nat)
      reads this
      ensures n == |items|
    {
      |items|
    }

    /** `addItem`: one new item at the end, stamped with `now`; the earlier items are untouched. */
    method AddItem(item: NewItem, now: nat)
      modifies this
      ensures items == old(items) + [Created(item, now)]
      ensures ItemCount() == old(ItemCount()) + 1
      ensures TotalPrice() == old(TotalPrice()) + item.price
      ensures persisted == StoredItems(items)
    {
      var newItem := CartItem(ItemId(item.vehicleId, item.serviceId, now), item.vehicleId, item.serviceId,
                              item.date, item.time, item.price, now);
      TotalAppend(items, newItem);
      items := items + [newItem];
      persisted := StoredItems(items);
    }

    /** `removeItem` */
    method RemoveItem(id: string)
      modifies this
      ensures items == WithoutId(old(items), id)
      ensures persisted == StoredItems(items)
    {
      items := WithoutId(items, id);
      persisted := StoredItems(items);
    }

    /** `clearCart` */
    method ClearCart()
      modifies this
      ensures items == [] && TotalPrice() == 0 && ItemCount() == 0
      ensures persisted == StoredItems([])
    {
      items := [];
      persisted := StoredItems(items);
    }
  }

  /** Reloading the page: a cart built from what another cart wrote holds the same items. */
  method ReloadCart(cart: Cart) returns (reloaded: Cart)
    requires cart.persisted == StoredItems(cart.items)
    ensures fresh(reloaded)
    ensures reloaded.items == cart.items && reloaded.persisted == cart.persisted
  {
    reloaded := new Cart(cart.persisted);
  }

  // ---------------------------------------------------------------------------
  // Item details

  /** JavaScript's `a % b` for a positive divisor: the remainder takes the sign of `a`. */
  function JsRemainder(a: int, b: int): (r: int)
    requires b > 0
    ensures a >= 0 ==> 0 <= r < b && r == a % b
    ensures a < 0 ==> -b < r <= 0 && r == -((-a) % b)
  {
    if a >= 0 then a % b else -((-a) % b)
  }

  /** `hour % 12 || 12`: a zero remainder shows as 12. */
  function DisplayHour(hour: int): (h: int)
    ensures hour >= 0 ==> 1 <= h <= 12 && h % 12 == hour % 12
  {
    var r := JsRemainder(hour, 12);
    if r == 0 then 12 else r
  }

  /** `${hour12}:${minutes} ${ampm}` with `[hours, minutes] = time.split(':')` and
      `hour = parseInt(hours)`. Missing minutes print as "undefined"; an hour that does not
      parse (`NaN`) is neither at least 12 nor a non-zero remainder, so it shows as 12 AM. */
  function FormatTime(time: string): (r: string)
    ensures |r| >= 3
    ensures r[|r| - 3..] ==
            if ParseInt(FieldBefore(time, ':')).Some? && ParseInt(FieldBefore(time, ':')).value >= 12
            then " PM" else " AM"
  {
    var hours := FieldBefore(time, ':');
    var minutes := match SecondField(time, ':') { case Some(m) => m case None => "undefined" };
    match ParseInt(hours)
    case None => "12:" + minutes + " AM"
    case Some(hour) =>
      var ampm := if hour >= 12 then "PM" else "AM";
      IntToDecimal(DisplayHour(hour)) + ":" + minutes + " " + ampm
  }

  /** On `HH:MM` (any run of digits, then a colon, then text without another colon) the text
      is the hour modulo 12 with 0 shown as 12, the minutes as given, and PM exactly from hour 12. */
  lemma {:induction false} FormatClockTime(hours: string, minutes: string)
    requires hours != [] && AllDigits(hours) && ':' !in minutes
    ensures FormatTime(hours + ":" + minutes) ==
            NatToDecimal(DisplayHour(DecimalValue(hours))) + ":" + minutes +
            (if DecimalValue(hours) >= 12 then " PM" else " AM")
  {
    SplitAtColon(hours, minutes);
  }

  /** A time whose hour does not parse (`NaN`) shows as 12 AM with its minutes. */
  lemma {:induction false} FormatUnparsedHour(hours: string, minutes: string)
    requires ':' !in hours && ':' !in minutes && ParseInt(hours).None?
    ensures FormatTime(hours + ":" + minutes) == "12:" + minutes + " AM"
  {
    SplitAtColon(hours, minutes);
  }

  /** A time without a colon has no minutes field, which prints as "undefined". */
  lemma {:induction false} FormatMissingMinutes(hours: string)
    requires hours != [] && AllDigits(hours)
    ensures FormatTime(hours) ==
            NatToDecimal(DisplayHour(DecimalValue(hours))) + ":undefined" +
            (if DecimalValue(hours) >= 12 then " PM" else " AM")
  {
    assert ':' !in hours by {
      forall i | 0 <= i < |hours|
        ensures hours[i] != ':'
      {
        assert IsDigit(hours[i]);
      }
    }
    assert FieldBefore(hours, ':') == hours;
    assert SecondField(hours, ':') == None;
    assert ParseInt(hours) == Some(DecimalValue(hours));
  }

  /** `time.split(':')` of text with exactly one colon: the text before it and the text after it. */
  lemma {:induction false} SplitAtColon(hours: string, minutes: string)
    requires ':' !in hours && ':' !in minutes
    ensures FieldBefore(hours + ":" + minutes, ':') == hours
    ensures SecondField(hours + ":" + minutes, ':') == Some(minutes)
  {
    var time := hours + ":" + minutes;
    assert time[..|hours|] == hours;
    assert time[|hours|] == ':';
    assert IndexOf(time, ':') == Some(|hours|);
    assert time[|hours| + 1..] == minutes;
  }

  /** The names shown for an item: the catalog names, or fallbacks when the id is unknown
      (or the name empty), and the 12-hour time. */
  datatype ItemDetails = ItemDetails(vehicleName: string, serviceName: string, formattedTime: string)

  /** `vehicle?.name || 'Unknown Vehicle'` */
  function VehicleName(vehicle: Option<Vehicle>): (name: string)
    ensures vehicle.None? ==> name == "Unknown Vehicle"
    ensures vehicle.Some? && vehicle.value.name != "" ==> name == vehicle.value.name
    ensures name != ""
  {
    match vehicle
    case Some(v) => if v.name != "" then v.name else "Unknown Vehicle"
    case None => "Unknown Vehicle"
  }

  /** `service?.name || 'Unknown Service'` */
  function ServiceName(service: Option<Service>): (name: string)
    ensures service.None? ==> name == "Unknown Service"
    ensures service.Some? && service.value.name != "" ==> name == service.value.name
    ensures name != ""
  {
    match service
    case Some(s) => if s.name != "" then s.name else "Unknown Service"
    case None => "Unknown Service"
  }

  /** The name and time part of `getItemDetails`. */
  function GetItemDetails(item: CartItem): (d: ItemDetails)
    ensures d.vehicleName != "" && d.serviceName != ""
    ensures GetVehicleById(item.vehicleId).None? ==> d.vehicleName == "Unknown Vehicle"
    ensures GetServiceById(item.serviceId).None? ==> d.serviceName == "Unknown Service"
    ensures GetVehicleById(item.vehicleId).Some? && GetVehicleById(item.vehicleId).value.name != "" ==>
              d.vehicleName == GetVehicleById(item.vehicleId).value.name
    ensures GetServiceById(item.serviceId).Some? && GetServiceById(item.serviceId).value.name != "" ==>
              d.serviceName == GetServiceById(item.serviceId).value.name
    ensures d.formattedTime == FormatTime(item.time)
  {
    ItemDetails(VehicleName(GetVehicleById(item.vehicleId)), ServiceName(GetServiceById(item.serviceId)),
                FormatTime(item.time))
  }
}
