/** Pricing of a new laundry order (app/routers/laundry.py,
    `create_laundry_order`): each requested line is priced at the catalog's
    current price per piece, the subtotal accumulates the line totals, and
    an 18% tax is charged on the subtotal plus the vendor's pickup and
    delivery charges. Amounts are exact decimals: nothing is rounded. */
module LaundryPricing {
  import opened Common
  import opened LaundryModels

  /** One `items_data` entry: the unit price is frozen at pricing time. */
  datatype PricedLine = PricedLine(
    laundryItemId: string,
    quantity: Quantity,
    unitPrice: real,
    totalPrice: real,
    specialInstructions: Option<string>)

  datatype Priced = Priced(lines: seq<PricedLine>, subtotal: real)

  /** The sum of the line totals, in line order. */
  function LineTotals(lines: seq<PricedLine>): real {
    if lines == [] then 0.0
    else LineTotals(lines[..|lines| - 1]) + lines[|lines| - 1].totalPrice
  }

  /** Every requested item exists in the catalog. */
  predicate Listed(catalog: map<string, LaundryItem>, items: seq<OrderItemCreate>) {
    forall i :: 0 <= i < |items| ==> items[i].laundryItemId in catalog
  }

  /** `k` is the first requested line whose item the catalog lacks. */
  predicate FirstUnlisted(catalog: map<string, LaundryItem>, items: seq<OrderItemCreate>, k: int) {
    && 0 <= k < |items|
    && items[k].laundryItemId !in catalog
    && forall j :: 0 <= j < k ==> items[j].laundryItemId in catalog
  }

  /** `line` prices `item` at the catalog price: `total_price = unit_price * quantity`. */
  predicate PricedAt(catalog: map<string, LaundryItem>, item: OrderItemCreate, line: PricedLine) {
    && item.laundryItemId in catalog
    && var price := catalog[item.laundryItemId].pricePerPiece;
       line == PricedLine(item.laundryItemId, item.quantity, price, price * item.quantity as real,
                          item.specialInstructions)
  }

  /** Reference definition of the subtotal: the sum of price times quantity
      over the requested lines. */
  function ExpectedSubtotal(catalog: map<string, LaundryItem>, items: seq<OrderItemCreate>): real
    requires Listed(catalog, items)
  {
    if items == [] then 0.0
    else
      var last := items[|items| - 1];
      ExpectedSubtotal(catalog, items[..|items| - 1])
      + catalog[last.laundryItemId].pricePerPiece * last.quantity as real
  }

  /** The pricing loop (lines 397-420): looks each requested item up, stops
      with a 400 at the first unknown one, and otherwise returns one priced
      line per requested line, in order, with their running subtotal. */
  method PriceItems(catalog: map<string, LaundryItem>, items: seq<OrderItemCreate>) returns (r: Result<Priced>)
    ensures r.Success? <==> Listed(catalog, items)
    ensures r.Success? ==>
              && |r.value.lines| == |items|
              && (forall i :: 0 <= i < |items| ==> PricedAt(catalog, items[i], r.value.lines[i]))
              && r.value.subtotal == LineTotals(r.value.lines)
    ensures r.Failure? ==>
              exists k :: FirstUnlisted(catalog, items, k)
                       && r.error == BadRequest("Item " + items[k].laundryItemId + " not found")
  {
    var subtotal := 0.0;
    var lines: seq<PricedLine> := [];
    var i := 0;
    while i < |items|
      invariant 0 <= i <= |items|
      invariant Listed(catalog, items[..i])
      invariant |lines| == i
      invariant forall j :: 0 <= j < i ==> PricedAt(catalog, items[j], lines[j])
      invariant subtotal == LineTotals(lines)
    {
      var item := items[i];
      if item.laundryItemId !in catalog {
        assert FirstUnlisted(catalog, items, i) by {
          forall j | 0 <= j < i ensures items[j].laundryItemId in catalog {
            assert items[..i][j] == items[j];
          }
        }
        return Failure(BadRequest("Item " + item.laundryItemId + " not found"));
      }
      var unitPrice := catalog[item.laundryItemId].pricePerPiece;
      var totalPrice := unitPrice * item.quantity as real;
      subtotal := subtotal + totalPrice;
      var line := PricedLine(item.laundryItemId, item.quantity, unitPrice, totalPrice, item.specialInstructions);
      assert (lines + [line])[..i] == lines;
      lines := lines + [line];
      assert items[..i + 1] == items[..i] + [item];
      i := i + 1;
    }
    assert items[..i] == items;
    r := Success(Priced(lines, subtotal));
  }

  /** The accumulated subtotal is the price-times-quantity sum of the
      requested lines. */
  lemma {:induction false} SubtotalIsExpected(catalog: map<string, LaundryItem>, items: seq<OrderItemCreate>,
                                              lines: seq<PricedLine>)
    requires |lines| == |items|
    requires forall i :: 0 <= i < |items| ==> PricedAt(catalog, items[i], lines[i])
    ensures Listed(catalog, items)
    ensures LineTotals(lines) == ExpectedSubtotal(catalog, items)
  {
    if items != [] {
      var n := |items| - 1;
      SubtotalIsExpected(catalog, items[..n], lines[..n]);
      assert PricedAt(catalog, items[n], lines[n]);
    }
  }

  /** With non-negative catalog prices the subtotal is non-negative; an
      empty order prices to 0. */
  lemma {:induction false} SubtotalNonNegative(catalog: map<string, LaundryItem>, items: seq<OrderItemCreate>)
    requires Listed(catalog, items)
    requires forall id :: id in catalog ==> catalog[id].pricePerPiece >= 0.0
    ensures ExpectedSubtotal(catalog, items) >= 0.0
    ensures items == [] ==> ExpectedSubtotal(catalog, items) == 0.0
  {
    if items != [] {
      var n := |items| - 1;
      SubtotalNonNegative(catalog, items[..n]);
      var price := catalog[items[n].laundryItemId].pricePerPiece;
      assert price * items[n].quantity as real >= 0.0;
    }
  }

  // ---------------------------------------------------------------------
  // Charges and tax (lines 431-434)

  /** The 18% GST rate, as `Decimal('0.18')`. */
  const TAX_RATE: real := 0.18

  datatype Charges = Charges(
    subtotal: real,
    pickupCharge: real,
    deliveryCharge: real,
    taxAmount: real,
    totalAmount: real)

  /** Tax on subtotal plus both vendor charges, and the order total. */
  function OrderCharges(subtotal: real, pickupCharge: real, deliveryCharge: real): (c: Charges)
    ensures c.subtotal == subtotal && c.pickupCharge == pickupCharge && c.deliveryCharge == deliveryCharge
    ensures c.totalAmount == c.subtotal + c.pickupCharge + c.deliveryCharge + c.taxAmount
    ensures c.totalAmount == 1.18 * (subtotal + pickupCharge + deliveryCharge)
    ensures 0.0 <= subtotal + pickupCharge + deliveryCharge ==> 0.0 <= c.taxAmount <= c.totalAmount
  {
    var taxAmount := (subtotal + pickupCharge + deliveryCharge) * TAX_RATE;
    Charges(subtotal, pickupCharge, deliveryCharge, taxAmount,
            subtotal + pickupCharge + deliveryCharge + taxAmount)
  }
}
