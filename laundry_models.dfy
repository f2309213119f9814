/** The laundry request and response records (app/models/laundry.py): the
    order-line quantity constraint, the vendor profile defaults, the partial
    order update and the stored order row. */
module LaundryModels {
  import opened Common

  // ---------------------------------------------------------------------
  // Order lines

  /** `quantity: int = Field(gt=0)` */
  type Quantity = q: int | q > 0 witness 1

  /** `LaundryOrderItemCreate` */
  datatype OrderItemCreate = OrderItemCreate(
    laundryItemId: string,
    quantity: Quantity,
    specialInstructions: Option<string>)

  /** Request-model validation of one requested line: a quantity that is not
      strictly positive is refused with a 422 before any handler runs. */
  function ValidateOrderItem(laundryItemId: string, quantity: int, specialInstructions: Option<string>)
    : (r: Result<OrderItemCreate>)
    ensures r.Success? <==> quantity > 0
    ensures r.Success? ==>
              r.value.laundryItemId == laundryItemId && r.value.quantity == quantity
              && r.value.specialInstructions == specialInstructions
    ensures r.Failure? ==> r.error.Unprocessable?
  {
    if quantity > 0 then Success(OrderItemCreate(laundryItemId, quantity, specialInstructions))
    else Failure(Unprocessable("quantity: Input should be greater than 0"))
  }

  /** `LaundryOrderCreate`; `items` has no minimum length. */
  datatype OrderCreate = OrderCreate(
    laundryVendorId: string,
    pickupAddress: string,
    pickupDate: string,
    pickupTimeSlot: string,
    pickupInstructions: Option<string>,
    deliveryAddress: Option<string>,
    deliveryInstructions: Option<string>,
    items: seq<OrderItemCreate>)

  /** A `laundry_items` catalog row (`LaundryItemResponse`). */
  datatype LaundryItem = LaundryItem(
    id: string,
    laundryVendorId: string,
    name: string,
    category: string,
    pricePerPiece: real,
    isAvailable: bool)

  // ---------------------------------------------------------------------
  // Vendor profiles

  /** `LaundryVendorCreate` after defaults are filled in. */
  datatype VendorCreate = VendorCreate(
    businessName: string,
    description: Option<string>,
    pickupTimeStart: string,
    pickupTimeEnd: string,
    deliveryTimeHours: int,
    minimumOrderAmount: real,
    pickupCharge: real,
    deliveryCharge: real,
    serviceAreas: seq<string>)

  /** The `LaundryVendorCreate` fields a client may leave out. */
  datatype VendorCreateInput = VendorCreateInput(
    businessName: string,
    description: Option<string>,
    pickupTimeStart: Option<string>,
    pickupTimeEnd: Option<string>,
    deliveryTimeHours: Option<int>,
    minimumOrderAmount: Option<real>,
    pickupCharge: Option<real>,
    deliveryCharge: Option<real>,
    serviceAreas: Option<seq<string>>)

  const DEFAULT_PICKUP_START := "08:00"
  const DEFAULT_PICKUP_END := "18:00"
  const DEFAULT_DELIVERY_HOURS := 24
  const DEFAULT_MINIMUM_ORDER := 100.0
  const DEFAULT_PICKUP_CHARGE := 20.0
  const DEFAULT_DELIVERY_CHARGE := 30.0

  /** Request-model construction: each field the client supplied is kept,
      each one it left out takes its declared default. */
  function VendorWithDefaults(input: VendorCreateInput): (v: VendorCreate)
    ensures v.businessName == input.businessName && v.description == input.description
    ensures input.pickupTimeStart.None? ==> v.pickupTimeStart == "08:00"
    ensures input.pickupTimeEnd.None? ==> v.pickupTimeEnd == "18:00"
    ensures input.deliveryTimeHours.None? ==> v.deliveryTimeHours == 24
    ensures input.minimumOrderAmount.None? ==> v.minimumOrderAmount == 100.0
    ensures input.pickupCharge.None? ==> v.pickupCharge == 20.0
    ensures input.deliveryCharge.None? ==> v.deliveryCharge == 30.0
    ensures input.serviceAreas.None? ==> v.serviceAreas == []
    ensures input.pickupTimeStart.Some? ==> v.pickupTimeStart == input.pickupTimeStart.value
    ensures input.pickupTimeEnd.Some? ==> v.pickupTimeEnd == input.pickupTimeEnd.value
    ensures input.deliveryTimeHours.Some? ==> v.deliveryTimeHours == input.deliveryTimeHours.value
    ensures input.minimumOrderAmount.Some? ==> v.minimumOrderAmount == input.minimumOrderAmount.value
    ensures input.pickupCharge.Some? ==> v.pickupCharge == input.pickupCharge.value
    ensures input.deliveryCharge.Some? ==> v.deliveryCharge == input.deliveryCharge.value
    ensures input.serviceAreas.Some? ==> v.serviceAreas == input.serviceAreas.value
  {
    VendorCreate(
      input.businessName,
      input.description,
      input.pickupTimeStart.GetOr(DEFAULT_PICKUP_START),
      input.pickupTimeEnd.GetOr(DEFAULT_PICKUP_END),
      input.deliveryTimeHours.GetOr(DEFAULT_DELIVERY_HOURS),
      input.minimumOrderAmount.GetOr(DEFAULT_MINIMUM_ORDER),
      input.pickupCharge.GetOr(DEFAULT_PICKUP_CHARGE),
      input.deliveryCharge.GetOr(DEFAULT_DELIVERY_CHARGE),
      input.serviceAreas.GetOr([]))
  }

  // ---------------------------------------------------------------------
  // Partial order updates

  /** A field of a partial update as `dict(exclude_unset=True)` sees it:
      not sent at all, or sent (possibly as JSON null). */
  datatype Patch<+T> = Unset | Set(value: Option<T>)

  /** `LaundryOrderUpdate`: every field optional. Dates are kept as their
      ISO text. */
  datatype OrderUpdate = OrderUpdate(
    status: Patch<string>,
    pickupInstructions: Patch<string>,
    deliveryAddress: Patch<string>,
    deliveryInstructions: Patch<string>,
    estimatedDeliveryDate: Patch<string>,
    estimatedDeliveryTime: Patch<string>)

  /** The update that sends nothing is a valid `LaundryOrderUpdate`. */
  const EMPTY_UPDATE := OrderUpdate(Unset, Unset, Unset, Unset, Unset, Unset)

  /** `order_data.dict(exclude_unset=True)`: column name to the value sent,
      for exactly the fields the client sent. */
  function Supplied(u: OrderUpdate): (m: map<string, Option<string>>)
    ensures m.Keys <= UPDATABLE_COLUMNS
    ensures ("status" in m <==> u.status.Set?) && (u.status.Set? ==> m["status"] == u.status.value)
    ensures ("pickup_instructions" in m <==> u.pickupInstructions.Set?)
         && (u.pickupInstructions.Set? ==> m["pickup_instructions"] == u.pickupInstructions.value)
    ensures ("delivery_address" in m <==> u.deliveryAddress.Set?)
         && (u.deliveryAddress.Set? ==> m["delivery_address"] == u.deliveryAddress.value)
    ensures ("delivery_instructions" in m <==> u.deliveryInstructions.Set?)
         && (u.deliveryInstructions.Set? ==> m["delivery_instructions"] == u.deliveryInstructions.value)
    ensures ("estimated_delivery_date" in m <==> u.estimatedDeliveryDate.Set?)
         && (u.estimatedDeliveryDate.Set? ==> m["estimated_delivery_date"] == u.estimatedDeliveryDate.value)
    ensures ("estimated_delivery_time" in m <==> u.estimatedDeliveryTime.Set?)
         && (u.estimatedDeliveryTime.Set? ==> m["estimated_delivery_time"] == u.estimatedDeliveryTime.value)
  {
    var m0: map<string, Option<string>> := map[];
    var m1 := Put(m0, "status", u.status);
    var m2 := Put(m1, "pickup_instructions", u.pickupInstructions);
    var m3 := Put(m2, "delivery_address", u.deliveryAddress);
    var m4 := Put(m3, "delivery_instructions", u.deliveryInstructions);
    var m5 := Put(m4, "estimated_delivery_date", u.estimatedDeliveryDate);
    Put(m5, "estimated_delivery_time", u.estimatedDeliveryTime)
  }

  /** Adds a sent field to the dictionary; an unsent one adds nothing. */
  function Put(m: map<string, Option<string>>, name: string, p: Patch<string>): (r: map<string, Option<string>>)
    ensures r.Keys == if p.Set? then m.Keys + {name} else m.Keys
    ensures p.Set? ==> r[name] == p.value
    ensures forall k :: k in m && k != name ==> r[k] == m[k]
  {
    if p.Set? then m[name := p.value] else m
  }

  const UPDATABLE_COLUMNS: set<string> := {
    "status", "pickup_instructions", "delivery_address", "delivery_instructions",
    "estimated_delivery_date", "estimated_delivery_time" }

  // ---------------------------------------------------------------------
  // Stored orders

  /** A `laundry_orders` row, the shape of `LaundryOrderResponse` without the
      joined item and user details. The five stage timestamps are each
      optional on their own. */
  datatype LaundryOrder = LaundryOrder(
    id: string,
    userId: string,
    laundryVendorId: string,
    orderNumber: string,
    pickupAddress: string,
    pickupDate: string,
    pickupTimeSlot: string,
    pickupInstructions: Option<string>,
    deliveryAddress: Option<string>,
    estimatedDeliveryDate: Option<string>,
    estimatedDeliveryTime: Option<string>,
    deliveryInstructions: Option<string>,
    status: string,
    subtotal: real,
    pickupCharge: real,
    deliveryCharge: real,
    taxAmount: real,
    totalAmount: real,
    paymentStatus: string,
    paymentMethod: Option<string>,
    paymentReference: Option<string>,
    confirmedAt: Option<string>,
    pickedUpAt: Option<string>,
    readyAt: Option<string>,
    deliveredAt: Option<string>,
    cancelledAt: Option<string>,
    createdAt: string)
}
