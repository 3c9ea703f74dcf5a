/** The buy/resell checkout dialog of ResellModal.tsx: the margin the reseller types, the price
    the customer pays, the shipping address, and the order request handed to the store. */
module ResellModal {
  import opened Optional
  import opened Types
  import opened Strings
  import App

  const MissingAddressMessage: string := "Please enter your address"

  /** What a click on the order button does: alert that the address is missing, or hand the
      request to the store. */
  datatype OrderOutcome = MissingAddress(alert: string) | Ordered(request: OrderRequest)

  /** The margin the dialog opens with. */
  function InitialMargin(mode: OrderType): (m: int)
    ensures mode == Resell ==> m == 100
    ensures mode == Buy ==> m == 0
  {
    if mode == Resell then 100 else 0
  }

  /** The price rule: the product price plus the margin when reselling, the product price
      alone when buying, whatever the margin is. */
  function FinalPrice(mode: OrderType, price: int, margin: int): (p: int)
    ensures mode == Buy ==> p == price
    ensures mode == Resell ==> p == price + margin
  {
    if mode == Resell then price + margin else price
  }

  /** `handleMarginChange`: `parseInt(value, 10)`, and 0 when that is NaN. No floor. */
  function ParseMargin(input: string): (m: int)
    ensures ParseInt(input).Some? ==> m == ParseInt(input).value
    ensures ParseInt(input).None? ==> m == 0
  {
    match ParseInt(input)
    case Some(v) => v
    case None => 0
  }

  /** Every integer typed as its decimal rendering becomes the margin, negative ones included. */
  lemma MarginRoundTrip(n: int)
    ensures ParseMargin(IntToString(n)) == n
  {
    ParseIntRoundTrip(n);
  }

  /** Digits followed by a fraction or exponent keep only the integer prefix, and input with
      no leading digits gives 0. */
  lemma MarginExamples()
    ensures ParseMargin("") == 0 && ParseMargin("abc") == 0 && ParseMargin("-") == 0
    ensures ParseMargin("25.7") == 25 && ParseMargin("-40") == -40 && ParseMargin("1e3") == 1
  {
    assert ParseInt("") == None;
    assert ParseInt("abc") == None by {
      assert TrimStart("abc") == "abc";
    }
    assert ParseInt("-") == None by {
      assert TrimStart("-") == "-";
    }
    assert IntToString(25) == "25";
    ParseIntPrefix(25, ".7");
    assert "25" + ".7" == "25.7";
    assert IntToString(-40) == "-40";
    ParseIntRoundTrip(-40);
    assert IntToString(1) == "1";
    ParseIntPrefix(1, "e3");
    assert "1" + "e3" == "1e3";
  }

  /** An order request priced by the rule: the margin is present exactly for a resale, and the
      final price follows FinalPrice. */
  predicate WellPriced(request: OrderRequest)
  {
    && (request.margin.Some? <==> request.orderType == Resell)
    && request.finalPrice == FinalPrice(request.orderType, request.product.price,
                                        if request.margin.Some? then request.margin.value else 0)
  }

  /** The object handed to `onPlaceOrder`. */
  function BuildRequest(product: Product, mode: OrderType, margin: int, address: Address): (r: OrderRequest)
    ensures WellPriced(r)
    ensures r.product == product && r.address == address && r.orderType == mode
    ensures mode == Resell ==> r.margin == Some(margin)
  {
    OrderRequest(product, FinalPrice(mode, product.price, margin), address, mode,
                 if mode == Resell then Some(margin) else None)
  }

  /** The order the store records from a well-priced request: a purchase costs the product price
      and carries no margin; a resale costs the product price plus its margin. */
  lemma RecordedOrderPricing(request: OrderRequest, id: int, date: string)
    requires WellPriced(request)
    ensures
      var o := App.MakeOrder(request, id, date);
      && (o.orderType == Buy ==> o.finalPrice == o.product.price && o.margin == None)
      && (o.orderType == Resell ==> o.margin.Some? && o.finalPrice == o.product.price + o.margin.value)
  {
  }

  class Checkout {
    const product: Product
    const mode: OrderType
    var margin: int
    var finalPrice: int
    var shippingAddress: Option<Address>
    var isAddressModalOpen: bool
    /** False once the dialog has asked its parent to close it. */
    var isOpen: bool

    /** The final-price effect has run: the shown price follows the price rule. */
    ghost predicate Valid()
      reads this
    {
      finalPrice == FinalPrice(mode, product.price, margin)
    }

    constructor (product: Product, mode: OrderType)
      ensures Valid()
      ensures this.product == product && this.mode == mode
      ensures margin == InitialMargin(mode) && shippingAddress == None
      ensures !isAddressModalOpen && isOpen
    {
      this.product := product;
      this.mode := mode;
      margin := InitialMargin(mode);
      finalPrice := FinalPrice(mode, product.price, InitialMargin(mode));
      shippingAddress := None;
      isAddressModalOpen := false;
      isOpen := true;
    }

    /** `handleMarginChange`, followed by the final-price effect. */
    method MarginChange(input: string)
      modifies this`margin, this`finalPrice
      ensures Valid()
      ensures margin == ParseMargin(input)
    {
      margin := ParseMargin(input);
      finalPrice := FinalPrice(mode, product.price, margin);
    }

    /** The "Add Address" and "Change Address" buttons. */
    method OpenAddressForm()
      modifies this`isAddressModalOpen
      ensures isAddressModalOpen
    {
      isAddressModalOpen := true;
    }

    /** `handleSaveAddress`: keep the address and close the address form. */
    method SaveAddress(address: Address)
      modifies this`shippingAddress, this`isAddressModalOpen
      ensures shippingAddress == Some(address) && !isAddressModalOpen
    {
      shippingAddress := Some(address);
      isAddressModalOpen := false;
    }

    /** `handlePlaceOrderClick`: without an address the dialog alerts and stays open; with one,
        the request goes to `onPlaceOrder` and the dialog closes. */
    method PlaceOrderClick() returns (outcome: OrderOutcome)
      requires Valid()
      modifies this`isOpen
      ensures shippingAddress.None? ==> outcome == MissingAddress(MissingAddressMessage) && isOpen == old(isOpen)
      ensures shippingAddress.Some? ==>
        && outcome == Ordered(BuildRequest(product, mode, margin, shippingAddress.value))
        && outcome.request.finalPrice == finalPrice
        && !isOpen
    {
      if shippingAddress.None? {
        return MissingAddress(MissingAddressMessage);
      }
      outcome := Ordered(OrderRequest(product, finalPrice, shippingAddress.value, mode,
                                      if mode == Resell then Some(margin) else None));
      isOpen := false;
    }
  }
}
