/** The `ToRequest` conversions of src/Taxjar/Extensions/TaxjarRequestExtensions.cs:
    a customer, order or refund the service returned becomes the request
    record that creates or updates it. */
module RequestExtensions {
  import opened Wrappers
  import opened Text
  import opened Entities
  import opened Validation

  /** `Customer.ToRequest`: all nine fields are copied. */
  function CustomerToRequest(c: Customer): (r: TaxjarCustomerRequest)
    ensures r.customerId == c.customerId && r.exemptionType == c.exemptionType && r.name == c.name
    ensures r.exemptRegions == c.exemptRegions
    ensures r.country == c.country && r.state == c.state && r.zip == c.zip
    ensures r.city == c.city && r.street == c.street
  {
    TaxjarCustomerRequest(c.customerId, c.exemptionType, c.exemptRegions, c.name,
                          c.country, c.state, c.zip, c.city, c.street)
  }

  /** Nothing is lost in the customer conversion: the customer can be read back
      from its request. */
  function CustomerOfRequest(r: TaxjarCustomerRequest): Customer {
    Customer(r.customerId, r.exemptionType, r.exemptRegions, r.name, r.country, r.state, r.zip, r.city, r.street)
  }

  lemma CustomerRoundTrip(c: Customer)
    ensures CustomerOfRequest(CustomerToRequest(c)) == c
  {
  }

  /** The converted customer is accepted by the customer validator exactly when
      its id, name and exemption type are not blank. */
  lemma CustomerRequestAccepted(c: Customer)
    ensures CustomerValidation(CustomerToRequest(c)) == Pass <==>
      !Blank(c.customerId) && !Blank(c.name) && !Blank(c.exemptionType)
  {
    CustomerAccepted(CustomerToRequest(c));
  }

  /** `Order.ToRequest`. The date and the three amounts are unwrapped with
      `!.Value`, which throws on an absent value, so they must be present. Every
      listed field is copied; `ToStreet` is not among them and keeps the request
      default, the empty string. */
  function OrderToRequest(o: Order): (r: TaxjarOrderRequest)
    requires o.transactionDate.Some? && o.amount.Some? && o.shipping.Some? && o.salesTax.Some?
    ensures r.transactionId == o.transactionId && r.transactionDate == o.transactionDate
    ensures r.provider == o.provider && r.exemptionType == o.exemptionType
    ensures r.fromCountry == o.fromCountry && r.fromZip == o.fromZip && r.fromState == o.fromState
    ensures r.fromCity == o.fromCity && r.fromStreet == o.fromStreet
    ensures r.toCountry == o.toCountry && r.toZip == o.toZip && r.toState == o.toState && r.toCity == o.toCity
    ensures r.toStreet == DefaultOrderRequest.toStreet == ""
    ensures r.amount == o.amount && r.shipping == o.shipping && r.salesTax == o.salesTax
    ensures r.customerId == o.customerId && r.lineItems == o.lineItems
  {
    DefaultOrderRequest.(
      transactionId := o.transactionId,
      transactionDate := Some(o.transactionDate.value),
      provider := o.provider,
      exemptionType := o.exemptionType,
      fromCountry := o.fromCountry,
      fromState := o.fromState,
      fromCity := o.fromCity,
      fromZip := o.fromZip,
      fromStreet := o.fromStreet,
      toCountry := o.toCountry,
      toState := o.toState,
      toCity := o.toCity,
      toZip := o.toZip,
      amount := Some(o.amount.value),
      shipping := Some(o.shipping.value),
      salesTax := Some(o.salesTax.value),
      customerId := o.customerId,
      lineItems := o.lineItems)
  }

  /** A converted order passes create-order validation exactly when its
      transaction id and its destination country, zip and state are not blank:
      the conversion itself supplies the date and the amounts. */
  lemma OrderRequestAccepted(o: Order)
    requires o.transactionDate.Some? && o.amount.Some? && o.shipping.Some? && o.salesTax.Some?
    ensures CreateOrderValidation(OrderToRequest(o)) == Pass <==>
      !Blank(o.transactionId) && !Blank(o.toCountry) && !Blank(o.toZip) && !Blank(o.toState)
  {
    CreateOrderAccepted(OrderToRequest(o));
  }

  /** The destination street of an order is lost in the conversion. */
  lemma OrderToRequestDropsStreet()
    ensures var o := Order("1", Some(MinDateTime), None, None, "", "", "", "", "", "US", "10001", "NY", "New York",
                          "1 Main St", Some(1.0), Some(0.0), Some(0.0), None, None);
      OrderToRequest(o).toStreet == "" != o.toStreet
  {
  }

  /** The conversion with `ToStreet` copied as well. */
  function OrderToRequestWithStreet(o: Order): (r: TaxjarOrderRequest)
    requires o.transactionDate.Some? && o.amount.Some? && o.shipping.Some? && o.salesTax.Some?
    ensures r.toStreet == o.toStreet
  {
    OrderToRequest(o).(toStreet := o.toStreet)
  }

  /** The order as it reads from its request. */
  function OrderOfRequest(r: TaxjarOrderRequest): Order {
    Order(r.transactionId, r.transactionDate, r.provider, r.exemptionType,
          r.fromCountry, r.fromZip, r.fromState, r.fromCity, r.fromStreet,
          r.toCountry, r.toZip, r.toState, r.toCity, r.toStreet,
          r.amount, r.shipping, r.salesTax, r.customerId, r.lineItems)
  }

  /** With the street copied, every field of the order survives the conversion. */
  lemma OrderWithStreetRoundTrip(o: Order)
    requires o.transactionDate.Some? && o.amount.Some? && o.shipping.Some? && o.salesTax.Some?
    ensures OrderOfRequest(OrderToRequestWithStreet(o)) == o
  {
  }

  /** Copying the street changes nothing that create-order validation looks at. */
  lemma OrderWithStreetSameValidation(o: Order)
    requires o.transactionDate.Some? && o.amount.Some? && o.shipping.Some? && o.salesTax.Some?
    ensures CreateOrderValidation(OrderToRequestWithStreet(o)) == CreateOrderValidation(OrderToRequest(o))
  {
  }

  /** `Refund.ToRequest`. The refund's non-null provider and origin fields go
      into nullable request fields; `ToStreet` is not copied and keeps the
      request default, the empty string. */
  function RefundToRequest(f: Refund): (r: TaxjarRefundRequest)
    ensures r.transactionId == f.transactionId && r.transactionReferenceId == f.transactionReferenceId
    ensures r.transactionDate == f.transactionDate
    ensures r.provider == Some(f.provider) && r.exemptionType == f.exemptionType
    ensures r.fromCountry == Some(f.fromCountry) && r.fromZip == Some(f.fromZip) && r.fromState == Some(f.fromState)
    ensures r.fromCity == Some(f.fromCity) && r.fromStreet == Some(f.fromStreet)
    ensures r.toCountry == f.toCountry && r.toZip == f.toZip && r.toState == f.toState && r.toCity == f.toCity
    ensures r.toStreet == DefaultRefundRequest.toStreet == ""
    ensures r.amount == f.amount && r.shipping == f.shipping && r.salesTax == f.salesTax
    ensures r.customerId == f.customerId && r.lineItems == f.lineItems
  {
    DefaultRefundRequest.(
      transactionId := f.transactionId,
      transactionReferenceId := f.transactionReferenceId,
      transactionDate := f.transactionDate,
      provider := Some(f.provider),
      exemptionType := f.exemptionType,
      fromCountry := Some(f.fromCountry),
      fromState := Some(f.fromState),
      fromCity := Some(f.fromCity),
      fromZip := Some(f.fromZip),
      fromStreet := Some(f.fromStreet),
      toCountry := f.toCountry,
      toState := f.toState,
      toCity := f.toCity,
      toZip := f.toZip,
      amount := f.amount,
      shipping := f.shipping,
      salesTax := f.salesTax,
      customerId := f.customerId,
      lineItems := f.lineItems)
  }

  /** The destination street of a refund is lost in the conversion as well. */
  lemma RefundToRequestDropsStreet()
    ensures var f := Refund("1", "0", MinDateTime, "api", None, "US", "10001", "NY", "New York", "",
                            "US", "10001", "NY", "New York", "1 Main St", 1.0, 0.0, 0.0, "", None);
      RefundToRequest(f).toStreet == "" != f.toStreet
  {
  }

  /** The refund conversion with `ToStreet` copied as well. */
  function RefundToRequestWithStreet(f: Refund): (r: TaxjarRefundRequest)
    ensures r.toStreet == f.toStreet
  {
    RefundToRequest(f).(toStreet := f.toStreet)
  }

  /** The refund as it reads from its request; a null provider or origin field
      reads as the empty string. */
  function RefundOfRequest(r: TaxjarRefundRequest): Refund {
    Refund(r.transactionId, r.transactionReferenceId, r.transactionDate, r.provider.GetOr(""), r.exemptionType,
           r.fromCountry.GetOr(""), r.fromZip.GetOr(""), r.fromState.GetOr(""), r.fromCity.GetOr(""), r.fromStreet.GetOr(""),
           r.toCountry, r.toZip, r.toState, r.toCity, r.toStreet,
           r.amount, r.shipping, r.salesTax, r.customerId, r.lineItems)
  }

  /** With the street copied, every field of the refund survives the conversion. */
  lemma RefundWithStreetRoundTrip(f: Refund)
    ensures RefundOfRequest(RefundToRequestWithStreet(f)) == f
  {
  }

  /** Copying the street changes nothing that refund validation looks at. */
  lemma RefundWithStreetSameValidation(f: Refund)
    ensures RefundValidation(RefundToRequestWithStreet(f)) == RefundValidation(RefundToRequest(f))
  {
  }

  /** A converted refund passes refund validation exactly when its two ids and
      its destination country, zip and state are not blank. */
  lemma RefundRequestAccepted(f: Refund)
    ensures RefundValidation(RefundToRequest(f)) == Pass <==>
      && !Blank(f.transactionId) && !Blank(f.transactionReferenceId)
      && !Blank(f.toCountry) && !Blank(f.toZip) && !Blank(f.toState)
  {
    RefundAccepted(RefundToRequest(f));
  }
}
