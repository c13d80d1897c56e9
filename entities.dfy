/** The request records the client sends, the records they are converted from,
    and the errors the client raises. Monetary amounts are opaque: the client
    never computes with them. */
module Entities {
  import opened Wrappers

  /** A `decimal` amount, carried through unchanged. */
  type Decimal = real

  /** A `DateTime`: a Gregorian calendar day between the years 1 and 9999 and
      the time of day in 100-nanosecond ticks. */
  datatype CalendarTime = CalendarTime(year: int, month: int, day: int, ticksOfDay: int) {
    predicate Valid() {
      && 1 <= year <= 9999
      && 1 <= month <= 12
      && 1 <= day <= DaysInMonth(year, month)
      && 0 <= ticksOfDay < TicksPerDay
    }
  }

  const TicksPerDay: int := 864_000_000_000

  predicate IsLeapYear(year: int) {
    year % 4 == 0 && (year % 100 != 0 || year % 400 == 0)
  }

  function DaysInMonth(year: int, month: int): int {
    if month == 2 then (if IsLeapYear(year) then 29 else 28)
    else if month == 4 || month == 6 || month == 9 || month == 11 then 30
    else 31
  }

  type DateTime = d: CalendarTime | d.Valid() witness CalendarTime(1, 1, 1, 0)

  /** `DateTime.MinValue`, the value of a `DateTime` field nobody set. */
  const MinDateTime: DateTime := CalendarTime(1, 1, 1, 0)

  /** A line item of an order or refund (src/Taxjar/Entities/TaxjarLineItem.cs). */
  datatype LineItem = LineItem(
    id: string,
    quantity: int,
    productIdentifier: Option<string>,
    description: Option<string>,
    productTaxCode: Option<string>,
    unitPrice: Option<Decimal>,
    discount: Option<Decimal>,
    salesTax: Option<Decimal>)

  /** A line item of a tax calculation (src/Taxjar/Entities/TaxjarTax.cs). */
  datatype TaxLineItem = TaxLineItem(
    id: string,
    quantity: int,
    productTaxCode: Option<string>,
    unitPrice: Option<Decimal>,
    discount: Option<Decimal>)

  /** A nexus address of a tax calculation. */
  datatype NexusAddress = NexusAddress(
    id: Option<string>, country: Option<string>, zip: Option<string>,
    state: Option<string>, city: Option<string>, street: Option<string>)

  /** A region where a customer is exempt. */
  datatype ExemptRegion = ExemptRegion(country: Option<string>, state: Option<string>)

  /** `TaxjarCustomerRequest`, the body of create and update customer. */
  datatype TaxjarCustomerRequest = TaxjarCustomerRequest(
    customerId: string,
    exemptionType: string,
    exemptRegions: Option<seq<ExemptRegion>>,
    name: string,
    country: Option<string>,
    state: Option<string>,
    zip: Option<string>,
    city: Option<string>,
    street: Option<string>)

  const DefaultCustomerRequest: TaxjarCustomerRequest :=
    TaxjarCustomerRequest("", "non_exempt", None, "", None, None, None, None, None)

  /** `TaxjarOrderRequest`, the body of create and update order. */
  datatype TaxjarOrderRequest = TaxjarOrderRequest(
    transactionId: string,
    transactionDate: Option<DateTime>,
    provider: Option<string>,
    exemptionType: Option<string>,
    fromCountry: string,
    fromZip: string,
    fromState: string,
    fromCity: string,
    fromStreet: string,
    toCountry: string,
    toZip: string,
    toState: string,
    toCity: string,
    toStreet: string,
    amount: Option<Decimal>,
    shipping: Option<Decimal>,
    salesTax: Option<Decimal>,
    customerId: Option<string>,
    lineItems: Option<seq<LineItem>>)

  const DefaultOrderRequest: TaxjarOrderRequest :=
    TaxjarOrderRequest("", None, None, None, "", "", "", "", "", "", "", "", "", "",
                       None, None, None, None, None)

  /** `TaxjarRefundRequest`, the body of create and update refund. */
  datatype TaxjarRefundRequest = TaxjarRefundRequest(
    transactionId: string,
    transactionReferenceId: string,
    transactionDate: DateTime,
    provider: Option<string>,
    exemptionType: Option<string>,
    fromCountry: Option<string>,
    fromZip: Option<string>,
    fromState: Option<string>,
    fromCity: Option<string>,
    fromStreet: Option<string>,
    toCountry: string,
    toZip: string,
    toState: string,
    toCity: string,
    toStreet: string,
    amount: Decimal,
    shipping: Decimal,
    salesTax: Decimal,
    customerId: string,
    lineItems: Option<seq<LineItem>>)

  /** Note that `FromStreet` defaults to the empty string, not to null. */
  const DefaultRefundRequest: TaxjarRefundRequest :=
    TaxjarRefundRequest("", "", MinDateTime, None, None, None, None, None, None, Some(""),
                        "", "", "", "", "", 0.0, 0.0, 0.0, "", None)

  /** `TaxjarTaxCalculationRequest`, the body of a tax calculation. */
  datatype TaxjarTaxCalculationRequest = TaxjarTaxCalculationRequest(
    exemptionType: Option<string>,
    fromCountry: Option<string>,
    fromZip: Option<string>,
    fromState: Option<string>,
    fromCity: Option<string>,
    fromStreet: Option<string>,
    toCountry: string,
    toZip: string,
    toState: string,
    toCity: Option<string>,
    toStreet: Option<string>,
    amount: Option<Decimal>,
    shipping: Option<Decimal>,
    customerId: Option<string>,
    lineItems: Option<seq<TaxLineItem>>,
    nexusAddresses: Option<seq<NexusAddress>>)

  const DefaultTaxCalculationRequest: TaxjarTaxCalculationRequest :=
    TaxjarTaxCalculationRequest(None, None, None, None, None, None, "", "", "", None, None,
                                None, None, None, None, None)

  /** `Address`, used for rate lookup and address validation. */
  datatype Address = Address(
    country: Option<string>,
    zip: Option<string>,
    state: Option<string>,
    city: Option<string>,
    street: Option<string>)

  /** The country defaults to "US". */
  const DefaultAddress: Address := Address(Some("US"), None, None, None, None)

  /** `OrderFilter` and `RefundFilter`: the two records have the same fields. */
  datatype TransactionFilter = TransactionFilter(
    transactionDate: Option<DateTime>,
    fromTransactionDate: Option<DateTime>,
    toTransactionDate: Option<DateTime>,
    provider: Option<string>)

  type OrderFilter = TransactionFilter
  type RefundFilter = TransactionFilter

  const EmptyFilter: TransactionFilter := TransactionFilter(None, None, None, None)

  /** A customer as the service returns it. */
  datatype Customer = Customer(
    customerId: string,
    exemptionType: string,
    exemptRegions: Option<seq<ExemptRegion>>,
    name: string,
    country: Option<string>,
    state: Option<string>,
    zip: Option<string>,
    city: Option<string>,
    street: Option<string>)

  /** An order transaction as the service returns it. */
  datatype Order = Order(
    transactionId: string,
    transactionDate: Option<DateTime>,
    provider: Option<string>,
    exemptionType: Option<string>,
    fromCountry: string,
    fromZip: string,
    fromState: string,
    fromCity: string,
    fromStreet: string,
    toCountry: string,
    toZip: string,
    toState: string,
    toCity: string,
    toStreet: string,
    amount: Option<Decimal>,
    shipping: Option<Decimal>,
    salesTax: Option<Decimal>,
    customerId: Option<string>,
    lineItems: Option<seq<LineItem>>)

  /** A refund transaction (src/Taxjar/Entities/TaxjarRefund.cs). */
  datatype Refund = Refund(
    transactionId: string,
    transactionReferenceId: string,
    transactionDate: DateTime,
    provider: string,
    exemptionType: Option<string>,
    fromCountry: string,
    fromZip: string,
    fromState: string,
    fromCity: string,
    fromStreet: string,
    toCountry: string,
    toZip: string,
    toState: string,
    toCity: string,
    toStreet: string,
    amount: Decimal,
    shipping: Decimal,
    salesTax: Decimal,
    customerId: string,
    lineItems: Option<seq<LineItem>>)

  /** The error body of the service: `{"error": .., "detail": .., "status": ..}`. */
  datatype TaxjarError = TaxjarError(error: string, detail: Option<string>, statusCode: string)

  /** The exceptions the client raises. */
  datatype Error =
      /** `ArgumentException(message, paramName)`: a validation or configuration failure. */
    | ArgumentError(message: string, paramName: Option<string>)
      /** `ArgumentNullException(paramName, message)`. */
    | ArgumentNullError(nullParamName: string, message: string)
      /** `TaxjarException`: the service answered with a failure status. */
    | ApiError(status: int, taxjarError: TaxjarError, message: string)
      /** `JsonException`: a body that could not be decoded. */
    | JsonError(message: string)
      /** `FormatException` from parsing a date. */
    | FormatError(text: string)
      /** `InvalidOperationException` from reading a token as a string. */
    | InvalidTokenError
}
