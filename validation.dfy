/** Client-side validation of requests, before anything is sent
    (src/Taxjar/TaxJarRequestValidation.cs).

    Each validator collects the names of the required fields that are blank or
    missing, in a fixed order, and turns a non-empty list into one error whose
    grammar depends on how many names there are. The functions below say what
    each validator decides; the methods build the list step by step like the
    validators themselves and are proved to decide the same. */
module Validation {
  import opened Wrappers
  import opened Text
  import opened Constants
  import opened Entities

  // ---------------------------------------------------------------------
  // Name lists

  /** The name of one check, listed when the check failed. */
  function Flag(name: string, failed: bool): (names: seq<string>)
    ensures |names| <= 1
  {
    if failed then [name] else []
  }

  /** No name in the list is blank. */
  predicate NoneBlank(names: seq<string>) {
    forall x :: x in names ==> !Blank(x)
  }

  /** What `List.RemoveAll(string.IsNullOrWhiteSpace)` leaves: the non-blank names, in order. */
  function NonBlank(names: seq<string>): (kept: seq<string>)
    ensures |kept| <= |names|
  {
    if |names| == 0 then []
    else
      var last := names[|names| - 1];
      NonBlank(names[..|names| - 1]) + (if Blank(last) then [] else [last])
  }

  /** A name is kept exactly when it is in the list and not blank. */
  lemma {:induction false} NonBlankMembers(names: seq<string>, x: string)
    ensures x in NonBlank(names) <==> x in names && !Blank(x)
  {
    if |names| > 0 {
      var front := names[..|names| - 1];
      NonBlankMembers(front, x);
      assert names == front + [names[|names| - 1]];
    }
  }

  /** A list without blank names is left as it is. */
  lemma {:induction false} NonBlankKeepsNonBlank(names: seq<string>)
    requires NoneBlank(names)
    ensures NonBlank(names) == names
  {
    if |names| > 0 {
      var front := names[..|names| - 1];
      assert names == front + [names[|names| - 1]];
      assert forall x :: x in front ==> x in names;
      NonBlankKeepsNonBlank(front);
    }
  }

  /** Removing blanks distributes over appending. */
  lemma {:induction false} NonBlankAppend(xs: seq<string>, ys: seq<string>)
    ensures NonBlank(xs + ys) == NonBlank(xs) + NonBlank(ys)
  {
    if |ys| > 0 {
      var front := ys[..|ys| - 1];
      NonBlankAppend(xs, front);
      assert (xs + ys)[..|xs + ys| - 1] == xs + front;
    } else {
      assert xs + ys == xs;
    }
  }

  // ---------------------------------------------------------------------
  // The message

  /** The names as `FormatErrorMessage` lists them: one name; two joined by
      "and/or"; or all but the last joined by ", " followed by ", and" and the last. */
  function NameListText(names: seq<string>): string
    requires |names| >= 1
  {
    if |names| == 1 then names[0]
    else if |names| == 2 then names[0] + " and/or " + names[1]
    else Join(", ", names[..|names| - 1]) + ", and " + names[|names| - 1]
  }

  const CannotBeEmpty: string := " cannot be null or empty."

  /** The message of a failed validation of an object of type `typeName`. */
  function InvalidMessage(typeName: string, names: seq<string>): string
    requires |names| >= 1
  {
    "Invalid " + typeName + ". " + NameListText(names) + CannotBeEmpty
  }

  /** A message of three or more names, read from left to right. */
  lemma InvalidMessageList(typeName: string, names: seq<string>)
    requires |names| >= 3
    ensures InvalidMessage(typeName, names)
         == "Invalid " + typeName + ". " + Join(", ", names[..|names| - 1]) + ", and " + names[|names| - 1] + CannotBeEmpty
  {
  }

  /** Every message names its type at the front and ends with the fixed sentence. */
  lemma InvalidMessageFrame(typeName: string, names: seq<string>)
    requires |names| >= 1
    ensures var m := InvalidMessage(typeName, names);
      && |m| >= |"Invalid " + typeName + ". "| + |CannotBeEmpty|
      && m[..|"Invalid " + typeName + ". "|] == "Invalid " + typeName + ". "
      && m[|m| - |CannotBeEmpty|..] == CannotBeEmpty
  {
    var head := "Invalid " + typeName + ". ";
    var m := InvalidMessage(typeName, names);
    assert m == head + (NameListText(names) + CannotBeEmpty);
    assert m == (head + NameListText(names)) + CannotBeEmpty;
  }

  /** Every reported name appears in the list text. */
  lemma NameListTextMentions(names: seq<string>, k: int)
    requires |names| >= 1 && 0 <= k < |names|
    ensures exists j :: OccursAt(NameListText(names), names[k], j)
  {
    var t := NameListText(names);
    var n := |names|;
    if n == 1 {
      assert OccursAt(t, names[k], 0);
    } else if n == 2 {
      if k == 0 {
        OccursAtExtend(names[0], " and/or " + names[1], names[0], 0);
        assert t == names[0] + (" and/or " + names[1]);
      } else {
        assert OccursAt(names[1], names[1], 0);
        OccursAtShift(names[0] + " and/or ", names[1], names[1], 0);
      }
    } else {
      var front := names[..n - 1];
      if k < n - 1 {
        JoinContains(", ", front, k);
        var j :| OccursAt(Join(", ", front), front[k], j);
        OccursAtExtend(Join(", ", front), ", and " + names[n - 1], names[k], j);
        assert t == Join(", ", front) + (", and " + names[n - 1]);
      } else {
        assert OccursAt(names[n - 1], names[n - 1], 0);
        OccursAtShift(Join(", ", front) + ", and ", names[n - 1], names[n - 1], 0);
      }
    }
  }

  /** Every reported name appears in the message. */
  lemma InvalidMessageMentions(typeName: string, names: seq<string>, k: int)
    requires |names| >= 1 && 0 <= k < |names|
    ensures exists j :: OccursAt(InvalidMessage(typeName, names), names[k], j)
  {
    NameListTextMentions(names, k);
    var t := NameListText(names);
    var j :| OccursAt(t, names[k], j);
    var head := "Invalid " + typeName + ". ";
    OccursAtShift(head, t, names[k], j);
    OccursAtExtend(head + t, CannotBeEmpty, names[k], |head| + j);
    assert OccursAt(InvalidMessage(typeName, names), names[k], |head| + j);
  }

  // ---------------------------------------------------------------------
  // The in-place list of invalid names

  /** The `List<string> invalidValues` a validator fills. */
  class NameList {
    var items: seq<string>

    constructor ()
      ensures items == []
    {
      items := [];
    }

    /** Builds the list `[name]`, the collection initializer `new List<string> { name }`. */
    constructor Singleton(name: string)
      ensures items == [name]
    {
      items := [name];
    }

    /** Builds a copy of `names`, the collection expression `[.. names]`. */
    constructor Copy(names: seq<string>)
      ensures items == names
    {
      items := names;
    }

    function Count(): nat
      reads this
    {
      |items|
    }

    method Add(name: string)
      modifies this
      ensures items == old(items) + [name]
    {
      items := items + [name];
    }

    /** `if (missing) Add(name)`. */
    method AddWhen(name: string, missing: bool)
      modifies this
      ensures items == old(items) + Flag(name, missing)
    {
      if missing {
        Add(name);
      }
    }

    /** `RemoveAll(string.IsNullOrWhiteSpace)`. */
    method RemoveAllBlank()
      modifies this
      ensures items == NonBlank(old(items))
    {
      var kept: seq<string> := [];
      var i := 0;
      while i < |items|
        invariant 0 <= i <= |items|
        invariant kept == NonBlank(items[..i])
      {
        if !Blank(items[i]) {
          kept := kept + [items[i]];
        }
        assert items[..i + 1][..i] == items[..i];
        i := i + 1;
      }
      assert items[..|items|] == items;
      items := kept;
    }
  }

  /** Removes the blank names in place, then formats the message for the rest.
      The list must keep at least one name: with none left the source indexes
      past the end of the list. */
  method FormatErrorMessage(typeName: string, invalidValues: NameList) returns (message: string)
    requires NonBlank(invalidValues.items) != []
    modifies invalidValues
    ensures invalidValues.items == NonBlank(old(invalidValues.items))
    ensures message == InvalidMessage(typeName, invalidValues.items)
  {
    invalidValues.RemoveAllBlank();
    var names := invalidValues.items;
    var head := "Invalid " + typeName + ". ";
    if invalidValues.Count() == 1 {
      message := head + names[0] + CannotBeEmpty;
    } else if invalidValues.Count() == 2 {
      message := head + names[0] + " and/or " + names[1] + CannotBeEmpty;
    } else {
      message := head + Join(", ", names[..|names| - 1]) + ", and " + names[|names| - 1] + CannotBeEmpty;
    }
    assert message == head + NameListText(names) + CannotBeEmpty;
  }

  // ---------------------------------------------------------------------
  // Single-value checks

  /** `ValidateCustomerId`. */
  function ValidateCustomerId(customerId: string): (o: Outcome<Error>)
    ensures o.Pass? <==> !Blank(customerId)
    ensures o.Fail? ==> o.error == ArgumentError(MissingCustomerId, None)
  {
    if Blank(customerId) then Fail(ArgumentError(MissingCustomerId, None)) else Pass
  }

  /** `ValidateZip`: the one check that raises an argument-null error. */
  function ValidateZip(zip: Option<string>): (o: Outcome<Error>)
    ensures o.Pass? <==> zip.Some? && !Blank(zip.value)
    ensures o.Fail? ==> o.error == ArgumentNullError("zip", MissingZip)
  {
    if NullOrBlank(zip) then Fail(ArgumentNullError("zip", MissingZip)) else Pass
  }

  /** `ValidateTransactionId`. */
  function ValidateTransactionId(transactionId: string): (o: Outcome<Error>)
    ensures o.Pass? <==> !Blank(transactionId)
    ensures o.Fail? ==> o.error == ArgumentError(MissingTransactionId, None)
  {
    if Blank(transactionId) then Fail(ArgumentError(MissingTransactionId, None)) else Pass
  }

  /** `ValidateVat`. */
  function ValidateVat(vat: string): (o: Outcome<Error>)
    ensures o.Pass? <==> !Blank(vat)
    ensures o.Fail? ==> o.error == ArgumentError(MissingCustomerVat, None)
  {
    if Blank(vat) then Fail(ArgumentError(MissingCustomerVat, None)) else Pass
  }

  // ---------------------------------------------------------------------
  // What each validator decides

  /** The error raised for a non-empty list of names. */
  function Invalid(typeName: string, names: seq<string>, paramName: string): Error
    requires |names| >= 1
  {
    ArgumentError(InvalidMessage(typeName, names), Some(paramName))
  }

  /** What a validator decides from its list of failed names: nothing to report
      for an empty list, and otherwise one argument error naming them all. */
  function Report(typeName: string, names: seq<string>, paramName: string): Outcome<Error> {
    if names == [] then Pass else Fail(Invalid(typeName, names, paramName))
  }

  /** The blank ones of Name and ExemptionType, in that order. */
  function CustomerMissing(c: TaxjarCustomerRequest): seq<string> {
    Flag("Name", Blank(c.name)) + Flag("ExemptionType", Blank(c.exemptionType))
  }

  /** `ValidateCustomer`: the id first, then the blank ones of Name and ExemptionType. */
  function CustomerValidation(c: TaxjarCustomerRequest): Outcome<Error> {
    if Blank(c.customerId) then Fail(ArgumentError(MissingCustomerId, None))
    else Report("Customer", CustomerMissing(c), "customer")
  }

  /** The missing ones of ToCountry, ToZip, ToState and Shipping, in that order. */
  function TaxCalculationMissing(r: TaxjarTaxCalculationRequest): seq<string> {
    Flag("ToCountry", Blank(r.toCountry)) + Flag("ToZip", Blank(r.toZip))
    + Flag("ToState", Blank(r.toState)) + Flag("Shipping", r.shipping.None?)
  }

  /** Amount is present, or there is at least one line item. */
  predicate HasAmountOrLineItems(r: TaxjarTaxCalculationRequest) {
    r.amount.Some? || (r.lineItems.Some? && |r.lineItems.value| > 0)
  }

  const EitherAmountOrLineItems: string := "Either Amount or LineItems"
  const AdditionallyAmountOrLineItems: string := " Additionally, either Amount or LineItems is required."

  /** What the tax-calculation validator decides from its failed names and
      whether an amount or a line item is present. */
  function TaxCalculationDecision(names: seq<string>, hasAmount: bool): Outcome<Error> {
    if names == [] then
      if hasAmount then Pass
      else Fail(Invalid("TaxjarTaxCalculationRequest", [EitherAmountOrLineItems],
                        "taxjarTaxCalculationRequest"))
    else
      var suffix := if hasAmount then "" else AdditionallyAmountOrLineItems;
      Fail(ArgumentError(InvalidMessage("TaxjarTaxCalculationRequest", names) + suffix,
                         Some("taxjarTaxCalculationRequest")))
  }

  /** `ValidateTaxjarTaxCalculationRequest`. */
  function TaxCalculationValidation(r: TaxjarTaxCalculationRequest): Outcome<Error> {
    TaxCalculationDecision(TaxCalculationMissing(r), HasAmountOrLineItems(r))
  }

  /** `ValidateTaxjarOrderRequestTransactionId`: whether the id is valid, and the
      name to report when it is not. */
  function OrderTransactionIdCheck(r: TaxjarOrderRequest): (res: (bool, string))
    ensures res.0 <==> !Blank(r.transactionId)
    ensures res.0 ==> res.1 == ""
    ensures !res.0 ==> res.1 == "TransactionId"
  {
    if Blank(r.transactionId) then (false, "TransactionId") else (true, "")
  }

  /** The missing ones of the eight fields an order needs, in the order checked. */
  function CreateOrderMissing(r: TaxjarOrderRequest): seq<string> {
    Flag("TransactionId", Blank(r.transactionId)) + Flag("TransactionDate", r.transactionDate.None?)
    + Flag("ToCountry", Blank(r.toCountry)) + Flag("ToZip", Blank(r.toZip))
    + Flag("ToState", Blank(r.toState)) + Flag("Amount", r.amount.None?)
    + Flag("Shipping", r.shipping.None?) + Flag("SalesTax", r.salesTax.None?)
  }

  /** `ValidateTaxjarCreateOrderRequest`. */
  function CreateOrderValidation(r: TaxjarOrderRequest): Outcome<Error> {
    Report("TaxjarOrderRequest", CreateOrderMissing(r), "taxjarCreateOrderRequest")
  }

  /** `ValidateTaxjarUpdateOrderRequest`: only the transaction id. */
  function UpdateOrderValidation(r: TaxjarOrderRequest): Outcome<Error> {
    Report("TaxjarOrderRequest", Flag("TransactionId", Blank(r.transactionId)), "taxjarCreateOrderRequest")
  }

  /** The blank ones of the two refund ids. */
  function RefundIdMissing(r: TaxjarRefundRequest): seq<string> {
    Flag("TransactionId", Blank(r.transactionId))
    + Flag("TransactionReferenceId", Blank(r.transactionReferenceId))
  }

  /** `ValidateTaxjarRefundRequestTransactionId`: null when both ids are
      non-blank, and otherwise the blank ones of the two. */
  function RefundIdPairCheck(r: TaxjarRefundRequest): Option<seq<string>> {
    if !Blank(r.transactionId) && !Blank(r.transactionReferenceId) then None
    else Some(RefundIdMissing(r))
  }

  /** The names a refund validation reports: the pair check's, then the blank
      ones of the destination fields. */
  function RefundMissing(r: TaxjarRefundRequest): seq<string> {
    RefundIdPairCheck(r).GetOr([])
    + Flag("ToCountry", Blank(r.toCountry)) + Flag("ToZip", Blank(r.toZip)) + Flag("ToState", Blank(r.toState))
  }

  /** `ValidateTaxjarRefundRequest`. */
  function RefundValidation(r: TaxjarRefundRequest): Outcome<Error> {
    Report("TaxjarRefundRequest", RefundMissing(r), "taxjarRefundRequest")
  }

  // ---------------------------------------------------------------------
  // The validators, as the source writes them

  /** The field names the validators use are not blank, so `RemoveAll` keeps them. */
  lemma FieldNamesNotBlank()
    ensures !Blank("Name") && !Blank("ExemptionType")
    ensures !Blank("ToCountry") && !Blank("ToZip") && !Blank("ToState") && !Blank("Shipping")
    ensures !Blank("TransactionId") && !Blank("TransactionDate") && !Blank("Amount")
    ensures !Blank("SalesTax") && !Blank("TransactionReferenceId") && !Blank(EitherAmountOrLineItems)
  {
    assert !IsWhiteSpace("Name"[0]) && !IsWhiteSpace("ExemptionType"[0]);
    assert !IsWhiteSpace("ToCountry"[0]) && !IsWhiteSpace("ToZip"[0]);
    assert !IsWhiteSpace("ToState"[0]) && !IsWhiteSpace("Shipping"[0]);
    assert !IsWhiteSpace("TransactionId"[0]) && !IsWhiteSpace("TransactionDate"[0]);
    assert !IsWhiteSpace("Amount"[0]) && !IsWhiteSpace("SalesTax"[0]);
    assert !IsWhiteSpace("TransactionReferenceId"[0]) && !IsWhiteSpace(EitherAmountOrLineItems[0]);
  }

  /** The lists the validators build hold only field names, never a blank one. */
  lemma CustomerMissingNotBlank(c: TaxjarCustomerRequest)
    ensures NoneBlank(CustomerMissing(c))
  {
    FieldNamesNotBlank();
  }

  lemma TaxCalculationMissingNotBlank(r: TaxjarTaxCalculationRequest)
    ensures NoneBlank(TaxCalculationMissing(r))
  {
    FieldNamesNotBlank();
  }

  lemma CreateOrderMissingNotBlank(r: TaxjarOrderRequest)
    ensures NoneBlank(CreateOrderMissing(r))
  {
    FieldNamesNotBlank();
    forall x | x in CreateOrderMissing(r) ensures !Blank(x) {
    }
  }

  lemma RefundMissingNotBlank(r: TaxjarRefundRequest)
    ensures NoneBlank(RefundMissing(r))
  {
    FieldNamesNotBlank();
  }

  /** The closing `if (invalidValues.Count > 0) throw new ArgumentException(FormatErrorMessage(...), ...)`
      of a validator whose names are never blank. */
  method ReportNonBlank(typeName: string, invalidValues: NameList, paramName: string)
    returns (outcome: Outcome<Error>)
    requires NoneBlank(invalidValues.items)
    modifies invalidValues
    ensures outcome == Report(typeName, old(invalidValues.items), paramName)
    ensures invalidValues.items == NonBlank(old(invalidValues.items)) == old(invalidValues.items)
  {
    NonBlankKeepsNonBlank(invalidValues.items);
    if invalidValues.Count() > 0 {
      var message := FormatErrorMessage(typeName, invalidValues);
      return Fail(ArgumentError(message, Some(paramName)));
    }
    return Pass;
  }

  // Each `if (<field is missing>) invalidValues.Add(nameof(<field>));` of the
  // source is one `AddWhen` call; the `Collect` methods are the opening blocks
  // of the validators, which build the list.

  /** The opening of `ValidateCustomer`, after the id check. */
  method CollectCustomerMissing(customer: TaxjarCustomerRequest) returns (invalidValues: NameList)
    ensures fresh(invalidValues)
    ensures invalidValues.items == CustomerMissing(customer)
  {
    invalidValues := new NameList();
    invalidValues.AddWhen("Name", Blank(customer.name));
    assert invalidValues.items == Flag("Name", Blank(customer.name));
    invalidValues.AddWhen("ExemptionType", Blank(customer.exemptionType));
  }

  method ValidateCustomer(customer: TaxjarCustomerRequest) returns (outcome: Outcome<Error>)
    ensures outcome == CustomerValidation(customer)
  {
    outcome := ValidateCustomerId(customer.customerId);
    if outcome.Fail? {
      return;
    }
    var invalidValues := CollectCustomerMissing(customer);
    CustomerMissingNotBlank(customer);
    outcome := ReportNonBlank("Customer", invalidValues, "customer");
  }

  /** The opening of `ValidateTaxjarTaxCalculationRequest`: the four presence checks, in order. */
  method CollectTaxCalculationMissing(request: TaxjarTaxCalculationRequest) returns (invalidValues: NameList)
    ensures fresh(invalidValues)
    ensures invalidValues.items == TaxCalculationMissing(request)
  {
    invalidValues := new NameList();
    invalidValues.AddWhen("ToCountry", Blank(request.toCountry));
    assert invalidValues.items == Flag("ToCountry", Blank(request.toCountry));
    invalidValues.AddWhen("ToZip", Blank(request.toZip));
    invalidValues.AddWhen("ToState", Blank(request.toState));
    invalidValues.AddWhen("Shipping", request.shipping.None?);
  }

  /** The blank placeholder the source appends is dropped again by `RemoveAll`. */
  lemma {:induction false} PlaceholderDropped(names: seq<string>)
    requires NoneBlank(names)
    ensures NonBlank(names + [""]) == names
  {
    NonBlankAppend(names, [""]);
    NonBlankKeepsNonBlank(names);
    assert NonBlank([""]) == NonBlank([]) + [];
  }

  /** The closing `if (invalidValues.Count > 0) throw ...(FormatErrorMessage(...) + suffix)`
      of the tax-calculation validator, whose list may end in the blank placeholder. */
  method ReportInvalid(typeName: string, invalidValues: NameList, suffix: string, paramName: string)
    returns (outcome: Outcome<Error>)
    requires invalidValues.items == [] || NonBlank(invalidValues.items) != []
    modifies invalidValues
    ensures old(invalidValues.items) == [] ==> outcome == Pass
    ensures old(invalidValues.items) != [] ==>
      outcome == Fail(ArgumentError(InvalidMessage(typeName, NonBlank(old(invalidValues.items))) + suffix,
                                    Some(paramName)))
    ensures invalidValues.items == NonBlank(old(invalidValues.items))
  {
    if invalidValues.Count() > 0 {
      var message := FormatErrorMessage(typeName, invalidValues);
      return Fail(ArgumentError(message + suffix, Some(paramName)));
    }
    return Pass;
  }

  /** The rest of `ValidateTaxjarTaxCalculationRequest`, once the four checks are done:
      the amount-or-line-items rule, then the report. */
  method DecideTaxCalculation(invalidValues: NameList, hasAmount: bool) returns (outcome: Outcome<Error>)
    requires NoneBlank(invalidValues.items)
    modifies invalidValues
    ensures outcome == TaxCalculationDecision(old(invalidValues.items), hasAmount)
    // The placeholder is added and removed again: the list ends as it began.
    ensures invalidValues.items == old(invalidValues.items)
  {
    ghost var names := invalidValues.items;
    var amountErrorMessage := "";
    if !hasAmount {
      if invalidValues.Count() == 0 {
        var single := new NameList.Singleton(EitherAmountOrLineItems);
        FieldNamesNotBlank();
        NonBlankKeepsNonBlank(single.items);
        var message := FormatErrorMessage("TaxjarTaxCalculationRequest", single);
        return Fail(ArgumentError(message, Some("taxjarTaxCalculationRequest")));
      }
      amountErrorMessage := AdditionallyAmountOrLineItems;
      invalidValues.Add("");
      // The placeholder "" is blank, so the message lists only the real names.
      PlaceholderDropped(names);
    } else {
      NonBlankKeepsNonBlank(names);
    }
    outcome := ReportInvalid("TaxjarTaxCalculationRequest", invalidValues, amountErrorMessage,
                             "taxjarTaxCalculationRequest");
  }

  method ValidateTaxjarTaxCalculationRequest(request: TaxjarTaxCalculationRequest)
    returns (outcome: Outcome<Error>)
    ensures outcome == TaxCalculationValidation(request)
  {
    var invalidValues := CollectTaxCalculationMissing(request);
    TaxCalculationMissingNotBlank(request);
    var hasAmount := request.amount.Some? || (request.lineItems.Some? && |request.lineItems.value| > 0);
    outcome := DecideTaxCalculation(invalidValues, hasAmount);
  }

  /** The opening of `ValidateTaxjarCreateOrderRequest`: the eight presence checks, in order. */
  method CollectCreateOrderMissing(request: TaxjarOrderRequest) returns (invalidValues: NameList)
    ensures fresh(invalidValues)
    ensures invalidValues.items == CreateOrderMissing(request)
  {
    invalidValues := new NameList();
    var transactionIdIsValid := OrderTransactionIdCheck(request);
    invalidValues.AddWhen(transactionIdIsValid.1, !transactionIdIsValid.0);
    assert invalidValues.items == Flag("TransactionId", Blank(request.transactionId));
    invalidValues.AddWhen("TransactionDate", request.transactionDate.None?);
    invalidValues.AddWhen("ToCountry", Blank(request.toCountry));
    invalidValues.AddWhen("ToZip", Blank(request.toZip));
    invalidValues.AddWhen("ToState", Blank(request.toState));
    invalidValues.AddWhen("Amount", request.amount.None?);
    invalidValues.AddWhen("Shipping", request.shipping.None?);
    invalidValues.AddWhen("SalesTax", request.salesTax.None?);
  }

  method ValidateTaxjarCreateOrderRequest(request: TaxjarOrderRequest) returns (outcome: Outcome<Error>)
    ensures outcome == CreateOrderValidation(request)
  {
    var invalidValues := CollectCreateOrderMissing(request);
    CreateOrderMissingNotBlank(request);
    outcome := ReportNonBlank("TaxjarOrderRequest", invalidValues, "taxjarCreateOrderRequest");
  }

  method ValidateTaxjarUpdateOrderRequest(request: TaxjarOrderRequest) returns (outcome: Outcome<Error>)
    ensures outcome == UpdateOrderValidation(request)
  {
    var invalidValues := new NameList();
    var transactionIdIsValid := OrderTransactionIdCheck(request);
    invalidValues.AddWhen(transactionIdIsValid.1, !transactionIdIsValid.0);
    assert invalidValues.items == Flag("TransactionId", Blank(request.transactionId));
    FieldNamesNotBlank();
    outcome := ReportNonBlank("TaxjarOrderRequest", invalidValues, "taxjarCreateOrderRequest");
  }

  method ValidateTaxjarRefundRequestTransactionId(request: TaxjarRefundRequest)
    returns (invalid: Option<seq<string>>)
    ensures invalid == RefundIdPairCheck(request)
  {
    if !Blank(request.transactionId) && !Blank(request.transactionReferenceId) {
      return None;
    }
    var invalidValues := new NameList();
    invalidValues.AddWhen("TransactionId", Blank(request.transactionId));
    assert invalidValues.items == Flag("TransactionId", Blank(request.transactionId));
    invalidValues.AddWhen("TransactionReferenceId", Blank(request.transactionReferenceId));
    return Some(invalidValues.items);
  }

  method ValidateTaxjarRefundRequest(request: TaxjarRefundRequest) returns (outcome: Outcome<Error>)
    ensures outcome == RefundValidation(request)
  {
    var pair := ValidateTaxjarRefundRequestTransactionId(request);
    var invalidValues := new NameList.Copy(pair.GetOr([]));
    invalidValues.AddWhen("ToCountry", Blank(request.toCountry));
    invalidValues.AddWhen("ToZip", Blank(request.toZip));
    invalidValues.AddWhen("ToState", Blank(request.toState));
    RefundMissingNotBlank(request);
    outcome := ReportNonBlank("TaxjarRefundRequest", invalidValues, "taxjarRefundRequest");
  }

  // ---------------------------------------------------------------------
  // Properties of the validators

  /** A customer is accepted exactly when its id, name and exemption type are all non-blank. */
  lemma CustomerAccepted(c: TaxjarCustomerRequest)
    ensures CustomerValidation(c) == Pass <==>
      !Blank(c.customerId) && !Blank(c.name) && !Blank(c.exemptionType)
  {
  }

  /** A blank customer id is reported on its own, whatever the other fields hold. */
  lemma CustomerIdFirst(c: TaxjarCustomerRequest)
    requires Blank(c.customerId)
    ensures CustomerValidation(c) == Fail(ArgumentError("Customer ID cannot be null or an empty string.", None))
  {
  }

  /** With a valid id, exactly the blank ones of Name and ExemptionType are named, in that order. */
  lemma CustomerNamesMissing(c: TaxjarCustomerRequest)
    requires !Blank(c.customerId)
    ensures Blank(c.name) && !Blank(c.exemptionType) ==>
      CustomerValidation(c) == Fail(Invalid("Customer", ["Name"], "customer"))
    ensures !Blank(c.name) && Blank(c.exemptionType) ==>
      CustomerValidation(c) == Fail(Invalid("Customer", ["ExemptionType"], "customer"))
    ensures Blank(c.name) && Blank(c.exemptionType) ==>
      CustomerValidation(c) == Fail(Invalid("Customer", ["Name", "ExemptionType"], "customer"))
  {
  }

  /** A tax calculation is accepted exactly when the destination and shipping are
      given and there is an amount or a line item. */
  lemma TaxCalculationAccepted(r: TaxjarTaxCalculationRequest)
    ensures TaxCalculationValidation(r) == Pass <==>
      && !Blank(r.toCountry) && !Blank(r.toZip) && !Blank(r.toState) && r.shipping.Some?
      && (r.amount.Some? || (r.lineItems.Some? && |r.lineItems.value| > 0))
  {
  }

  /** When only the amount-or-line-items rule fails, that rule alone is reported, as if it were a field. */
  lemma TaxCalculationOnlyAmountMissing(r: TaxjarTaxCalculationRequest)
    requires !Blank(r.toCountry) && !Blank(r.toZip) && !Blank(r.toState) && r.shipping.Some?
    requires r.amount.None? && (r.lineItems.None? || r.lineItems.value == [])
    ensures TaxCalculationValidation(r) == Fail(Invalid("TaxjarTaxCalculationRequest",
      [EitherAmountOrLineItems], "taxjarTaxCalculationRequest"))
  {
  }

  /** When other fields fail too, they are listed and the rule follows as a sentence of its own. */
  lemma TaxCalculationAmountAndOthersMissing(r: TaxjarTaxCalculationRequest)
    requires TaxCalculationMissing(r) != []
    requires !HasAmountOrLineItems(r)
    ensures TaxCalculationValidation(r) == Fail(ArgumentError(
      InvalidMessage("TaxjarTaxCalculationRequest", TaxCalculationMissing(r))
      + AdditionallyAmountOrLineItems,
      Some("taxjarTaxCalculationRequest")))
  {
  }

  /** A request missing everything, as the default request does, reports all four
      fields and then the rule. */
  lemma TaxCalculationAllMissing(r: TaxjarTaxCalculationRequest)
    requires Blank(r.toCountry) && Blank(r.toZip) && Blank(r.toState) && r.shipping.None?
    requires r.amount.None? && r.lineItems.None?
    ensures TaxCalculationValidation(r) == Fail(ArgumentError(
      InvalidMessage("TaxjarTaxCalculationRequest", ["ToCountry", "ToZip", "ToState", "Shipping"])
      + AdditionallyAmountOrLineItems,
      Some("taxjarTaxCalculationRequest")))
  {
    var names := ["ToCountry", "ToZip", "ToState", "Shipping"];
    assert TaxCalculationMissing(r) == [names[0]] + [names[1]] + [names[2]] + [names[3]];
    assert TaxCalculationMissing(r) == names;
  }

  /** An order passes create validation exactly when the eight required fields are given. */
  lemma CreateOrderAccepted(r: TaxjarOrderRequest)
    ensures CreateOrderValidation(r) == Pass <==>
      && !Blank(r.transactionId) && r.transactionDate.Some?
      && !Blank(r.toCountry) && !Blank(r.toZip) && !Blank(r.toState)
      && r.amount.Some? && r.shipping.Some? && r.salesTax.Some?
  {
  }

  /** A field is named in a failed create validation exactly when it is missing. */
  lemma CreateOrderNamesMissing(r: TaxjarOrderRequest, x: string)
    ensures x in CreateOrderMissing(r) <==>
      || (x == "TransactionId" && Blank(r.transactionId))
      || (x == "TransactionDate" && r.transactionDate.None?)
      || (x == "ToCountry" && Blank(r.toCountry))
      || (x == "ToZip" && Blank(r.toZip))
      || (x == "ToState" && Blank(r.toState))
      || (x == "Amount" && r.amount.None?)
      || (x == "Shipping" && r.shipping.None?)
      || (x == "SalesTax" && r.salesTax.None?)
  {
  }

  /** A request missing all eight fields, as the default request does, names them in order. */
  lemma CreateOrderAllMissing(r: TaxjarOrderRequest)
    requires Blank(r.transactionId) && r.transactionDate.None?
    requires Blank(r.toCountry) && Blank(r.toZip) && Blank(r.toState)
    requires r.amount.None? && r.shipping.None? && r.salesTax.None?
    ensures CreateOrderValidation(r) == Fail(Invalid("TaxjarOrderRequest",
      ["TransactionId", "TransactionDate", "ToCountry", "ToZip", "ToState", "Amount", "Shipping", "SalesTax"],
      "taxjarCreateOrderRequest"))
  {
    var names := ["TransactionId", "TransactionDate", "ToCountry", "ToZip", "ToState", "Amount", "Shipping", "SalesTax"];
    assert CreateOrderMissing(r) == [names[0]] + [names[1]] + [names[2]] + [names[3]]
      + [names[4]] + [names[5]] + [names[6]] + [names[7]];
    assert CreateOrderMissing(r) == names;
  }

  /** Update validation rejects exactly a blank transaction id, and then names only that field. */
  lemma UpdateOrderAccepted(r: TaxjarOrderRequest)
    ensures UpdateOrderValidation(r) == Pass <==> !Blank(r.transactionId)
    ensures Blank(r.transactionId) ==>
      UpdateOrderValidation(r) == Fail(Invalid("TaxjarOrderRequest", ["TransactionId"], "taxjarCreateOrderRequest"))
  {
  }

  /** The pair check is null exactly when both ids are non-blank, and otherwise
      lists exactly the blank ones. */
  lemma RefundIdPair(r: TaxjarRefundRequest)
    ensures RefundIdPairCheck(r).None? <==> !Blank(r.transactionId) && !Blank(r.transactionReferenceId)
    ensures RefundIdPairCheck(r).Some? ==>
      && RefundIdPairCheck(r).value != []
      && ("TransactionId" in RefundIdPairCheck(r).value <==> Blank(r.transactionId))
      && ("TransactionReferenceId" in RefundIdPairCheck(r).value <==> Blank(r.transactionReferenceId))
  {
  }

  /** A refund is accepted exactly when both ids and the destination are non-blank. */
  lemma RefundAccepted(r: TaxjarRefundRequest)
    ensures RefundValidation(r) == Pass <==>
      && !Blank(r.transactionId) && !Blank(r.transactionReferenceId)
      && !Blank(r.toCountry) && !Blank(r.toZip) && !Blank(r.toState)
  {
  }

  /** The names of a failed refund validation are the blank ones of all five fields, in order. */
  lemma RefundNamesInOrder(r: TaxjarRefundRequest)
    ensures RefundMissing(r) == RefundIdMissing(r)
      + Flag("ToCountry", Blank(r.toCountry)) + Flag("ToZip", Blank(r.toZip)) + Flag("ToState", Blank(r.toState))
  {
  }

  /** A request missing all five fields, as the default request does, names them in order. */
  lemma RefundAllMissing(r: TaxjarRefundRequest)
    requires Blank(r.transactionId) && Blank(r.transactionReferenceId)
    requires Blank(r.toCountry) && Blank(r.toZip) && Blank(r.toState)
    ensures RefundValidation(r) == Fail(Invalid("TaxjarRefundRequest",
      ["TransactionId", "TransactionReferenceId", "ToCountry", "ToZip", "ToState"], "taxjarRefundRequest"))
  {
    var names := ["TransactionId", "TransactionReferenceId", "ToCountry", "ToZip", "ToState"];
    assert RefundMissing(r) == [names[0]] + [names[1]] + [names[2]] + [names[3]] + [names[4]];
    assert RefundMissing(r) == names;
  }

  /** The default requests are missing all their required fields. */
  lemma DefaultsMissingEverything()
    ensures TaxCalculationValidation(DefaultTaxCalculationRequest).Fail?
    ensures CreateOrderValidation(DefaultOrderRequest).Fail?
    ensures RefundValidation(DefaultRefundRequest).Fail?
    ensures CustomerValidation(DefaultCustomerRequest)
         == Fail(ArgumentError("Customer ID cannot be null or an empty string.", None))
  {
    TaxCalculationAllMissing(DefaultTaxCalculationRequest);
    CreateOrderAllMissing(DefaultOrderRequest);
    RefundAllMissing(DefaultRefundRequest);
  }
}
