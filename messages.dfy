/** The exact texts of the validation messages the test cases expect.

    Each `PieceN` lemma is one concatenation of two string literals, a longer one
    followed by a short one; proving them one at a time keeps every step small.
    The text lemmas chain them along the message from left to right. */
module MessageTexts {
  import opened Wrappers
  import opened Text
  import opened Entities
  import opened Validation

  lemma Piece1() ensures "Invalid " + "Customer" == "Invalid Customer" {}
  lemma Piece2() ensures "Invalid Customer" + ". " == "Invalid Customer. " {}
  lemma Piece3() ensures "Invalid Customer. " + "Name" == "Invalid Customer. Name" {}
  lemma Piece4() ensures "Invalid Customer. Name" + " and/or " == "Invalid Customer. Name and/or " {}
  lemma Piece5() ensures "Invalid Customer. Name and/or " + "ExemptionType" == "Invalid Customer. Name and/or ExemptionType" {}
  lemma Piece6() ensures "Invalid Customer. Name and/or ExemptionType" + " cannot be null or empty." == "Invalid Customer. Name and/or ExemptionType cannot be null or empty." {}
  lemma Piece7() ensures "Invalid " + "TaxjarTaxCalculationRequest" == "Invalid TaxjarTaxCalculationRequest" {}
  lemma Piece8() ensures "Invalid TaxjarTaxCalculationRequest" + ". " == "Invalid TaxjarTaxCalculationRequest. " {}
  lemma Piece9() ensures "Invalid TaxjarTaxCalculationRequest. " + "Either Amount or LineItems" == "Invalid TaxjarTaxCalculationRequest. Either Amount or LineItems" {}
  lemma Piece10() ensures "Invalid TaxjarTaxCalculationRequest. Either Amount or LineItems" + " cannot be null or empty." == "Invalid TaxjarTaxCalculationRequest. Either Amount or LineItems cannot be null or empty." {}
  lemma Piece11() ensures "Invalid TaxjarTaxCalculationRequest. " + "ToCountry" == "Invalid TaxjarTaxCalculationRequest. ToCountry" {}
  lemma Piece12() ensures "Invalid TaxjarTaxCalculationRequest. ToCountry" + ", " == "Invalid TaxjarTaxCalculationRequest. ToCountry, " {}
  lemma Piece13() ensures "Invalid TaxjarTaxCalculationRequest. ToCountry, " + "ToZip" == "Invalid TaxjarTaxCalculationRequest. ToCountry, ToZip" {}
  lemma Piece14() ensures "Invalid TaxjarTaxCalculationRequest. ToCountry, ToZip" + ", " == "Invalid TaxjarTaxCalculationRequest. ToCountry, ToZip, " {}
  lemma Piece15() ensures "Invalid TaxjarTaxCalculationRequest. ToCountry, ToZip, " + "ToState" == "Invalid TaxjarTaxCalculationRequest. ToCountry, ToZip, ToState" {}
  lemma Piece16() ensures "Invalid TaxjarTaxCalculationRequest. ToCountry, ToZip, ToState" + ", and " == "Invalid TaxjarTaxCalculationRequest. ToCountry, ToZip, ToState, and " {}
  lemma Piece17() ensures "Invalid TaxjarTaxCalculationRequest. ToCountry, ToZip, ToState, and " + "Shipping" == "Invalid TaxjarTaxCalculationRequest. ToCountry, ToZip, ToState, and Shipping" {}
  lemma Piece18() ensures "Invalid TaxjarTaxCalculationRequest. ToCountry, ToZip, ToState, and Shipping" + " cannot be null or empty." == "Invalid TaxjarTaxCalculationRequest. ToCountry, ToZip, ToState, and Shipping cannot be null or empty." {}
  lemma Piece19() ensures "Invalid " + "TaxjarOrderRequest" == "Invalid TaxjarOrderRequest" {}
  lemma Piece20() ensures "Invalid TaxjarOrderRequest" + ". " == "Invalid TaxjarOrderRequest. " {}
  lemma Piece21() ensures "Invalid TaxjarOrderRequest. " + "TransactionId" == "Invalid TaxjarOrderRequest. TransactionId" {}
  lemma Piece22() ensures "Invalid TaxjarOrderRequest. TransactionId" + " cannot be null or empty." == "Invalid TaxjarOrderRequest. TransactionId cannot be null or empty." {}
  lemma Piece23() ensures "Invalid TaxjarOrderRequest. TransactionId" + ", " == "Invalid TaxjarOrderRequest. TransactionId, " {}
  lemma Piece24() ensures "Invalid TaxjarOrderRequest. TransactionId, " + "TransactionDate" == "Invalid TaxjarOrderRequest. TransactionId, TransactionDate" {}
  lemma Piece25() ensures "Invalid TaxjarOrderRequest. TransactionId, TransactionDate" + ", " == "Invalid TaxjarOrderRequest. TransactionId, TransactionDate, " {}
  lemma Piece26() ensures "Invalid TaxjarOrderRequest. TransactionId, TransactionDate, " + "ToCountry" == "Invalid TaxjarOrderRequest. TransactionId, TransactionDate, ToCountry" {}
  lemma Piece27() ensures "Invalid TaxjarOrderRequest. TransactionId, TransactionDate, ToCountry" + ", " == "Invalid TaxjarOrderRequest. TransactionId, TransactionDate, ToCountry, " {}
  lemma Piece28() ensures "Invalid TaxjarOrderRequest. TransactionId, TransactionDate, ToCountry, " + "ToZip" == "Invalid TaxjarOrderRequest. TransactionId, TransactionDate, ToCountry, ToZip" {}
  lemma Piece29() ensures "Invalid TaxjarOrderRequest. TransactionId, TransactionDate, ToCountry, ToZip" + ", " == "Invalid TaxjarOrderRequest. TransactionId, TransactionDate, ToCountry, ToZip, " {}
  lemma Piece30() ensures "Invalid TaxjarOrderRequest. TransactionId, TransactionDate, ToCountry, ToZip, " + "ToState" == "Invalid TaxjarOrderRequest. TransactionId, TransactionDate, ToCountry, ToZip, ToState" {}
  lemma Piece31() ensures "Invalid TaxjarOrderRequest. TransactionId, TransactionDate, ToCountry, ToZip, ToState" + ", " == "Invalid TaxjarOrderRequest. TransactionId, TransactionDate, ToCountry, ToZip, ToState, " {}
  lemma Piece32() ensures "Invalid TaxjarOrderRequest. TransactionId, TransactionDate, ToCountry, ToZip, ToState, " + "Amount" == "Invalid TaxjarOrderRequest. TransactionId, TransactionDate, ToCountry, ToZip, ToState, Amount" {}
  lemma Piece33() ensures "Invalid TaxjarOrderRequest. TransactionId, TransactionDate, ToCountry, ToZip, ToState, Amount" + ", " == "Invalid TaxjarOrderRequest. TransactionId, TransactionDate, ToCountry, ToZip, ToState, Amount, " {}
  lemma Piece34() ensures "Invalid TaxjarOrderRequest. TransactionId, TransactionDate, ToCountry, ToZip, ToState, Amount, " + "Shipping" == "Invalid TaxjarOrderRequest. TransactionId, TransactionDate, ToCountry, ToZip, ToState, Amount, Shipping" {}
  lemma Piece35() ensures "Invalid TaxjarOrderRequest. TransactionId, TransactionDate, ToCountry, ToZip, ToState, Amount, Shipping" + ", and " == "Invalid TaxjarOrderRequest. TransactionId, TransactionDate, ToCountry, ToZip, ToState, Amount, Shipping, and " {}
  lemma Piece36() ensures "Invalid TaxjarOrderRequest. TransactionId, TransactionDate, ToCountry, ToZip, ToState, Amount, Shipping, and " + "SalesTax" == "Invalid TaxjarOrderRequest. TransactionId, TransactionDate, ToCountry, ToZip, ToState, Amount, Shipping, and SalesTax" {}
  lemma Piece37() ensures "Invalid TaxjarOrderRequest. TransactionId, TransactionDate, ToCountry, ToZip, ToState, Amount, Shipping, and SalesTax" + " cannot be null or empty." == "Invalid TaxjarOrderRequest. TransactionId, TransactionDate, ToCountry, ToZip, ToState, Amount, Shipping, and SalesTax cannot be null or empty." {}
  lemma Piece38() ensures "Invalid " + "TaxjarRefundRequest" == "Invalid TaxjarRefundRequest" {}
  lemma Piece39() ensures "Invalid TaxjarRefundRequest" + ". " == "Invalid TaxjarRefundRequest. " {}
  lemma Piece40() ensures "Invalid TaxjarRefundRequest. " + "TransactionId" == "Invalid TaxjarRefundRequest. TransactionId" {}
  lemma Piece41() ensures "Invalid TaxjarRefundRequest. TransactionId" + ", " == "Invalid TaxjarRefundRequest. TransactionId, " {}
  lemma Piece42() ensures "Invalid TaxjarRefundRequest. TransactionId, " + "TransactionReferenceId" == "Invalid TaxjarRefundRequest. TransactionId, TransactionReferenceId" {}
  lemma Piece43() ensures "Invalid TaxjarRefundRequest. TransactionId, TransactionReferenceId" + ", " == "Invalid TaxjarRefundRequest. TransactionId, TransactionReferenceId, " {}
  lemma Piece44() ensures "Invalid TaxjarRefundRequest. TransactionId, TransactionReferenceId, " + "ToCountry" == "Invalid TaxjarRefundRequest. TransactionId, TransactionReferenceId, ToCountry" {}
  lemma Piece45() ensures "Invalid TaxjarRefundRequest. TransactionId, TransactionReferenceId, ToCountry" + ", " == "Invalid TaxjarRefundRequest. TransactionId, TransactionReferenceId, ToCountry, " {}
  lemma Piece46() ensures "Invalid TaxjarRefundRequest. TransactionId, TransactionReferenceId, ToCountry, " + "ToZip" == "Invalid TaxjarRefundRequest. TransactionId, TransactionReferenceId, ToCountry, ToZip" {}
  lemma Piece47() ensures "Invalid TaxjarRefundRequest. TransactionId, TransactionReferenceId, ToCountry, ToZip" + ", and " == "Invalid TaxjarRefundRequest. TransactionId, TransactionReferenceId, ToCountry, ToZip, and " {}
  lemma Piece48() ensures "Invalid TaxjarRefundRequest. TransactionId, TransactionReferenceId, ToCountry, ToZip, and " + "ToState" == "Invalid TaxjarRefundRequest. TransactionId, TransactionReferenceId, ToCountry, ToZip, and ToState" {}
  lemma Piece49() ensures "Invalid TaxjarRefundRequest. TransactionId, TransactionReferenceId, ToCountry, ToZip, and ToState" + " cannot be null or empty." == "Invalid TaxjarRefundRequest. TransactionId, TransactionReferenceId, ToCountry, ToZip, and ToState cannot be null or empty." {}

  // Each list prefix after the type name, one more name at a time.

  lemma TaxCalculationAllPrefix2()
    ensures "Invalid TaxjarTaxCalculationRequest. " + Join(", ", ["ToCountry", "ToZip"]) == "Invalid TaxjarTaxCalculationRequest. ToCountry, ToZip"
  {
    Piece7();
    Piece8();
    Piece11();
    JoinSnoc(", ", ["ToCountry"], "ToZip");
    assert ["ToCountry"] + ["ToZip"] == ["ToCountry", "ToZip"];
    Piece12();
    Piece13();
  }

  lemma TaxCalculationAllPrefix3()
    ensures "Invalid TaxjarTaxCalculationRequest. " + Join(", ", ["ToCountry", "ToZip", "ToState"]) == "Invalid TaxjarTaxCalculationRequest. ToCountry, ToZip, ToState"
  {
    TaxCalculationAllPrefix2();
    JoinSnoc(", ", ["ToCountry", "ToZip"], "ToState");
    assert ["ToCountry", "ToZip"] + ["ToState"] == ["ToCountry", "ToZip", "ToState"];
    Piece14();
    Piece15();
  }

  lemma TaxCalculationAllForm(names: seq<string>)
    requires names == ["ToCountry", "ToZip", "ToState", "Shipping"]
    ensures InvalidMessage("TaxjarTaxCalculationRequest", names) == "Invalid TaxjarTaxCalculationRequest. ToCountry, ToZip, ToState" + ", and " + "Shipping" + CannotBeEmpty
  {
    Piece7();
    Piece8();
    InvalidMessageList("TaxjarTaxCalculationRequest", names);
    TaxCalculationAllPrefix3();
    assert names[..3] == ["ToCountry", "ToZip", "ToState"];
  }

  lemma CreateOrderAllPrefix2()
    ensures "Invalid TaxjarOrderRequest. " + Join(", ", ["TransactionId", "TransactionDate"]) == "Invalid TaxjarOrderRequest. TransactionId, TransactionDate"
  {
    Piece19();
    Piece20();
    Piece21();
    JoinSnoc(", ", ["TransactionId"], "TransactionDate");
    assert ["TransactionId"] + ["TransactionDate"] == ["TransactionId", "TransactionDate"];
    Piece23();
    Piece24();
  }

  lemma CreateOrderAllPrefix3()
    ensures "Invalid TaxjarOrderRequest. " + Join(", ", ["TransactionId", "TransactionDate", "ToCountry"]) == "Invalid TaxjarOrderRequest. TransactionId, TransactionDate, ToCountry"
  {
    CreateOrderAllPrefix2();
    JoinSnoc(", ", ["TransactionId", "TransactionDate"], "ToCountry");
    assert ["TransactionId", "TransactionDate"] + ["ToCountry"] == ["TransactionId", "TransactionDate", "ToCountry"];
    Piece25();
    Piece26();
  }

  lemma CreateOrderAllPrefix4()
    ensures "Invalid TaxjarOrderRequest. " + Join(", ", ["TransactionId", "TransactionDate", "ToCountry", "ToZip"]) == "Invalid TaxjarOrderRequest. TransactionId, TransactionDate, ToCountry, ToZip"
  {
    CreateOrderAllPrefix3();
    JoinSnoc(", ", ["TransactionId", "TransactionDate", "ToCountry"], "ToZip");
    assert ["TransactionId", "TransactionDate", "ToCountry"] + ["ToZip"] == ["TransactionId", "TransactionDate", "ToCountry", "ToZip"];
    Piece27();
    Piece28();
  }

  lemma CreateOrderAllPrefix5()
    ensures "Invalid TaxjarOrderRequest. " + Join(", ", ["TransactionId", "TransactionDate", "ToCountry", "ToZip", "ToState"]) == "Invalid TaxjarOrderRequest. TransactionId, TransactionDate, ToCountry, ToZip, ToState"
  {
    CreateOrderAllPrefix4();
    JoinSnoc(", ", ["TransactionId", "TransactionDate", "ToCountry", "ToZip"], "ToState");
    assert ["TransactionId", "TransactionDate", "ToCountry", "ToZip"] + ["ToState"] == ["TransactionId", "TransactionDate", "ToCountry", "ToZip", "ToState"];
    Piece29();
    Piece30();
  }

  lemma CreateOrderAllPrefix6()
    ensures "Invalid TaxjarOrderRequest. " + Join(", ", ["TransactionId", "TransactionDate", "ToCountry", "ToZip", "ToState", "Amount"]) == "Invalid TaxjarOrderRequest. TransactionId, TransactionDate, ToCountry, ToZip, ToState, Amount"
  {
    CreateOrderAllPrefix5();
    JoinSnoc(", ", ["TransactionId", "TransactionDate", "ToCountry", "ToZip", "ToState"], "Amount");
    assert ["TransactionId", "TransactionDate", "ToCountry", "ToZip", "ToState"] + ["Amount"] == ["TransactionId", "TransactionDate", "ToCountry", "ToZip", "ToState", "Amount"];
    Piece31();
    Piece32();
  }

  lemma CreateOrderAllPrefix7()
    ensures "Invalid TaxjarOrderRequest. " + Join(", ", ["TransactionId", "TransactionDate", "ToCountry", "ToZip", "ToState", "Amount", "Shipping"]) == "Invalid TaxjarOrderRequest. TransactionId, TransactionDate, ToCountry, ToZip, ToState, Amount, Shipping"
  {
    CreateOrderAllPrefix6();
    JoinSnoc(", ", ["TransactionId", "TransactionDate", "ToCountry", "ToZip", "ToState", "Amount"], "Shipping");
    assert ["TransactionId", "TransactionDate", "ToCountry", "ToZip", "ToState", "Amount"] + ["Shipping"] == ["TransactionId", "TransactionDate", "ToCountry", "ToZip", "ToState", "Amount", "Shipping"];
    Piece33();
    Piece34();
  }

  lemma CreateOrderAllForm(names: seq<string>)
    requires names == ["TransactionId", "TransactionDate", "ToCountry", "ToZip", "ToState", "Amount", "Shipping", "SalesTax"]
    ensures InvalidMessage("TaxjarOrderRequest", names) == "Invalid TaxjarOrderRequest. TransactionId, TransactionDate, ToCountry, ToZip, ToState, Amount, Shipping" + ", and " + "SalesTax" + CannotBeEmpty
  {
    Piece19();
    Piece20();
    InvalidMessageList("TaxjarOrderRequest", names);
    CreateOrderAllPrefix7();
    assert names[..7] == ["TransactionId", "TransactionDate", "ToCountry", "ToZip", "ToState", "Amount", "Shipping"];
  }

  lemma RefundAllPrefix2()
    ensures "Invalid TaxjarRefundRequest. " + Join(", ", ["TransactionId", "TransactionReferenceId"]) == "Invalid TaxjarRefundRequest. TransactionId, TransactionReferenceId"
  {
    Piece38();
    Piece39();
    Piece40();
    JoinSnoc(", ", ["TransactionId"], "TransactionReferenceId");
    assert ["TransactionId"] + ["TransactionReferenceId"] == ["TransactionId", "TransactionReferenceId"];
    Piece41();
    Piece42();
  }

  lemma RefundAllPrefix3()
    ensures "Invalid TaxjarRefundRequest. " + Join(", ", ["TransactionId", "TransactionReferenceId", "ToCountry"]) == "Invalid TaxjarRefundRequest. TransactionId, TransactionReferenceId, ToCountry"
  {
    RefundAllPrefix2();
    JoinSnoc(", ", ["TransactionId", "TransactionReferenceId"], "ToCountry");
    assert ["TransactionId", "TransactionReferenceId"] + ["ToCountry"] == ["TransactionId", "TransactionReferenceId", "ToCountry"];
    Piece43();
    Piece44();
  }

  lemma RefundAllPrefix4()
    ensures "Invalid TaxjarRefundRequest. " + Join(", ", ["TransactionId", "TransactionReferenceId", "ToCountry", "ToZip"]) == "Invalid TaxjarRefundRequest. TransactionId, TransactionReferenceId, ToCountry, ToZip"
  {
    RefundAllPrefix3();
    JoinSnoc(", ", ["TransactionId", "TransactionReferenceId", "ToCountry"], "ToZip");
    assert ["TransactionId", "TransactionReferenceId", "ToCountry"] + ["ToZip"] == ["TransactionId", "TransactionReferenceId", "ToCountry", "ToZip"];
    Piece45();
    Piece46();
  }

  lemma RefundAllForm(names: seq<string>)
    requires names == ["TransactionId", "TransactionReferenceId", "ToCountry", "ToZip", "ToState"]
    ensures InvalidMessage("TaxjarRefundRequest", names) == "Invalid TaxjarRefundRequest. TransactionId, TransactionReferenceId, ToCountry, ToZip" + ", and " + "ToState" + CannotBeEmpty
  {
    Piece38();
    Piece39();
    InvalidMessageList("TaxjarRefundRequest", names);
    RefundAllPrefix4();
    assert names[..4] == ["TransactionId", "TransactionReferenceId", "ToCountry", "ToZip"];
  }

  /** Both customer fields, joined by "and/or". */
  lemma CustomerBothText()
    ensures InvalidMessage("Customer", ["Name", "ExemptionType"])
         == "Invalid Customer. Name and/or ExemptionType cannot be null or empty."
  {
    Piece1();
    Piece2();
    Piece3();
    Piece4();
    Piece5();
    Piece6();
  }

  /** The amount-or-line-items rule on its own, reported as if it were a field. */
  lemma AmountRuleText()
    ensures InvalidMessage("TaxjarTaxCalculationRequest", [EitherAmountOrLineItems])
         == "Invalid TaxjarTaxCalculationRequest. Either Amount or LineItems cannot be null or empty."
  {
    Piece7();
    Piece8();
    Piece9();
    Piece10();
  }

  /** The four tax-calculation fields, in an Oxford-comma list. */
  lemma TaxCalculationAllText(names: seq<string>)
    requires names == ["ToCountry", "ToZip", "ToState", "Shipping"]
    ensures InvalidMessage("TaxjarTaxCalculationRequest", names)
         == "Invalid TaxjarTaxCalculationRequest. ToCountry, ToZip, ToState, and Shipping cannot be null or empty."
  {
    TaxCalculationAllForm(names);
    Piece16();
    Piece17();
    Piece18();
  }

  /** The one field update-order validation checks. */
  lemma UpdateOrderText()
    ensures InvalidMessage("TaxjarOrderRequest", ["TransactionId"])
         == "Invalid TaxjarOrderRequest. TransactionId cannot be null or empty."
  {
    Piece19();
    Piece20();
    Piece21();
    Piece22();
  }

  /** All eight create-order fields, in the order they are checked. */
  lemma CreateOrderAllText(names: seq<string>)
    requires names == ["TransactionId", "TransactionDate", "ToCountry", "ToZip", "ToState", "Amount", "Shipping", "SalesTax"]
    ensures InvalidMessage("TaxjarOrderRequest", names)
         == "Invalid TaxjarOrderRequest. TransactionId, TransactionDate, ToCountry, ToZip, ToState, Amount, Shipping, and SalesTax cannot be null or empty."
  {
    CreateOrderAllForm(names);
    Piece35();
    Piece36();
    Piece37();
  }

  /** All five refund fields, in the order they are checked. */
  lemma RefundAllText(names: seq<string>)
    requires names == ["TransactionId", "TransactionReferenceId", "ToCountry", "ToZip", "ToState"]
    ensures InvalidMessage("TaxjarRefundRequest", names)
         == "Invalid TaxjarRefundRequest. TransactionId, TransactionReferenceId, ToCountry, ToZip, and ToState cannot be null or empty."
  {
    RefundAllForm(names);
    Piece47();
    Piece48();
    Piece49();
  }

  // The messages of the validators, as the test cases expect them.

  /** A customer with a valid id but neither a name nor an exemption type. */
  lemma CustomerBothMissingMessage(c: TaxjarCustomerRequest)
    requires !Blank(c.customerId) && Blank(c.name) && Blank(c.exemptionType)
    ensures CustomerValidation(c) == Fail(ArgumentError(
      "Invalid Customer. Name and/or ExemptionType cannot be null or empty.", Some("customer")))
  {
    CustomerNamesMissing(c);
    CustomerBothText();
  }

  /** A tax calculation whose only fault is having neither an amount nor a line item. */
  lemma AmountRuleAloneMessage(r: TaxjarTaxCalculationRequest)
    requires !Blank(r.toCountry) && !Blank(r.toZip) && !Blank(r.toState) && r.shipping.Some?
    requires r.amount.None? && (r.lineItems.None? || r.lineItems.value == [])
    ensures TaxCalculationValidation(r) == Fail(ArgumentError(
      "Invalid TaxjarTaxCalculationRequest. Either Amount or LineItems cannot be null or empty.",
      Some("taxjarTaxCalculationRequest")))
  {
    TaxCalculationOnlyAmountMissing(r);
    AmountRuleText();
  }

  /** The default tax-calculation request: the four fields, then the amount-or-line-items sentence. */
  lemma DefaultTaxCalculationMessage()
    ensures TaxCalculationValidation(DefaultTaxCalculationRequest) == Fail(ArgumentError(
      "Invalid TaxjarTaxCalculationRequest. ToCountry, ToZip, ToState, and Shipping cannot be null or empty."
      + " Additionally, either Amount or LineItems is required.",
      Some("taxjarTaxCalculationRequest")))
  {
    TaxCalculationAllMissing(DefaultTaxCalculationRequest);
    TaxCalculationAllText(["ToCountry", "ToZip", "ToState", "Shipping"]);
  }

  /** An order with a blank transaction id, under update validation. */
  lemma UpdateOrderMessage(r: TaxjarOrderRequest)
    requires Blank(r.transactionId)
    ensures UpdateOrderValidation(r) == Fail(ArgumentError(
      "Invalid TaxjarOrderRequest. TransactionId cannot be null or empty.", Some("taxjarCreateOrderRequest")))
  {
    UpdateOrderAccepted(r);
    UpdateOrderText();
  }

  /** The default order request, under create validation. */
  lemma DefaultCreateOrderMessage()
    ensures CreateOrderValidation(DefaultOrderRequest) == Fail(ArgumentError(
      "Invalid TaxjarOrderRequest. TransactionId, TransactionDate, ToCountry, ToZip, ToState, Amount, Shipping, and SalesTax cannot be null or empty.",
      Some("taxjarCreateOrderRequest")))
  {
    CreateOrderAllMissing(DefaultOrderRequest);
    CreateOrderAllText(["TransactionId", "TransactionDate", "ToCountry", "ToZip", "ToState", "Amount", "Shipping", "SalesTax"]);
  }

  /** The default refund request. */
  lemma DefaultRefundMessage()
    ensures RefundValidation(DefaultRefundRequest) == Fail(ArgumentError(
      "Invalid TaxjarRefundRequest. TransactionId, TransactionReferenceId, ToCountry, ToZip, and ToState cannot be null or empty.",
      Some("taxjarRefundRequest")))
  {
    RefundAllMissing(DefaultRefundRequest);
    RefundAllText(["TransactionId", "TransactionReferenceId", "ToCountry", "ToZip", "ToState"]);
  }
}
