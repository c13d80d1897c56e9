/** The flat JSON objects the request builder turns into query strings.

    `System.Text.Json` is not modelled. An object is the sequence of its
    properties in declaration order, each under its snake-case JSON name, with
    `None` for a property written as null (the serializer writes nulls). */
module Serialization {
  import opened Wrappers
  import opened Entities
  import opened JsonConverters

  type JsonObject = seq<(string, Option<string>)>

  /** The property names of an object, in order. */
  function Keys(o: JsonObject): (ks: seq<string>)
    ensures |ks| == |o|
    ensures forall i :: 0 <= i < |o| ==> ks[i] == o[i].0
  {
    if |o| == 0 then [] else [o[0].0] + Keys(o[1..])
  }

  /** The value of the first property named `key`; `None` when it is null or missing. */
  function ValueOf(o: JsonObject, key: string): (v: Option<string>)
    ensures v.Some? ==> exists i :: 0 <= i < |o| && o[i] == (key, v)
  {
    if |o| == 0 then None
    else if o[0].0 == key then o[0].1
    else ValueOf(o[1..], key)
  }

  /** An `Address` as it is written: country, zip, state, city, street
      (src/Taxjar/Entities/TaxjarAddressValidation.cs:13-44). */
  function SerializeAddress(a: Address): (o: JsonObject)
    ensures Keys(o) == ["country", "zip", "state", "city", "street"]
  {
    [("country", a.country), ("zip", a.zip), ("state", a.state), ("city", a.city), ("street", a.street)]
  }

  /** Reads an address back from its properties. */
  function AddressOf(o: JsonObject): Address {
    Address(ValueOf(o, "country"), ValueOf(o, "zip"), ValueOf(o, "state"), ValueOf(o, "city"), ValueOf(o, "street"))
  }

  /** Every field of an address is written under its own name, so it can be read back. */
  lemma AddressRoundTrip(a: Address)
    ensures AddressOf(SerializeAddress(a)) == a
  {
    var o := SerializeAddress(a);
    var t1, t2, t3, t4 := o[1..], o[2..], o[3..], o[4..];
    assert t1[1..] == t2 && t2[1..] == t3 && t3[1..] == t4;
    assert ValueOf(t4, "street") == a.street;
    assert ValueOf(t3, "street") == a.street && ValueOf(t3, "city") == a.city;
    assert ValueOf(t2, "street") == a.street && ValueOf(t2, "city") == a.city && ValueOf(t2, "state") == a.state;
    assert ValueOf(t1, "street") == a.street && ValueOf(t1, "city") == a.city && ValueOf(t1, "state") == a.state;
    assert ValueOf(t1, "zip") == a.zip;
    assert ValueOf(o, "street") == a.street && ValueOf(o, "city") == a.city && ValueOf(o, "state") == a.state;
    assert ValueOf(o, "zip") == a.zip && ValueOf(o, "country") == a.country;
  }

  /** The JSON value of a date under the date filter converter: its `yyyy/MM/dd`
      text, or null. */
  function DateValue(d: Option<DateTime>): (v: Option<string>)
    ensures v.None? <==> d.None?
    ensures d.Some? ==> v == Some(FormatDate(d.value))
  {
    match GetString(WriteDateFilter(d))
    case Success(s) => s
    case Failure(_) => None
  }

  /** An order or refund filter as it is written: the three dates through the
      date filter converter, then the provider (src/Taxjar/Entities/TaxjarOrder.cs:149-177). */
  function SerializeFilter(f: TransactionFilter): (o: JsonObject)
    ensures Keys(o) == ["transaction_date", "from_transaction_date", "to_transaction_date", "provider"]
  {
    [("transaction_date", DateValue(f.transactionDate)),
     ("from_transaction_date", DateValue(f.fromTransactionDate)),
     ("to_transaction_date", DateValue(f.toTransactionDate)),
     ("provider", f.provider)]
  }

  /** The query values of a filter: the date texts and the provider as given. */
  lemma FilterValues(f: TransactionFilter)
    ensures ValueOf(SerializeFilter(f), "transaction_date") == DateValue(f.transactionDate)
    ensures ValueOf(SerializeFilter(f), "from_transaction_date") == DateValue(f.fromTransactionDate)
    ensures ValueOf(SerializeFilter(f), "to_transaction_date") == DateValue(f.toTransactionDate)
    ensures ValueOf(SerializeFilter(f), "provider") == f.provider
  {
    var o := SerializeFilter(f);
    var t1, t2, t3 := o[1..], o[2..], o[3..];
    assert t1[1..] == t2 && t2[1..] == t3;
    assert ValueOf(t3, "provider") == f.provider;
    assert ValueOf(t2, "provider") == f.provider;
    assert ValueOf(t2, "to_transaction_date") == DateValue(f.toTransactionDate);
    assert ValueOf(t1, "provider") == f.provider;
    assert ValueOf(t1, "to_transaction_date") == DateValue(f.toTransactionDate);
    assert ValueOf(t1, "from_transaction_date") == DateValue(f.fromTransactionDate);
  }
}
