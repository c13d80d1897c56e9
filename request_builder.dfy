/** Paths and query strings of the requests
    (src/Taxjar/Infrastructure/TaxjarRequestBuilder.cs).

    `WebUtility.UrlEncode` is a parameter, `urlEncode`, about which nothing is
    assumed unless a lemma says so. */
module RequestBuilder {
  import opened Wrappers
  import opened Text
  import opened Constants
  import opened Entities
  import opened Serialization
  import opened Validation
  import opened JsonConverters

  /** `ResourcePath`: `{basePath}/{path}`. */
  function ResourcePath(basePath: string, path: string): (r: string)
    ensures |r| == |basePath| + 1 + |path|
    ensures r[..|basePath|] == basePath && r[|basePath|] == '/' && r[|basePath| + 1..] == path
  {
    basePath + "/" + path
  }

  /** A path whose parts have no slash splits back into them. */
  lemma ResourcePathSplit(basePath: string, path: string)
    requires '/' !in basePath && '/' !in path
    ensures Split(ResourcePath(basePath, path), '/') == [basePath, path]
  {
    SplitAtFirstSeparator(basePath, path, '/');
    SplitWithoutSeparator(path, '/');
    assert ResourcePath(basePath, path) == basePath + ['/'] + path;
  }

  // ---------------------------------------------------------------------
  // Query strings

  /** A property survives into the query when its name and its value are both non-blank. */
  predicate Kept(p: (string, Option<string>)) {
    !Blank(p.0) && p.1.Some? && !Blank(p.1.value)
  }

  /** The properties that survive, in their order: the `Except(nullOrEmptyValues)` of the source. */
  function KeptPairs(o: JsonObject): (kept: JsonObject)
    ensures |kept| <= |o|
    ensures forall i :: 0 <= i < |kept| ==> Kept(kept[i])
  {
    if |o| == 0 then []
    else (if Kept(o[0]) then [o[0]] else []) + KeptPairs(o[1..])
  }

  /** `{key}={UrlEncode(value)}`. */
  function RenderPair(p: (string, Option<string>), urlEncode: string -> string): string
    requires p.1.Some?
  {
    p.0 + "=" + urlEncode(p.1.value)
  }

  function RenderPairs(kept: JsonObject, urlEncode: string -> string): (rendered: seq<string>)
    requires forall i :: 0 <= i < |kept| ==> kept[i].1.Some?
    ensures |rendered| == |kept|
    ensures forall i :: 0 <= i < |kept| ==> rendered[i] == RenderPair(kept[i], urlEncode)
  {
    if |kept| == 0 then [] else [RenderPair(kept[0], urlEncode)] + RenderPairs(kept[1..], urlEncode)
  }

  /** `TaxJarObjectToQueryParams`: the surviving properties as `key=value`
      joined by `&`. An object without properties gives the empty string,
      as the source's early return does. */
  function QueryParams(o: JsonObject, urlEncode: string -> string): (q: string)
    ensures q == "" <==> KeptPairs(o) == []
    ensures KeptPairs(o) != [] ==>
      var first := RenderPair(KeptPairs(o)[0], urlEncode);
      |q| >= |first| && q[..|first|] == first
  {
    var rendered := RenderPairs(KeptPairs(o), urlEncode);
    if rendered == [] then
      Join("&", rendered)
    else
      JoinStartsWithFirst("&", rendered);
      RenderPairNotBlank(KeptPairs(o)[0], urlEncode);
      Join("&", rendered)
  }

  /** A property survives exactly when it is in the object and both its name and value are non-blank. */
  lemma {:induction false} KeptPairsMembers(o: JsonObject, p: (string, Option<string>))
    ensures p in KeptPairs(o) <==> p in o && Kept(p)
  {
    if |o| > 0 {
      KeptPairsMembers(o[1..], p);
      assert o == [o[0]] + o[1..];
    }
  }

  /** Filtering keeps the order: the survivors of two objects put together are
      the survivors of the first, then those of the second. */
  lemma {:induction false} KeptPairsAppend(a: JsonObject, b: JsonObject)
    ensures KeptPairs(a + b) == KeptPairs(a) + KeptPairs(b)
  {
    if |a| == 0 {
      assert a + b == b;
    } else {
      assert (a + b)[1..] == a[1..] + b;
      KeptPairsAppend(a[1..], b);
    }
  }

  /** Every rendered pair holds an `=`, so none of them is blank. */
  lemma RenderPairNotBlank(p: (string, Option<string>), urlEncode: string -> string)
    requires p.1.Some?
    ensures !Blank(RenderPair(p, urlEncode))
  {
    var r := RenderPair(p, urlEncode);
    assert r[|p.0|] == '=';
  }

  /** The query is empty, and even blank, exactly when no property survives. */
  lemma QueryBlankIff(o: JsonObject, urlEncode: string -> string)
    ensures QueryParams(o, urlEncode) == "" <==> KeptPairs(o) == []
    ensures Blank(QueryParams(o, urlEncode)) <==> KeptPairs(o) == []
  {
    var kept := KeptPairs(o);
    if kept != [] {
      var rendered := RenderPairs(kept, urlEncode);
      var q := QueryParams(o, urlEncode);
      JoinStartsWithFirst("&", rendered);
      RenderPairNotBlank(kept[0], urlEncode);
      var k :| 0 <= k < |rendered[0]| && !IsWhiteSpace(rendered[0][k]);
      assert q[k] == rendered[0][k];
    }
  }

  /** `UrlEncode` never produces an `&`. */
  predicate EncodesAmpersand(urlEncode: string -> string, o: JsonObject) {
    forall i :: 0 <= i < |o| && o[i].1.Some? ==> '&' !in urlEncode(o[i].1.value)
  }

  /** A surviving property renders without `&` when neither its name nor its encoded value has one. */
  lemma RenderedPairsFreeOf(o: JsonObject, urlEncode: string -> string, i: int)
    requires forall i :: 0 <= i < |o| ==> '&' !in o[i].0
    requires EncodesAmpersand(urlEncode, o)
    requires 0 <= i < |KeptPairs(o)|
    ensures '&' !in RenderPair(KeptPairs(o)[i], urlEncode)
  {
    var p := KeptPairs(o)[i];
    KeptPairsMembers(o, p);
    var j :| 0 <= j < |o| && o[j] == p;
    assert '&' !in o[j].0 && '&' !in urlEncode(o[j].1.value);
  }

  /** Splitting a non-empty query at `&` gives back the rendered pairs, when
      neither the names nor the encoded values contain `&`. */
  lemma QuerySplit(o: JsonObject, urlEncode: string -> string)
    requires KeptPairs(o) != []
    requires forall i :: 0 <= i < |o| ==> '&' !in o[i].0
    requires EncodesAmpersand(urlEncode, o)
    ensures Split(QueryParams(o, urlEncode), '&') == RenderPairs(KeptPairs(o), urlEncode)
  {
    var kept := KeptPairs(o);
    var rendered := RenderPairs(kept, urlEncode);
    forall i | 0 <= i < |rendered| ensures '&' !in rendered[i] {
      RenderedPairsFreeOf(o, urlEncode, i);
    }
    SplitJoin(rendered, '&');
  }

  // ---------------------------------------------------------------------
  // Paths

  /** `GetRatesForLocationPath`: the zip goes in the path; the other fields,
      with the zip cleared to "", make the query, which follows a `?` only when
      it is not blank. A null zip is formatted as "". */
  function RatesPath(address: Address, urlEncode: string -> string): (r: string)
    ensures var prefix := RatesEndpoint + "/" + address.zip.GetOr("");
      && |r| >= |prefix| && r[..|prefix|] == prefix
      && (r == prefix <==>
            (NullOrBlank(address.country) && NullOrBlank(address.state)
             && NullOrBlank(address.city) && NullOrBlank(address.street)))
  {
    var q := QueryParams(SerializeAddress(address.(zip := Some(""))), urlEncode);
    RatesPathQuery(address, urlEncode);
    RatesEndpoint + "/" + address.zip.GetOr("") + (if Blank(q) then "" else "?" + q)
  }

  /** The zip is never a query parameter of the rates path. */
  lemma RatesQueryHasNoZip(address: Address, p: (string, Option<string>))
    requires p in KeptPairs(SerializeAddress(address.(zip := Some(""))))
    ensures p.0 != "zip"
  {
    var o := SerializeAddress(address.(zip := Some("")));
    KeptPairsMembers(o, p);
    assert Blank("");
  }

  /** The rates path has a query exactly when one of country, state, city and
      street is given and not blank. */
  lemma RatesPathQuery(address: Address, urlEncode: string -> string)
    ensures var q := QueryParams(SerializeAddress(address.(zip := Some(""))), urlEncode);
      Blank(q) <==> NullOrBlank(address.country) && NullOrBlank(address.state)
                    && NullOrBlank(address.city) && NullOrBlank(address.street)
  {
    var o := SerializeAddress(address.(zip := Some("")));
    QueryBlankIff(o, urlEncode);
    KeptPairsMembers(o, o[0]);
    KeptPairsMembers(o, o[2]);
    KeptPairsMembers(o, o[3]);
    KeptPairsMembers(o, o[4]);
    assert !Blank("country") && !Blank("state") && !Blank("city") && !Blank("street") by {
      assert !IsWhiteSpace("country"[0]) && !IsWhiteSpace("state"[0]);
      assert !IsWhiteSpace("city"[0]) && !IsWhiteSpace("street"[0]);
    }
    assert Blank("");
    if KeptPairs(o) != [] {
      var p := KeptPairs(o)[0];
      KeptPairsMembers(o, p);
    }
  }

  /** `GetShowCustomerPath`. */
  function ShowCustomerPath(customerId: string): (r: string)
    ensures r == "customers/" + customerId
  {
    ResourcePath(CustomersEndpoint, customerId)
  }

  /** `GetFilterOrdersPath`: the query always follows a `?`, even when it is empty. */
  function FilterOrdersPath(filter: OrderFilter, urlEncode: string -> string): (r: string)
    ensures |r| > |TransactionOrdersEndpoint| && r[..|TransactionOrdersEndpoint| + 1] == TransactionOrdersEndpoint + "?"
    ensures r == TransactionOrdersEndpoint + "?" <==> KeptPairs(SerializeFilter(filter)) == []
  {
    TransactionOrdersEndpoint + "?" + QueryParams(SerializeFilter(filter), urlEncode)
  }

  /** `GetFilterRefundPath`: as for orders, under the refunds endpoint. */
  function FilterRefundPath(filter: RefundFilter, urlEncode: string -> string): (r: string)
    ensures |r| > |TransactionRefundsEndpoint| && r[..|TransactionRefundsEndpoint| + 1] == TransactionRefundsEndpoint + "?"
    ensures r == TransactionRefundsEndpoint + "?" <==> KeptPairs(SerializeFilter(filter)) == []
  {
    TransactionRefundsEndpoint + "?" + QueryParams(SerializeFilter(filter), urlEncode)
  }

  /** An empty filter leaves a bare trailing `?`. */
  lemma EmptyFilterPaths(urlEncode: string -> string)
    ensures FilterOrdersPath(EmptyFilter, urlEncode) == "transactions/orders?"
    ensures FilterRefundPath(EmptyFilter, urlEncode) == "transactions/refunds?"
  {
    var o := SerializeFilter(EmptyFilter);
    assert o[1..][1..][1..][1..] == [];
    assert KeptPairs(o) == [];
  }

  /** The query of a filter asking for one transaction date is that date in `yyyy/MM/dd`. */
  lemma FilterByDateQuery(d: DateTime, urlEncode: string -> string)
    ensures QueryParams(SerializeFilter(EmptyFilter.(transactionDate := Some(d))), urlEncode)
         == "transaction_date=" + urlEncode(JsonConverters.FormatDate(d))
  {
    var o := SerializeFilter(EmptyFilter.(transactionDate := Some(d)));
    var text := JsonConverters.FormatDate(d);
    assert o[0] == ("transaction_date", Some(text));
    assert !Blank("transaction_date") by {
      assert !IsWhiteSpace("transaction_date"[0]);
    }
    assert IsDigit(text[0]);
    assert !Blank(text) by {
      assert !IsWhiteSpace(text[0]);
    }
    assert o[1..][1..][1..][1..] == [];
    assert KeptPairs(o[1..][1..][1..]) == [];
    assert KeptPairs(o[1..][1..]) == [];
    assert KeptPairs(o[1..]) == [];
    assert KeptPairs(o) == [o[0]];
  }

  /** `GetTransactionIdPathWithProvider`: a blank id fails the transaction-id
      check before any path is built; otherwise `{endpoint}/{id}`, then
      `?provider={provider}` when a non-blank provider is given. The provider is
      not URL-encoded. */
  function TransactionIdPath(endpoint: string, transactionId: string, provider: Option<string>): (r: Result<string, Error>)
    ensures r.Success? <==> !Blank(transactionId)
    ensures r.Failure? ==> r.error == ArgumentError(MissingTransactionId, None)
  {
    match ValidateTransactionId(transactionId)
    case Fail(e) => Failure(e)
    case Pass =>
      var queryString := if !NullOrBlank(provider) then "?" + ProviderParameterName + "=" + provider.value else "";
      Success(endpoint + "/" + transactionId + queryString)
  }

  /** The provider query is there exactly when the provider is not blank, and holds it unchanged. */
  lemma TransactionIdPathProvider(endpoint: string, transactionId: string, provider: Option<string>)
    requires !Blank(transactionId)
    ensures NullOrBlank(provider) ==>
      TransactionIdPath(endpoint, transactionId, provider) == Success(ResourcePath(endpoint, transactionId))
    ensures !NullOrBlank(provider) ==>
      TransactionIdPath(endpoint, transactionId, provider)
        == Success(ResourcePath(endpoint, transactionId) + "?provider=" + provider.value)
  {
    var base := endpoint + "/" + transactionId;
    assert ValidateTransactionId(transactionId) == Pass;
    if !NullOrBlank(provider) {
      var tail := "?" + ProviderParameterName + "=" + provider.value;
      assert tail == "?provider=" + provider.value;
      assert base + tail == base + "?provider=" + provider.value;
      assert TransactionIdPath(endpoint, transactionId, provider) == Success(base + tail);
    } else {
      assert base + "" == base;
    }
  }

  /** Without a `?` in the endpoint or id, the path contains one exactly when a provider is sent. */
  lemma TransactionIdPathQuestionMark(endpoint: string, transactionId: string, provider: Option<string>)
    requires !Blank(transactionId) && '?' !in endpoint && '?' !in transactionId
    ensures '?' in TransactionIdPath(endpoint, transactionId, provider).value <==> !NullOrBlank(provider)
  {
    var base := endpoint + "/" + transactionId;
    assert '?' !in base;
    if !NullOrBlank(provider) {
      var r := TransactionIdPath(endpoint, transactionId, provider).value;
      assert r[|base|] == '?';
    }
  }

  /** `GetShowRefund`. */
  function ShowRefundPath(transactionId: string, provider: Option<string>): (r: Result<string, Error>)
    ensures r == TransactionIdPath(TransactionRefundsEndpoint, transactionId, provider)
    ensures r.Success? <==> !Blank(transactionId)
    ensures r.Failure? ==> r.error == ArgumentError(MissingTransactionId, None)
    ensures provider.None? && !Blank(transactionId) ==> r == Success("transactions/refunds/" + transactionId)
  {
    if !Blank(transactionId) then
      TransactionIdPathProvider(TransactionRefundsEndpoint, transactionId, provider);
      assert TransactionRefundsEndpoint + "/" + transactionId == "transactions/refunds/" + transactionId;
      TransactionIdPath(TransactionRefundsEndpoint, transactionId, provider)
    else
      TransactionIdPath(TransactionRefundsEndpoint, transactionId, provider)
  }

  /** Paths the tests expect. */
  lemma ExamplePaths()
    ensures ShowRefundPath("321", Some("api")) == Success("transactions/refunds/321?provider=api")
    ensures ShowRefundPath("321", None) == Success("transactions/refunds/321")
    ensures ShowRefundPath("  ", Some("api")) == Failure(ArgumentError(MissingTransactionId, None))
    ensures ShowCustomerPath("123") == "customers/123"
  {
    assert !Blank("321") by {
      assert !IsWhiteSpace("321"[0]);
    }
    assert !Blank("api") by {
      assert !IsWhiteSpace("api"[0]);
    }
    assert Blank("  ") by {
      assert IsWhiteSpace("  "[0]) && IsWhiteSpace("  "[1]);
    }
    TransactionIdPathProvider(TransactionRefundsEndpoint, "321", Some("api"));
    TransactionIdPathProvider(TransactionRefundsEndpoint, "321", None);
    assert "transactions/refunds" + "/" + "321" == "transactions/refunds/321";
    assert "transactions/refunds/321" + "?provider=" + "api" == "transactions/refunds/321?provider=api";
    assert "customers" + "/" + "123" == "customers/123";
  }
}
