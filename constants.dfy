/** The fixed strings of the client: endpoints, hosts, defaults and error messages. */
module Constants {

  // Hosts and the API version (src/Taxjar/TaxjarConstants.cs).
  const DefaultApiUrl: string := "https://api.taxjar.com"
  const SandboxApiUrl: string := "https://api.sandbox.taxjar.com"
  const ApiVersion: string := "v2"

  // Endpoints, relative to the versioned base URL.
  const CategoriesEndpoint: string := "categories"
  const RatesEndpoint: string := "rates"
  const TaxesEndpoint: string := "taxes"
  const TransactionOrdersEndpoint: string := "transactions/orders"
  const TransactionRefundsEndpoint: string := "transactions/refunds"
  const CustomersEndpoint: string := "customers"
  const NexusRegionsEndpoint: string := "nexus/regions"
  const AddressesValidateEndpoint: string := "addresses/validate"
  const ValidationEndpoint: string := "validation"
  const SummaryRatesEndpoint: string := "summary_rates"

  const TimeoutInMilliseconds: int := 10000
  const ContentType: string := "application/json"
  const DefaultProvider: string := "api"
  const ProviderParameterName: string := "provider"

  // Headers the client sets itself.
  const AuthorizationHeader: string := "Authorization"
  const AcceptHeader: string := "Accept"
  const UserAgentHeader: string := "User-Agent"
  /** The authentication scheme of the Authorization header (section 2.1 of RFC 6750). */
  const BearerScheme: string := "Bearer"

  // Fixed validation messages (src/Taxjar/Infrastructure/ErrorMessage.cs).
  const MissingTransactionId: string := "Transaction ID cannot be null or an empty string."
  const MissingCustomerId: string := "Customer ID cannot be null or an empty string."
  const MissingCustomerVat: string := "VAT cannot be null or an empty string."

  // Messages written inline in the validator and the facade.
  const MissingZip: string := "Zip is null or empty!"
  const MissingApiKey: string := "Please provide a TaxJar API key."
  const UndecodableErrorPrefix: string :=
    "An error thrown, but it failed to deserialize type TaxjarError. The original message was: "
}
