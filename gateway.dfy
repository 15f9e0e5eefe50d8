/** ExternalProductService: the decision whether to announce a migration to
    the new product, the single POST it makes, and how the answer is
    classified. The network is an input: `transport` is what the POST would
    come back with. RestTemplateConfig's timeout arithmetic is here too. */
module Gateway {
  import opened Model

  /** Spring's HttpStatusCode: the numeric value and, for the codes the
      HttpStatus enum names, that name (NOT_FOUND, ...). */
  datatype HttpStatusCode = HttpStatusCode(value: int, name: Option<string>)

  predicate Is2xxSuccessful(status: HttpStatusCode) {
    200 <= status.value <= 299
  }

  /** How a status prints: "404 NOT_FOUND" for a named status, "499" otherwise. */
  function StatusText(status: HttpStatusCode): (s: string)
    ensures StartsWith(s, DecimalString(status.value))
  {
    match status.name
    case Some(n) => DecimalString(status.value) + " " + n
    case None => DecimalString(status.value)
  }

  /** What the single exchange yields: a response with a status, or a
      RestClientException (connection refused, timeout, ...) with its message. */
  datatype TransportOutcome =
    | Responded(status: HttpStatusCode)
    | TransportError(message: string)

  datatype SkipReason = Disabled | Unconfigured

  /** Skipped and Confirmed are normal returns; Rejected is a thrown
      MigrationException carrying `message`. */
  datatype GatewayResult =
    | Skipped(reason: SkipReason)
    | Confirmed
    | Rejected(message: string)

  /** One outbound POST: destination and JSON body. */
  datatype Post = Post(url: string, body: ClientMigrationRequest)

  /** The decision, together with the POSTs it made, in order. */
  datatype GatewayCall = GatewayCall(result: GatewayResult, sent: seq<Post>)

  const StatusFailurePrefix := "Failed to migrate client to new product. Status: "
  const TransportFailurePrefix := "Failed to migrate client to new product: "

  /** The URL is neither null nor empty. */
  predicate UrlConfigured(properties: MigrationProperties) {
    properties.newProductApiUrl.Some? && properties.newProductApiUrl.value != ""
  }

  /** migrateClientToNewProduct. The flag is consulted first, then the URL;
      only then is exactly one POST made, and its outcome decides. */
  function MigrateClientToNewProduct(
    properties: MigrationProperties, request: ClientMigrationRequest, transport: TransportOutcome)
    : (call: GatewayCall)
    ensures call.sent == [] <==> call.result.Skipped?
    ensures call.result == Skipped(Disabled) <==> !properties.enableExternalMigration
    ensures call.result == Skipped(Unconfigured) <==>
      properties.enableExternalMigration && !UrlConfigured(properties)
    ensures call.sent != [] ==>
      UrlConfigured(properties) && call.sent == [Post(properties.newProductApiUrl.value, request)]
    ensures call.result.Confirmed? <==>
      call.sent != [] && transport.Responded? && Is2xxSuccessful(transport.status)
    ensures call.result.Rejected? && transport.Responded? ==>
      call.result.message == StatusFailurePrefix + StatusText(transport.status)
    ensures call.result.Rejected? && transport.TransportError? ==>
      call.result.message == TransportFailurePrefix + transport.message
  {
    if !properties.enableExternalMigration then
      GatewayCall(Skipped(Disabled), [])
    else if properties.newProductApiUrl.None? || properties.newProductApiUrl.value == "" then
      GatewayCall(Skipped(Unconfigured), [])
    else
      var sent := [Post(properties.newProductApiUrl.value, request)];
      match transport
      case Responded(status) =>
        if Is2xxSuccessful(status) then GatewayCall(Confirmed, sent)
        else GatewayCall(Rejected(StatusFailurePrefix + StatusText(status)), sent)
      case TransportError(message) =>
        GatewayCall(Rejected(TransportFailurePrefix + message), sent)
  }

  /** With the flag off, neither the URL nor the network matters. */
  lemma DisabledIgnoresUrlAndNetwork(
    properties: MigrationProperties, url: Option<string>, request: ClientMigrationRequest,
    t1: TransportOutcome, t2: TransportOutcome)
    requires !properties.enableExternalMigration
    ensures MigrateClientToNewProduct(properties.(newProductApiUrl := url), request, t1)
         == MigrateClientToNewProduct(properties, request, t2)
         == GatewayCall(Skipped(Disabled), [])
  {
  }

  /** Every rejection names its cause: the observed status after "Status: ",
      or the transport error's own message. */
  lemma RejectionCarriesCause(
    properties: MigrationProperties, request: ClientMigrationRequest, transport: TransportOutcome)
    requires MigrateClientToNewProduct(properties, request, transport).result.Rejected?
    ensures var m := MigrateClientToNewProduct(properties, request, transport).result.message;
      match transport
      case Responded(status) =>
        !Is2xxSuccessful(status)
        && StartsWith(m, StatusFailurePrefix)
        && StartsWith(m[|StatusFailurePrefix|..], DecimalString(status.value))
      case TransportError(cause) =>
        StartsWith(m, TransportFailurePrefix) && m[|TransportFailurePrefix|..] == cause
  {
  }

  // RestTemplateConfig: the same timeout, in milliseconds, bounds both the
  // connect and the read phase; it is computed in Java int arithmetic.

  datatype RequestTimeouts = RequestTimeouts(connectTimeoutMs: int, readTimeoutMs: int)

  function Timeouts(properties: MigrationProperties): (t: RequestTimeouts)
    requires IsInt(properties.timeoutSeconds)
    ensures t.connectTimeoutMs == t.readTimeoutMs
    ensures IsInt(t.connectTimeoutMs)
    ensures IsInt(properties.timeoutSeconds * 1000) ==> t.connectTimeoutMs == properties.timeoutSeconds * 1000
  {
    var ms := WrapInt(properties.timeoutSeconds * 1000);
    RequestTimeouts(ms, ms)
  }

  /** The default of 30 seconds gives 30000 ms. */
  lemma DefaultTimeouts()
    ensures Timeouts(DefaultProperties) == RequestTimeouts(30000, 30000)
  {
  }

  /** The multiplication has no guard: from 2147484 seconds on it wraps to a
      negative number of milliseconds. */
  lemma TimeoutWrapsAboveIntRange()
    ensures Timeouts(DefaultProperties.(timeoutSeconds := 2147483)).connectTimeoutMs == 2147483000
    ensures Timeouts(DefaultProperties.(timeoutSeconds := 2147484)).connectTimeoutMs == -2147483296
  {
  }
}
