/**
 * btcpay.py: the gateway helper module — the credential check, headers,
 * invoice creation and lookup requests, the settlement test and the
 * first-method payment URI. The HTTP round trip itself is outside the
 * model: requests are returned as values and a fetched invoice is an input.
 */
module Btcpay {
  import opened PyValues
  import opened Text
  import opened Store
  import opened Invoices
  import opened PaymentUri

  /** The names of the unset (or empty) credentials, API key first. */
  function MissingNames(c: Config): seq<string> {
    (if Truthy(c.apiKey) then [] else ["BTCPAY_API_KEY"])
      + (if Truthy(c.storeId) then [] else ["BTCPAY_STORE_ID"])
  }

  /** The text of the error `_require_env` raises for the given list of names. */
  function MissingMessage(names: string): string {
    "Missing env var(s): " + names + ". Add them to your .env file."
  }

  /** `_require_env`: raises exactly when a credential is missing. */
  function RequireEnv(c: Config): (r: Result<()>)
    ensures r.Ok? <==> Truthy(c.apiKey) && Truthy(c.storeId)
  {
    var missing := MissingNames(c);
    if missing == [] then Ok(())
    else Raise(RuntimeError(MissingMessage(Join(missing, ", "))))
  }

  /** The message of `_require_env` names the missing credentials, API key first, joined by ", ". */
  lemma RequireEnvMessage(c: Config)
    ensures !Truthy(c.apiKey) && !Truthy(c.storeId) ==>
      RequireEnv(c) == Raise(RuntimeError(MissingMessage("BTCPAY_API_KEY, BTCPAY_STORE_ID")))
    ensures !Truthy(c.apiKey) && Truthy(c.storeId) ==>
      RequireEnv(c) == Raise(RuntimeError(MissingMessage("BTCPAY_API_KEY")))
    ensures Truthy(c.apiKey) && !Truthy(c.storeId) ==>
      RequireEnv(c) == Raise(RuntimeError(MissingMessage("BTCPAY_STORE_ID")))
  {
    var missing := MissingNames(c);
    if !Truthy(c.apiKey) && !Truthy(c.storeId) {
      assert missing == ["BTCPAY_API_KEY", "BTCPAY_STORE_ID"];
      assert missing[1..] == ["BTCPAY_STORE_ID"];
      assert Join(missing, ", ") == "BTCPAY_API_KEY, BTCPAY_STORE_ID";
    } else if !Truthy(c.apiKey) && Truthy(c.storeId) {
      assert missing == ["BTCPAY_API_KEY"];
      assert Join(missing, ", ") == "BTCPAY_API_KEY";
    } else if Truthy(c.apiKey) && !Truthy(c.storeId) {
      assert missing == ["BTCPAY_STORE_ID"];
      assert Join(missing, ", ") == "BTCPAY_STORE_ID";
    }
  }

  /** `_headers`: the credential check, then the token and JSON content-type headers. */
  function Headers(c: Config): (r: Result<map<string, string>>)
    ensures r.Ok? <==> RequireEnv(c).Ok?
    ensures r.Raise? ==> r.exc == RequireEnv(c).exc
    ensures r.Ok? ==> r.value.Keys == {"Authorization", "Content-Type"}
    ensures r.Ok? ==> r.value["Authorization"] == "token " + c.apiKey.value
    ensures r.Ok? ==> r.value["Content-Type"] == "application/json"
  {
    match RequireEnv(c)
    case Raise(e) => Raise(e)
    case Ok(_) => Ok(AuthHeaders(c.apiKey.value))
  }

  /** The configuration of the in-file dry test. */
  function DryConfig(): Config {
    Config("https://example.com", Some("test_api_key"), Some("store_123"))
  }

  /** The in-file dry test: fixed credentials give the expected headers and base URL. */
  lemma DryTests()
    ensures var h := Headers(DryConfig());
      && h.Ok?
      && h.value["Authorization"] == "token test_api_key"
      && h.value["Content-Type"] == "application/json"
    ensures StoreBaseUrl(DryConfig()) == "https://example.com/api/v1/stores/store_123"
  {
    DryHeaders();
    DryBaseUrl();
  }

  /** The dry-test credentials pass the check and give the token header. */
  lemma DryHeaders()
    ensures Headers(DryConfig()).Ok?
    ensures Headers(DryConfig()).value["Authorization"] == "token test_api_key"
  {
    var c := DryConfig();
    assert Truthy(c.apiKey) && Truthy(c.storeId);
    assert Headers(c).Ok?;
  }

  /** The dry-test store id is written as it is after the stores path. */
  lemma DryBaseUrl()
    ensures StoreBaseUrl(DryConfig()) == "https://example.com/api/v1/stores/store_123"
  {
    assert Formatted(DryConfig().storeId) == "store_123";
  }

  /**
   * `create_invoice`: the POST request it sends. The payload is built
   * first; a missing credential then raises from `_headers`.
   */
  function CreateInvoice(c: Config, escrowId: string, amount: string, currency: string := "USD",
                         buyerEmail: Option<string> := None): (r: Result<Request>)
    ensures r.Ok? <==> Truthy(c.apiKey) && Truthy(c.storeId)
    ensures r.Raise? ==> r.exc == RequireEnv(c).exc
    ensures r.Ok? ==> r.value.verb == Post && r.value.url == StoreBaseUrl(c) + "/invoices"
    ensures r.Ok? ==> r.value.headers == AuthHeaders(c.apiKey.value)
    ensures r.Ok? ==> r.value.body == Some(InvoicePayload(escrowId, amount, currency, buyerEmail))
    ensures r.Ok? ==> r.value.timeout == 30
  {
    var payload := InvoicePayload(escrowId, amount, currency, buyerEmail);
    match Headers(c)
    case Raise(e) => Raise(e)
    case Ok(h) => Ok(Request(Post, InvoicesUrl(c), h, Some(payload), TimeoutSeconds))
  }

  /** `get_invoice`: the GET request for one invoice. */
  function GetInvoice(c: Config, invoiceId: string): (r: Result<Request>)
    ensures r.Ok? <==> Truthy(c.apiKey) && Truthy(c.storeId)
    ensures r.Raise? ==> r.exc == RequireEnv(c).exc
    ensures r.Ok? ==> r.value.verb == Get && r.value.body.None?
    ensures r.Ok? ==> r.value.url == StoreBaseUrl(c) + "/invoices/" + invoiceId
    ensures r.Ok? ==> r.value.headers == AuthHeaders(c.apiKey.value) && r.value.timeout == 30
  {
    match Headers(c)
    case Raise(e) => Raise(e)
    case Ok(h) => Ok(Request(Get, InvoiceUrl(c, invoiceId), h, None, TimeoutSeconds))
  }

  /** `is_invoice_paid` on the fetched invoice: only the exact status "Settled" counts. */
  function IsInvoicePaid(inv: Invoice): (paid: bool)
    ensures paid <==> inv.status == Some("Settled")
  {
    match inv.status
    case Some(s) => s == "Settled"
    case None => false
  }

  /** `generate_payment_qr` up to the QR image: the URI of the first payment method. */
  function GeneratePaymentUri(inv: Invoice): (r: Result<string>)
    ensures inv.paymentMethods == [] ==> r == Raise(ValueError("No payment methods found in invoice."))
    ensures inv.paymentMethods != [] && !Truthy(inv.paymentMethods[0].destination) ==>
      r == Raise(ValueError("No payment address found in invoice."))
    ensures r.Ok? <==> inv.paymentMethods != [] && Truthy(inv.paymentMethods[0].destination)
    ensures r.Ok? ==>
      var m := inv.paymentMethods[0];
      r.value == "bitcoin:" + m.destination.value + (if Truthy(m.amount) then "?amount=" + m.amount.value else "")
  {
    var pm := inv.paymentMethods;
    if pm == [] then Raise(ValueError("No payment methods found in invoice."))
    else if !Truthy(pm[0].destination) then Raise(ValueError("No payment address found in invoice."))
    else Ok(Render(OnChain(pm[0].destination.value, KeepTruthy(pm[0].amount))))
  }

  /**
   * The URI reads back as a BIP 21 target naming the first method's
   * address, with the amount present exactly when the method's amount is.
   */
  lemma GeneratePaymentUriReadsBack(inv: Invoice)
    requires inv.paymentMethods != [] && Truthy(inv.paymentMethods[0].destination)
    requires '?' !in inv.paymentMethods[0].destination.value
    ensures GeneratePaymentUri(inv).Ok?
    ensures var m := inv.paymentMethods[0];
      Parse(GeneratePaymentUri(inv).value) == Some(OnChain(m.destination.value, KeepTruthy(m.amount)))
  {
    var m := inv.paymentMethods[0];
    ParseRender(OnChain(m.destination.value, KeepTruthy(m.amount)));
  }
}
