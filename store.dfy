/**
 * The BTCPay Server Greenfield store endpoints as the bot addresses them.
 * btcpay.py, bot_groups.py and bot.py each repeat this configuration and
 * URL code word for word; it is modelled once here and each file's own
 * module adds its credential check and headers.
 */
module Store {
  import opened PyValues
  import opened Text

  const DefaultUrl := "https://mainnet.demo.btcpayserver.org"
  const StoresPath := "/api/v1/stores/"
  const TimeoutSeconds := 30

  /** Gateway settings read once at import time. */
  datatype Config = Config(url: string, apiKey: Option<string>, storeId: Option<string>)

  /**
   * `BTCPAY_URL = os.getenv("BTCPAY_URL", DefaultUrl).rstrip("/")` and the
   * two credentials as read from the environment.
   */
  function LoadConfig(urlEnv: Option<string>, apiKeyEnv: Option<string>, storeIdEnv: Option<string>): (c: Config)
    ensures c.url <= urlEnv.GetOr(DefaultUrl)
    ensures c.url == [] || c.url[|c.url| - 1] != '/'
    ensures forall i :: |c.url| <= i < |urlEnv.GetOr(DefaultUrl)| ==> urlEnv.GetOr(DefaultUrl)[i] == '/'
    ensures c.apiKey == apiKeyEnv && c.storeId == storeIdEnv
  {
    Config(RStripChar(urlEnv.GetOr(DefaultUrl), '/'), apiKeyEnv, storeIdEnv)
  }

  /** `f"{BTCPAY_URL}/api/v1/stores/{BTCPAY_STORE_ID}"`; an unset store id is written `None`. */
  function StoreBaseUrl(c: Config): (u: string)
    ensures c.url + StoresPath <= u
    ensures u[|c.url| + |StoresPath|..] == Formatted(c.storeId)
  {
    c.url + StoresPath + Formatted(c.storeId)
  }

  /** A configured URL with an extra trailing slash addresses the same store. */
  lemma {:induction false} TrailingSlashIgnored(url: string, apiKey: Option<string>, storeId: Option<string>)
    ensures StoreBaseUrl(LoadConfig(Some(url + "/"), apiKey, storeId))
         == StoreBaseUrl(LoadConfig(Some(url), apiKey, storeId))
  {
    RStripCharAppend(url, '/');
  }

  /** `f"{_store_base_url()}/invoices"`, where invoices are created. */
  function InvoicesUrl(c: Config): string {
    StoreBaseUrl(c) + "/invoices"
  }

  /** `f"{_store_base_url()}/invoices/{invoice_id}"`, where one invoice is read. */
  function InvoiceUrl(c: Config, invoiceId: string): string {
    StoreBaseUrl(c) + "/invoices/" + invoiceId
  }

  /** The request headers for an API key. */
  function AuthHeaders(token: string): (h: map<string, string>)
    ensures h.Keys == {"Authorization", "Content-Type"}
    ensures h["Authorization"] == "token " + token
    ensures h["Content-Type"] == "application/json"
  {
    map["Authorization" := "token " + token, "Content-Type" := "application/json"]
  }

  /** The JSON body of an invoice-creation request. */
  datatype Payload = Payload(amount: string, currency: string, metadata: map<string, string>)

  /**
   * The invoice payload: the amount as text, the currency, and metadata
   * holding the escrow id, plus `buyerEmail` only when a non-empty e-mail
   * is given.
   */
  function InvoicePayload(escrowId: string, amount: string, currency: string, buyerEmail: Option<string>): (p: Payload)
    ensures p.amount == amount && p.currency == currency
    ensures "escrow_id" in p.metadata && p.metadata["escrow_id"] == escrowId
    ensures Truthy(buyerEmail) ==> p.metadata.Keys == {"escrow_id", "buyerEmail"} && p.metadata["buyerEmail"] == buyerEmail.value
    ensures !Truthy(buyerEmail) ==> p.metadata.Keys == {"escrow_id"}
  {
    var metadata := map["escrow_id" := escrowId];
    Payload(amount, currency, if Truthy(buyerEmail) then metadata["buyerEmail" := buyerEmail.value] else metadata)
  }

  datatype Verb = Get | Post

  /** One HTTP request to the gateway, sent with the fixed 30-second timeout. */
  datatype Request = Request(verb: Verb, url: string, headers: map<string, string>, body: Option<Payload>, timeout: nat)
}
