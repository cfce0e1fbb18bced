/**
 * bot_groups.py: the gateway helpers of the group bot and the payment
 * target resolver that may prefer a Lightning method over the first one.
 */
module BotGroups {
  import opened PyValues
  import opened Text
  import opened Store
  import opened Invoices
  import opened PaymentUri

  const MissingCredentials := "❌ Missing BTCPAY_API_KEY or BTCPAY_STORE_ID in .env"

  /** `_headers`: raises unless both credentials are set and non-empty. */
  function Headers(c: Config): (r: Result<map<string, string>>)
    ensures r.Ok? <==> Truthy(c.apiKey) && Truthy(c.storeId)
    ensures r.Raise? ==> r.exc == RuntimeError(MissingCredentials)
    ensures r.Ok? ==> r.value.Keys == {"Authorization", "Content-Type"}
    ensures r.Ok? ==> r.value["Authorization"] == "token " + c.apiKey.value
    ensures r.Ok? ==> r.value["Content-Type"] == "application/json"
  {
    if !Truthy(c.apiKey) || !Truthy(c.storeId) then Raise(RuntimeError(MissingCredentials))
    else Ok(AuthHeaders(c.apiKey.value))
  }

  /**
   * `create_invoice`: the POST request it sends; the metadata holds the
   * escrow id and nothing else.
   */
  function CreateInvoice(c: Config, escrowId: string, amount: string, currency: string := "USD"): (r: Result<Request>)
    ensures r.Ok? <==> Truthy(c.apiKey) && Truthy(c.storeId)
    ensures r.Raise? ==> r.exc == RuntimeError(MissingCredentials)
    ensures r.Ok? ==> r.value.verb == Post && r.value.url == StoreBaseUrl(c) + "/invoices"
    ensures r.Ok? ==> r.value.body.Some?
    ensures r.Ok? ==> r.value.body.value.amount == amount && r.value.body.value.currency == currency
    ensures r.Ok? ==> r.value.body.value.metadata == map["escrow_id" := escrowId]
    ensures r.Ok? ==> r.value.headers == AuthHeaders(c.apiKey.value) && r.value.timeout == 30
  {
    var payload := InvoicePayload(escrowId, amount, currency, None);
    match Headers(c)
    case Raise(e) => Raise(e)
    case Ok(h) => Ok(Request(Post, InvoicesUrl(c), h, Some(payload), TimeoutSeconds))
  }

  /** `get_invoice`: the GET request for one invoice. */
  function GetInvoice(c: Config, invoiceId: string): (r: Result<Request>)
    ensures r.Ok? <==> Truthy(c.apiKey) && Truthy(c.storeId)
    ensures r.Raise? ==> r.exc == RuntimeError(MissingCredentials)
    ensures r.Ok? ==> r.value.verb == Get && r.value.body.None?
    ensures r.Ok? ==> r.value.url == StoreBaseUrl(c) + "/invoices/" + invoiceId
    ensures r.Ok? ==> r.value.headers == AuthHeaders(c.apiKey.value) && r.value.timeout == 30
  {
    match Headers(c)
    case Raise(e) => Raise(e)
    case Ok(h) => Ok(Request(Get, InvoiceUrl(c, invoiceId), h, None, TimeoutSeconds))
  }

  /** Some method is labelled Lightning. */
  ghost predicate HasLightning(methods: seq<PaymentMethod>) {
    exists j :: 0 <= j < |methods| && IsLightning(methods[j])
  }

  /**
   * The resolver's choice: with the preference set and a Lightning method
   * present, the first Lightning method in list order; otherwise the first
   * method.
   */
  ghost predicate IsChoice(methods: seq<PaymentMethod>, preferLightning: bool, k: nat) {
    && k < |methods|
    && if preferLightning && HasLightning(methods) then
         IsLightning(methods[k]) && forall j :: 0 <= j < k ==> !IsLightning(methods[j])
       else k == 0
  }

  /** The choice is determined by the list and the preference. */
  lemma ChoiceUnique(methods: seq<PaymentMethod>, preferLightning: bool, k1: nat, k2: nat)
    requires IsChoice(methods, preferLightning, k1) && IsChoice(methods, preferLightning, k2)
    ensures k1 == k2
  {
  }

  /** The selection loop of `generate_payment_qr`: scan for Lightning, else take the first. */
  method SelectMethod(methods: seq<PaymentMethod>, preferLightning: bool) returns (k: nat)
    requires methods != []
    ensures IsChoice(methods, preferLightning, k)
  {
    var found := false;
    k := 0;
    if preferLightning {
      for i := 0 to |methods|
        invariant !found
        invariant forall j :: 0 <= j < i ==> !IsLightning(methods[j])
      {
        if IsLightning(methods[i]) {
          k, found := i, true;
          break;
        }
      }
    }
    if !found {
      k := 0;
    }
  }

  /** The URI for the chosen method, or the error for a missing destination. */
  function MethodUri(m: PaymentMethod): (r: Result<string>)
    ensures r.Raise? <==> !Truthy(m.destination)
    ensures r.Raise? ==> r.exc == ValueError("No payment destination found.")
    ensures r.Ok? && IsLightning(m) ==> r.value == "lightning:" + m.destination.value
    ensures r.Ok? && !IsLightning(m) ==>
      r.value == "bitcoin:" + m.destination.value + (if Truthy(m.amount) then "?amount=" + m.amount.value else "")
  {
    if !Truthy(m.destination) then Raise(ValueError("No payment destination found."))
    else if IsLightning(m) then Ok(Render(Lightning(m.destination.value)))
    else Ok(Render(OnChain(m.destination.value, KeepTruthy(m.amount))))
  }

  /**
   * A method's URI reads back as the target it describes: a Lightning
   * destination, or an on-chain address with the amount exactly when the
   * method has a non-empty one.
   */
  lemma MethodUriReadsBack(m: PaymentMethod)
    requires Truthy(m.destination)
    requires !IsLightning(m) ==> '?' !in m.destination.value
    ensures MethodUri(m).Ok?
    ensures IsLightning(m) ==> Parse(MethodUri(m).value) == Some(Lightning(m.destination.value))
    ensures !IsLightning(m) ==> Parse(MethodUri(m).value) == Some(OnChain(m.destination.value, KeepTruthy(m.amount)))
  {
    if IsLightning(m) {
      ParseRender(Lightning(m.destination.value));
    } else {
      ParseRender(OnChain(m.destination.value, KeepTruthy(m.amount)));
    }
  }

  /**
   * `generate_payment_qr` up to the QR image. `used` is the index of the
   * chosen method; no other method is tried when it has no destination.
   */
  method GeneratePaymentUri(methods: seq<PaymentMethod>, preferLightning: bool := false)
    returns (r: Result<string>, used: Option<nat>)
    ensures methods == [] <==> used.None?
    ensures methods == [] ==> r == Raise(ValueError("No payment methods found in invoice."))
    ensures used.Some? ==> IsChoice(methods, preferLightning, used.value) && r == MethodUri(methods[used.value])
  {
    if methods == [] {
      return Raise(ValueError("No payment methods found in invoice.")), None;
    }
    var k := SelectMethod(methods, preferLightning);
    r, used := MethodUri(methods[k]), Some(k);
  }
}
