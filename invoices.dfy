/**
 * The parts of a gateway invoice (as returned by `GET .../invoices/{id}`)
 * that the core reads. Fields missing from the JSON are `None`; a
 * missing `paymentMethod` label reads as `""`, as `m.get("paymentMethod", "")`
 * does, and a missing `checkout.paymentMethods` list reads as `[]`.
 */
module Invoices {
  import opened PyValues
  import opened Text

  /** One entry of `checkout.paymentMethods`. The amount is kept as opaque text. */
  datatype PaymentMethod = PaymentMethod(paymentMethod: string, destination: Option<string>, amount: Option<string>)

  datatype Invoice = Invoice(status: Option<string>, paymentMethods: seq<PaymentMethod>)

  /** `"Lightning" in m.get("paymentMethod", "")`. */
  predicate IsLightning(m: PaymentMethod) {
    Contains(m.paymentMethod, "Lightning")
  }
}
