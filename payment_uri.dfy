/**
 * Payment targets and the URIs the bot shows under its QR codes.
 *
 * An on-chain target is written in the simplified BIP 21 form
 * `bitcoin:<address>[?amount=<amount>]` (no percent-encoding, no other
 * query parameters); a Lightning target as `lightning:<destination>`.
 * `Parse` reads such a URI back independently of `Render`.
 */
module PaymentUri {
  import opened PyValues
  import opened Text

  const BitcoinScheme := "bitcoin:"
  const LightningScheme := "lightning:"
  const AmountParam := "?amount="

  /** What a URI asks the wallet to pay. */
  datatype Target =
    | OnChain(address: string, amount: Option<string>)
    | Lightning(destination: string)

  /** The URI text for a target. */
  function Render(t: Target): (u: string)
    ensures t.OnChain? ==> BitcoinScheme <= u
    ensures t.Lightning? ==> u == LightningScheme + t.destination
    ensures t.OnChain? && t.amount.None? ==> u == BitcoinScheme + t.address
    ensures t.OnChain? && t.amount.Some? ==> u == BitcoinScheme + t.address + AmountParam + t.amount.value
  {
    match t
    case OnChain(a, None) => BitcoinScheme + a
    case OnChain(a, Some(x)) => BitcoinScheme + a + AmountParam + x
    case Lightning(d) => LightningScheme + d
  }

  /** A target whose URI can be read back: a BIP 21 address never holds `?`. */
  predicate Readable(t: Target) {
    t.OnChain? ==> '?' !in t.address
  }

  /** Reads a URI of the two forms above; `None` for anything else. */
  function Parse(u: string): (r: Option<Target>)
    ensures r.Some? && r.value.OnChain? ==> Readable(r.value)
  {
    if BitcoinScheme <= u then
      var rest := u[|BitcoinScheme|..];
      if '?' !in rest then Some(OnChain(rest, None))
      else
        var i := IndexOf(rest, '?');
        var query := rest[i..];
        if AmountParam <= query then Some(OnChain(rest[..i], Some(query[|AmountParam|..])))
        else None
    else if LightningScheme <= u then Some(Lightning(u[|LightningScheme|..]))
    else None
  }

  /** Every readable target is recovered from its URI. */
  lemma ParseRender(t: Target)
    requires Readable(t)
    ensures Parse(Render(t)) == Some(t)
  {
    var u := Render(t);
    match t
    case OnChain(a, None) =>
      assert u[|BitcoinScheme|..] == a;
    case OnChain(a, Some(x)) =>
      var rest := u[|BitcoinScheme|..];
      assert rest == a + AmountParam + x;
      assert rest[|a|] == '?';
      var i := IndexOf(rest, '?');
      assert i == |a| by {
        assert rest[..|a|] == a;
      }
      assert rest[..i] == a;
      assert rest[i..] == AmountParam + x;
    case Lightning(d) =>
      assert !(BitcoinScheme <= u) by { assert u[0] == 'l'; }
      assert u[|LightningScheme|..] == d;
  }

  /**
   * Without percent-encoding an address holding `?amount=` is misread: its
   * URI is the URI of the shorter address with an amount, and that is how
   * it parses.
   */
  lemma QueryInAddressMisread(a: string, x: string)
    requires '?' !in a
    ensures Render(OnChain(a + AmountParam + x, None)) == Render(OnChain(a, Some(x)))
    ensures Parse(Render(OnChain(a + AmountParam + x, None))) == Some(OnChain(a, Some(x)))
  {
    assert BitcoinScheme + (a + AmountParam + x) == BitcoinScheme + a + AmountParam + x;
    ParseRender(OnChain(a, Some(x)));
  }

  /** An on-chain URI has a query part exactly when the target carries an amount. */
  lemma QueryOnlyWithAmount(a: string, amount: Option<string>)
    requires '?' !in a
    ensures '?' in Render(OnChain(a, amount)) <==> amount.Some?
  {
    var u := Render(OnChain(a, amount));
    assert forall k :: 0 <= k < |BitcoinScheme| ==> BitcoinScheme[k] != '?';
    if amount.None? {
      assert forall k :: 0 <= k < |u| ==> u[k] != '?' by {
        forall k | 0 <= k < |u| ensures u[k] != '?' {
          if k >= |BitcoinScheme| { assert u[k] == a[k - |BitcoinScheme|]; }
        }
      }
    } else {
      assert u[|BitcoinScheme| + |a|] == '?';
    }
  }
}
