/**
 * bot.py: the escrow bot's role registry (`user_roles`, written by the
 * `/seller` and `/buyer` commands), the `TOPIC_IDS` setting and the
 * topic chosen for a group invite, and its own gateway helpers and
 * first-method payment URI.
 */
module Bot {
  import opened PyValues
  import opened Text
  import opened Store
  import opened Invoices
  import opened PaymentUri

  // ---------------------------------------------------------------------------
  // Gateway helpers

  /** `_headers`: no credential check; an unset key is sent as `token None`. */
  function Headers(c: Config): (h: map<string, string>)
    ensures h.Keys == {"Authorization", "Content-Type"}
    ensures c.apiKey.Some? ==> h["Authorization"] == "token " + c.apiKey.value
    ensures c.apiKey.None? ==> h["Authorization"] == "token None"
    ensures h["Content-Type"] == "application/json"
  {
    AuthHeaders(Formatted(c.apiKey))
  }

  /** `get_invoice`: the GET request for one invoice. */
  function GetInvoice(c: Config, invoiceId: string): (r: Request)
    ensures r.verb == Get && r.body.None? && r.timeout == 30
    ensures r.url == StoreBaseUrl(c) + "/invoices/" + invoiceId
    ensures r.headers == Headers(c)
  {
    Request(Get, InvoiceUrl(c, invoiceId), Headers(c), None, TimeoutSeconds)
  }

  /**
   * `generate_payment_qr` up to the QR image: the first method's URI. The
   * destination is not checked, so a missing one is written as `None`.
   */
  function GeneratePaymentUri(inv: Invoice): (r: Result<string>)
    ensures r.Raise? <==> inv.paymentMethods == []
    ensures r.Raise? ==> r.exc == ValueError("No payment methods in invoice")
    ensures r.Ok? ==>
      var m := inv.paymentMethods[0];
      r.value == "bitcoin:" + Formatted(m.destination) + (if Truthy(m.amount) then "?amount=" + m.amount.value else "")
  {
    var pm := inv.paymentMethods;
    if pm == [] then Raise(ValueError("No payment methods in invoice"))
    else Ok(Render(OnChain(Formatted(pm[0].destination), KeepTruthy(pm[0].amount))))
  }

  /**
   * The URI reads back as an on-chain target: the first method's
   * destination as formatted, with the amount exactly when it is truthy.
   */
  lemma GeneratePaymentUriReadsBack(inv: Invoice)
    requires inv.paymentMethods != []
    requires '?' !in Formatted(inv.paymentMethods[0].destination)
    ensures GeneratePaymentUri(inv).Ok?
    ensures var m := inv.paymentMethods[0];
      Parse(GeneratePaymentUri(inv).value) == Some(OnChain(Formatted(m.destination), KeepTruthy(m.amount)))
  {
    var m := inv.paymentMethods[0];
    ParseRender(OnChain(Formatted(m.destination), KeepTruthy(m.amount)));
  }

  /** A first method without a destination yields a URI to the address `None`. */
  lemma UriWithoutDestination(inv: Invoice)
    requires inv.paymentMethods != [] && inv.paymentMethods[0].destination.None?
    ensures GeneratePaymentUri(inv).Ok?
    ensures Parse(GeneratePaymentUri(inv).value) == Some(OnChain("None", KeepTruthy(inv.paymentMethods[0].amount)))
  {
    assert Formatted(inv.paymentMethods[0].destination) == "None";
    assert '?' !in "None";
    GeneratePaymentUriReadsBack(inv);
  }

  // ---------------------------------------------------------------------------
  // TOPIC_IDS and the invite topic

  /** The non-empty stripped pieces, in order: `[t.strip() for t in pieces if t.strip()]`. */
  function KeptPieces(pieces: seq<string>): (r: seq<string>)
    ensures |r| <= |pieces|
    ensures forall k :: 0 <= k < |r| ==> r[k] != [] && Trimmed(r[k])
  {
    if pieces == [] then [] else KeptOne(pieces[0]) + KeptPieces(pieces[1..])
  }

  /** One piece stripped, or nothing when it is blank. */
  function KeptOne(p: string): seq<string> {
    var t := Strip(p);
    if t != [] then [t] else []
  }

  /** Head and tail of a concatenation whose first part is not empty. */
  lemma HeadTail<T>(a: seq<T>, b: seq<T>)
    requires a != []
    ensures a + b != [] && (a + b)[0] == a[0] && (a + b)[1..] == a[1..] + b
  {
  }

  /** One piece is kept, stripped, exactly when it is not blank. */
  lemma KeptPiecesSingle(p: string)
    ensures KeptPieces([p]) == if Strip(p) != [] then [Strip(p)] else []
  {
    assert [p][1..] == [];
  }

  /** Pieces are filtered one by one: the result keeps their order. */
  lemma {:induction false} KeptPiecesAppend(a: seq<string>, b: seq<string>)
    ensures KeptPieces(a + b) == KeptPieces(a) + KeptPieces(b)
  {
    if a != [] {
      HeadTail(a, b);
      var head := KeptOne(a[0]);
      assert KeptPieces(a + b) == head + KeptPieces(a[1..] + b);
      assert KeptPieces(a) == head + KeptPieces(a[1..]);
      KeptPiecesAppend(a[1..], b);
      assert head + (KeptPieces(a[1..]) + KeptPieces(b)) == head + KeptPieces(a[1..]) + KeptPieces(b);
    } else {
      assert a + b == b;
    }
  }

  /** `int(...)` of every piece; `None` when one of them raises `ValueError`. */
  function ParseAll(pieces: seq<string>): (r: Option<seq<int>>)
    ensures r.None? <==> exists k :: 0 <= k < |pieces| && ParseInt(pieces[k]).None?
    ensures r.Some? ==> |r.value| == |pieces|
    ensures r.Some? ==> forall k :: 0 <= k < |pieces| ==> ParseInt(pieces[k]) == Some(r.value[k])
  {
    if pieces == [] then Some([])
    else match (ParseInt(pieces[0]), ParseAll(pieces[1..]))
      case (Some(n), Some(ns)) => Some([n] + ns)
      case _ => None
  }

  /**
   * `TOPIC_IDS`: the setting split on ",", each piece stripped, empty
   * pieces dropped, the rest converted with `int`; `None` when a piece is
   * not an integer (the import raises `ValueError`).
   */
  function TopicIds(setting: Option<string>): Option<seq<int>> {
    ParseAll(KeptPieces(SplitOn(setting.GetOr(""), ',')))
  }

  /** An unset or empty setting yields no topics. */
  lemma TopicIdsEmpty(setting: Option<string>)
    requires setting == None || setting == Some("")
    ensures TopicIds(setting) == Some([])
  {
    var text := setting.GetOr("");
    assert text == [];
    assert SplitOn(text, ',') == [[]];
    KeptPiecesSingle([]);
    StripBlank([]);
    assert KeptPieces([[]]) == [];
  }

  /**
   * A setting holding one piece that is not blank and not an integer makes
   * the import fail: `int` raises `ValueError` on it.
   */
  lemma TopicIdsNotInteger(piece: string)
    requires ',' !in piece && Strip(piece) != []
    requires ParseInt(piece).None?
    ensures TopicIds(Some(piece)) == None
  {
    SplitOnFree(piece, ',');
    KeptPiecesSingle(piece);
    StripTrimmed(Strip(piece));
    assert KeptPieces(SplitOn(piece, ',')) == [Strip(piece)];
    assert ParseInt(Strip(piece)).None?;
  }

  /** `str` of each id. */
  function IntsToStrings(ids: seq<int>): (r: seq<string>)
    ensures |r| == |ids|
    ensures forall k :: 0 <= k < |ids| ==> r[k] == IntToString(ids[k])
  {
    if ids == [] then [] else [IntToString(ids[0])] + IntsToStrings(ids[1..])
  }

  /** Clean pieces (non-empty, stripped) are kept as they are. */
  lemma {:induction false} KeptPiecesClean(pieces: seq<string>)
    requires forall k :: 0 <= k < |pieces| ==> pieces[k] != [] && Trimmed(pieces[k])
    ensures KeptPieces(pieces) == pieces
  {
    if pieces != [] {
      StripTrimmed(pieces[0]);
      KeptPiecesClean(pieces[1..]);
      assert [pieces[0]] + pieces[1..] == pieces;
    }
  }

  /** Parsing the decimal forms of ids gives the ids back. */
  lemma ParseAllStrings(ids: seq<int>)
    ensures ParseAll(IntsToStrings(ids)) == Some(ids)
  {
    var strs := IntsToStrings(ids);
    forall k | 0 <= k < |strs|
      ensures ParseInt(strs[k]) == Some(ids[k])
    {
      IntToStringParse(ids[k]);
    }
    var r := ParseAll(strs);
    assert r.Some?;
    assert r.value == ids;
  }

  /** A setting written as the ids joined by "," reads back as the same ids, in order. */
  lemma TopicIdsRoundTrip(ids: seq<int>)
    ensures TopicIds(Some(Join(IntsToStrings(ids), ","))) == Some(ids)
  {
    if ids == [] {
      TopicIdsEmpty(Some(""));
      return;
    }
    var pieces := IntsToStrings(ids);
    forall k | 0 <= k < |pieces|
      ensures ',' !in pieces[k] && pieces[k] != [] && Trimmed(pieces[k])
    {
      IntToStringClean(ids[k]);
    }
    SplitOnJoin(pieces, ',');
    KeptPiecesClean(pieces);
    ParseAllStrings(ids);
  }

  /** A piece that is not blank is kept, stripped, ahead of the rest. */
  lemma KeptHead(p: string, rest: seq<string>)
    requires Strip(p) != []
    ensures KeptPieces([p] + rest) == [Strip(p)] + KeptPieces(rest)
  {
    KeptPiecesSingle(p);
    KeptPiecesAppend([p], rest);
  }

  /** A blank piece is dropped. */
  lemma DroppedHead(p: string, rest: seq<string>)
    requires Strip(p) == []
    ensures KeptPieces([p] + rest) == KeptPieces(rest)
  {
    KeptPiecesSingle(p);
    KeptPiecesAppend([p], rest);
  }

  /** Four pieces, the second and fourth blank: the other two are kept, stripped. */
  lemma KeptFour(a: string, b: string, c: string, d: string)
    requires Strip(a) != [] && Strip(b) == [] && Strip(c) != [] && Strip(d) == []
    ensures KeptPieces([a] + ([b] + ([c] + [d]))) == [Strip(a), Strip(c)]
  {
    KeptPiecesSingle(d);
    KeptHead(c, [d]);
    DroppedHead(b, [c] + [d]);
    KeptHead(a, [b] + ([c] + [d]));
  }

  /**
   * A setting with whitespace `c` around the first id, a blank piece and a
   * trailing comma: `"<c>x<c>,<c>,y,"`.
   */
  function PaddedSetting(c: char, x: int, y: int): string {
    [c] + IntToString(x) + [c] + "," + [c] + "," + IntToString(y) + ","
  }

  /** The pieces of that setting. */
  lemma PaddedPieces(c: char, x: int, y: int)
    requires IsSpace(c)
    ensures SplitOn(PaddedSetting(c, x, y), ',') == [[c] + IntToString(x) + [c]] + ([[c]] + ([IntToString(y)] + [""]))
  {
    var sx, sy := IntToString(x), IntToString(y);
    var pieces := [[c] + sx + [c], [c], sy, ""];
    IntToStringClean(x);
    IntToStringClean(y);
    assert pieces[1..] == [[c], sy, ""] && pieces[1..][1..] == [sy, ""] && [sy, ""][1..] == [""];
    assert Join([sy, ""], ",") == sy + "," + "";
    assert Join([[c], sy, ""], ",") == [c] + "," + (sy + "," + "");
    assert Join(pieces, ",") == ([c] + sx + [c]) + "," + ([c] + "," + (sy + "," + ""));
    assert Join(pieces, ",") == PaddedSetting(c, x, y);
    SplitOnJoin(pieces, ',');
    assert pieces == [[c] + sx + [c]] + ([[c]] + ([sy] + [""]));
  }

  /** How each of those pieces strips. */
  lemma PaddedPiecesStrip(c: char, x: int, y: int)
    requires IsSpace(c)
    ensures Strip([c] + IntToString(x) + [c]) == IntToString(x) && Strip([c]) == []
    ensures Strip(IntToString(y)) == IntToString(y) && Strip("") == []
  {
    IntToStringClean(x);
    IntToStringClean(y);
    StripPadded([c], IntToString(x), [c]);
    StripBlank([c]);
    StripTrimmed(IntToString(y));
    StripBlank([]);
  }

  /** Those pieces stripped, with the blank ones dropped. */
  lemma PaddedPiecesKept(c: char, x: int, y: int)
    requires IsSpace(c)
    ensures KeptPieces([[c] + IntToString(x) + [c]] + ([[c]] + ([IntToString(y)] + [""]))) == [IntToString(x), IntToString(y)]
  {
    PaddedPiecesStrip(c, x, y);
    KeptFour([c] + IntToString(x) + [c], [c], IntToString(y), "");
  }

  /**
   * Padding around the ids and blank pieces, including the one after a
   * trailing comma, are ignored: the ids come back in order.
   */
  lemma TopicIdsPadded(c: char, x: int, y: int)
    requires IsSpace(c)
    ensures TopicIds(Some(PaddedSetting(c, x, y))) == Some([x, y])
  {
    var pieces := SplitOn(PaddedSetting(c, x, y), ',');
    PaddedPieces(c, x, y);
    PaddedPiecesKept(c, x, y);
    var kept := KeptPieces(pieces);
    assert kept == [IntToString(x), IntToString(y)];
    ParseAllStrings([x, y]);
    assert IntsToStrings([x, y]) == kept;
    assert ParseAll(kept) == Some([x, y]);
  }

  /** The invite-link request `generate_group_invite` makes. */
  datatype InviteRequest = InviteRequest(chatId: int, name: string, createsJoinRequest: bool)

  /**
   * `generate_group_invite` up to the API call: fails without topics,
   * otherwise names the link after a topic drawn from `TOPIC_IDS`.
   * `pick` is the index `random.choice` draws.
   */
  function GenerateGroupInvite(topicIds: seq<int>, groupChatId: int, pick: nat): (r: Result<InviteRequest>)
    requires topicIds != [] ==> pick < |topicIds|
    ensures r.Raise? <==> topicIds == []
    ensures r.Raise? ==> r.exc == ValueError("No topic IDs in .env")
    ensures r.Ok? ==> exists t :: t in topicIds && r.value.name == "Escrow Topic " + IntToString(t)
    ensures r.Ok? ==> r.value.chatId == groupChatId && !r.value.createsJoinRequest
  {
    if topicIds == [] then Raise(ValueError("No topic IDs in .env"))
    else
      var topic := topicIds[pick];
      Ok(InviteRequest(groupChatId, "Escrow Topic " + IntToString(topic), false))
  }

  // ---------------------------------------------------------------------------
  // The role registry

  datatype Role = Seller | Buyer

  /** One `user_roles` entry: `{"role": ..., "address": ...}`. */
  datatype Participant = Participant(role: Role, address: string)

  /** What the command handler replies. */
  datatype Reply = Usage(role: Role) | Registered(role: Role, wallet: string)

  /** The in-memory `user_roles` dictionary, keyed by Telegram user id. */
  class RoleRegistry {
    var userRoles: map<int, Participant>

    constructor ()
      ensures userRoles == map[]
    {
      userRoles := map[];
    }

    /**
     * `/seller` and `/buyer`: with fewer than two words the usage text is
     * sent and nothing changes; otherwise the sender's entry becomes the
     * role and the second word, replacing any earlier entry whole.
     */
    method Register(userId: int, role: Role, text: string) returns (reply: Reply)
      modifies this
      ensures |Words(text)| < 2 ==> reply == Usage(role) && userRoles == old(userRoles)
      ensures |Words(text)| >= 2 ==>
        && reply == Registered(role, Words(text)[1])
        && userRoles == old(userRoles)[userId := Participant(role, Words(text)[1])]
    {
      var parts := Words(text);
      if |parts| < 2 {
        return Usage(role);
      }
      var wallet := parts[1];
      userRoles := userRoles[userId := Participant(role, wallet)];
      reply := Registered(role, wallet);
    }

    /** `cmd_seller`. */
    method CmdSeller(userId: int, text: string) returns (reply: Reply)
      modifies this
      ensures |Words(text)| < 2 ==> reply == Usage(Seller) && userRoles == old(userRoles)
      ensures |Words(text)| >= 2 ==>
        && reply == Registered(Seller, Words(text)[1])
        && userRoles == old(userRoles)[userId := Participant(Seller, Words(text)[1])]
    {
      reply := Register(userId, Seller, text);
    }

    /** `cmd_buyer`. */
    method CmdBuyer(userId: int, text: string) returns (reply: Reply)
      modifies this
      ensures |Words(text)| < 2 ==> reply == Usage(Buyer) && userRoles == old(userRoles)
      ensures |Words(text)| >= 2 ==>
        && reply == Registered(Buyer, Words(text)[1])
        && userRoles == old(userRoles)[userId := Participant(Buyer, Words(text)[1])]
    {
      reply := Register(userId, Buyer, text);
    }
  }

  /** The text of a command with its arguments, as a user types it. */
  function CommandText(command: string, args: seq<string>): string {
    Join([command] + args, " ")
  }

  /** The second word of a well-formed command is its first argument; later ones are ignored. */
  lemma CommandWords(command: string, args: seq<string>)
    requires IsWord(command) && args != []
    requires forall k :: 0 <= k < |args| ==> IsWord(args[k])
    ensures |Words(CommandText(command, args))| >= 2
    ensures Words(CommandText(command, args))[1] == args[0]
  {
    var ws := [command] + args;
    assert forall k :: 0 <= k < |ws| ==> IsWord(ws[k]);
    WordsJoin(ws);
  }

  /** A word, whitespace and a second word: exactly those two words. */
  lemma TwoWords(command: string, c: char, gap: string, wallet: string)
    requires forall k :: 0 <= k < |gap| ==> IsSpace(gap[k])
    requires IsWord(command) && IsSpace(c) && IsWord(wallet)
    ensures Words(command + [c] + (gap + wallet)) == [command, wallet]
  {
    WordsCons(command, c, gap + wallet);
    WordsSkipBlank(gap, wallet);
    WordsOfWord(wallet);
  }

  /** The typed text regrouped as leading whitespace and the rest. */
  lemma Regroup(lead: string, command: string, c: char, gap: string, wallet: string)
    ensures lead + command + [c] + gap + wallet == lead + (command + [c] + (gap + wallet))
  {
  }

  /**
   * Whitespace before the command and between the command and the wallet
   * does not matter: the second word is the wallet.
   */
  lemma SpacedCommandWords(lead: string, command: string, c: char, gap: string, wallet: string)
    requires forall k :: 0 <= k < |lead| ==> IsSpace(lead[k])
    requires forall k :: 0 <= k < |gap| ==> IsSpace(gap[k])
    requires IsWord(command) && IsSpace(c) && IsWord(wallet)
    ensures Words(lead + command + [c] + gap + wallet) == [command, wallet]
  {
    var body := command + [c] + (gap + wallet);
    Regroup(lead, command, c, gap, wallet);
    WordsSkipBlank(lead, body);
    TwoWords(command, c, gap, wallet);
  }

  /**
   * `/seller A` followed by `/buyer B` from the same user leaves role buyer
   * with address B: the later record replaces the earlier one whole.
   */
  method SellerThenBuyer(registry: RoleRegistry, userId: int, a: string, b: string) returns (last: Participant)
    requires IsWord(a) && IsWord(b)
    modifies registry
    ensures last == Participant(Buyer, b)
    ensures registry.userRoles == old(registry.userRoles)[userId := last]
  {
    var sellerText := CommandText("/seller", [a]);
    var buyerText := CommandText("/buyer", [b]);
    CommandWords("/seller", [a]);
    CommandWords("/buyer", [b]);
    var _ := registry.CmdSeller(userId, sellerText);
    var _ := registry.CmdBuyer(userId, buyerText);
    last := registry.userRoles[userId];
  }
}
