# Escrow bot core, modelled in Dafny

The escrow bot creates one Telegram supergroup per deal and registers the
buyer and seller with their payout addresses. It creates BTCPay Server
invoices and shows a payment URI (as a QR code) for a fetched invoice.
Under the Telegram and HTTP plumbing sits a small amount of deterministic
logic, and this project models that logic and proves its properties:

- **Payment target resolver** (`BotGroups`, `Btcpay`, `Bot`): picks one of
  an invoice's `checkout.paymentMethods` and builds `lightning:<dest>` or
  the simplified BIP 21 URI `bitcoin:<dest>[?amount=N]`. `bot_groups.py`
  may prefer the first method whose label contains `Lightning`. The two
  other files always use the first method, and `bot.py` does not check
  the destination, so a missing one is written `bitcoin:None`.
  `PaymentUri` holds the typed target, its rendering and an independent
  parser. Every resolver's URI is proved to read back through that parser
  as the target it was built from, provided the on-chain address holds no
  `?`; for `bot.py` this is the formatted destination, `None` included.
  The code does no percent-encoding, so an address holding `?amount=` is
  read back as a shorter address with an amount, and this is proved too.
- **Gateway request builders** (`Store`, `Btcpay`, `BotGroups`, `Bot`): the
  configured URL with trailing `/` stripped, the store base URL, the
  `token <key>` headers, the credential checks of each file (each with its
  own message), the invoice payload with its optional `buyerEmail`, and
  the "is settled" test. Requests are returned as values instead of being
  sent.
- **Role registry** (`Bot.RoleRegistry`): the `user_roles` dictionary as a
  class with a `map` field. `/seller` and `/buyer` replace the sender's
  record whole, or reply with usage text and change nothing.
- **`TOPIC_IDS` and the invite topic** (`Bot`): the comma-separated setting
  is parsed with Python's `split`, `strip` and `int`. The invite names a
  topic drawn from it.
- **Escrow-room provisioning** (`AppTdlib`): the startup checks, the
  random five-letter suffix and the title, and the step policy of
  `create_new_group`. Creating the group is fatal. Adding and promoting
  the bot are best effort. The invite link falls back from export to
  creation. The `BOT_USERNAME_CACHE` global is a field of a class.

Python semantics the code depends on are written out in `PyValues` and
`Text`: `None`, falsy strings, f-string formatting of `None`, exceptions,
`str.isspace`, `strip`, `rstrip`, `split`, `join`, substring `in`, `int()`
and `str()`.

Each remote call (`get_me`, `create_supergroup`, the bot-add and promote
calls, and the two invite-link calls) is an input outcome, and the
provisioning method returns the calls it makes, in order. Each
`random.choice` is an input index, and a fetched invoice is an input
value.

A few facts about the code that the model keeps as they are:
- The suffix draws from `string.ascii_lowercase`, so it has letters only
  and no digits.
- The auth header is `token <key>`.
- A method counts as Lightning when its `paymentMethod` label contains
  the substring `Lightning`.
- `user_roles` is only ever written; no code reads an entry back.

## Model

| member | source | states |
|---|---|---|
| `PaymentUri.Render` | btcpay.py:114-118 | the on-chain URI is `bitcoin:` + address, with `?amount=` + amount only when an amount is carried; the Lightning URI is `lightning:` + destination |
| `PaymentUri.ParseRender` | btcpay.py:114-118 | every target whose address holds no `?` is read back unchanged from its URI (BIP 21 round trip) |
| `PaymentUri.QueryInAddressMisread` | btcpay.py:116-118 | without percent-encoding, the address `a?amount=x` with no amount renders as, and parses to, the address `a` with amount `x` |
| `PaymentUri.QueryOnlyWithAmount` | bot_groups.py:90-93 | an on-chain URI contains `?` exactly when an amount is appended: there is never a dangling `?` |
| `Text.ContainsAt` | bot_groups.py:77 | Python's substring test holds exactly when the needle starts at some position of the label |
| `Text.Strip` | bot.py:18 | `strip()` leaves no whitespace at either end and never lengthens |
| `Text.StripIsSlice` | bot.py:18 | the result of `strip()` is a slice of the input with only whitespace before and after it |
| `Text.StripPadded` | bot.py:18 | a non-blank text without surrounding whitespace, padded with whitespace on both sides, strips back to the text |
| `Text.StripBlank` | bot.py:18 | an all-whitespace string strips to the empty string |
| `Text.RStripChar` | btcpay.py:30 | `rstrip("/")` keeps a prefix, drops only `/` and leaves no trailing `/` |
| `Text.SplitOn` | bot.py:18 | `split(",")` yields at least one piece and no piece contains the separator |
| `Text.JoinSplitOn` | bot.py:18 | joining the pieces of `split(c)` with `c` gives the original string back |
| `Text.SplitOnJoin` | bot.py:18 | splitting a join of separator-free pieces gives the same pieces in the same order |
| `Text.Words` | bot.py:180 | every word of `split()` is non-empty and free of whitespace |
| `Text.WordsJoin` | bot.py:180 | words joined by single spaces split back into the same words |
| `Text.WordsSkipBlank` | bot.py:180 | any whitespace before the text is ignored by `split()` |
| `Text.WordsAppendAtSpace` | bot.py:180 | `split()` of `a`, one whitespace character and `b` is the words of `a` followed by the words of `b`: no word crosses whitespace |
| `Text.WordsOfWord` | bot.py:180 | a single word splits to itself |
| `Text.WordsCons` | bot.py:180 | a word, any whitespace character and a text split to that word followed by the words of the text |
| `Text.IntToStringParse` | bot.py:18 | `int(str(i)) == i` for every integer |
| `Store.LoadConfig` | btcpay.py:29-32 | the configured URL (default `https://mainnet.demo.btcpayserver.org`) loses exactly its trailing `/` characters; the credentials are kept as read |
| `Store.StoreBaseUrl` | btcpay.py:60-61 | the base URL is the configured URL, `/api/v1/stores/`, and the store id (`None` when unset) |
| `Store.TrailingSlashIgnored` | btcpay.py:30 | a configured URL with an extra trailing `/` addresses the same store |
| `Store.AuthHeaders` | btcpay.py:54-57 | headers are exactly Authorization `token <key>` and Content-Type `application/json` |
| `Store.InvoicePayload` | btcpay.py:73-79 | the payload carries amount and currency; metadata holds `escrow_id`, plus `buyerEmail` exactly when a non-empty e-mail is given |
| `Btcpay.RequireEnv` | btcpay.py:37-49 | raises exactly when the API key or the store id is missing or empty |
| `Btcpay.RequireEnvMessage` | btcpay.py:37-49 | the message lists the missing names, API key first, joined by `, ` |
| `Btcpay.Headers` | btcpay.py:52-57 | fails exactly as `_require_env` does; otherwise the token and JSON headers |
| `Btcpay.DryTests` | btcpay.py:129-146 | the file's own dry-test assertions hold |
| `Btcpay.CreateInvoice` | btcpay.py:66-83 | a POST to `<base>/invoices` with the payload above (currency `USD` by default) and 30 s timeout, or the credential error |
| `Btcpay.GetInvoice` | btcpay.py:86-90 | a GET of `<base>/invoices/<id>` without body, with the token and JSON headers and a 30 s timeout; otherwise `_require_env`'s error |
| `Btcpay.IsInvoicePaid` | btcpay.py:93-95 | paid exactly when the status is the string `Settled` |
| `Btcpay.GeneratePaymentUri` | btcpay.py:98-118 | uses the first method only; raises on an empty list and on a missing or empty destination; otherwise the `bitcoin:` URI with the amount only when truthy |
| `Btcpay.GeneratePaymentUriReadsBack` | btcpay.py:114-118 | for a first method with a truthy destination holding no `?`, the URI is produced and parses back to that address and the (truthy) amount |
| `BotGroups.Headers` | bot_groups.py:36-42 | raises the missing-credential error exactly when key or store id is falsy; otherwise the token and JSON headers |
| `BotGroups.CreateInvoice` | bot_groups.py:47-56 | a POST to `<base>/invoices` whose metadata is exactly `{escrow_id}`, currency `USD` by default, with the token and JSON headers and a 30 s timeout; otherwise the file's missing-credential error |
| `BotGroups.GetInvoice` | bot_groups.py:58-62 | a GET of `<base>/invoices/<id>` without body, with the token and JSON headers and a 30 s timeout; otherwise the file's missing-credential `RuntimeError` |
| `BotGroups.ChoiceUnique` | bot_groups.py:74-81 | the chosen method is determined by the list and the preference |
| `BotGroups.SelectMethod` | bot_groups.py:74-81 | without the preference the first method; with it the first Lightning-labelled method in list order, falling back to the first method when none is |
| `BotGroups.MethodUri` | bot_groups.py:83-93 | missing or empty destination raises; a Lightning label gives `lightning:<dest>` with no amount; otherwise `bitcoin:<dest>` with `?amount=` only for a truthy amount |
| `BotGroups.MethodUriReadsBack` | bot_groups.py:87-93 | for a truthy destination the URI is produced and parses back to the Lightning destination, or, when the on-chain address holds no `?`, to that address and the truthy amount |
| `BotGroups.GeneratePaymentUri` | bot_groups.py:64-93 | an empty list raises whatever the preference; otherwise the URI (or destination error) of the chosen method, no other method tried |
| `Bot.Headers` | bot.py:32-33 | no credential check: `token <key>`, or `token None` when the key is unset, and Content-Type `application/json` |
| `Bot.GetInvoice` | bot.py:40-44 | a GET of `<base>/invoices/<id>` with those headers |
| `Bot.GeneratePaymentUri` | bot.py:47-57 | raises only on an empty list; otherwise `bitcoin:` + the first destination as formatted (`None` if absent) + `?amount=` only for a truthy amount |
| `Bot.GeneratePaymentUriReadsBack` | bot.py:47-57 | for any non-empty list whose formatted first destination holds no `?`, the URI parses back to the first destination as formatted and the amount exactly when truthy |
| `Bot.UriWithoutDestination` | bot.py:53-55 | for any list whose first method has no destination, whatever its label and amount, the URI is produced and reads back as the address `None` with the truthy amount |
| `Bot.KeptPieces` | bot.py:18 | kept pieces are non-empty and stripped, never more than the pieces given |
| `Bot.KeptPiecesSingle` | bot.py:18 | one piece is kept, stripped, exactly when it strips to something non-empty |
| `Bot.KeptPiecesAppend` | bot.py:18 | pieces are filtered one by one: the result of a concatenation is the concatenation of the results, in order |
| `Bot.KeptHead` | bot.py:18 | a non-blank first piece is kept, stripped, ahead of the rest |
| `Bot.DroppedHead` | bot.py:18 | a blank first piece is dropped |
| `Bot.KeptFour` | bot.py:18 | of four pieces with the second and fourth blank, the first and third are kept, stripped, in order |
| `Bot.PaddedPieces` | bot.py:18 | `"<ws>x<ws>,<ws>,y,"` splits into the padded id, a blank, the second id and an empty piece |
| `Bot.PaddedPiecesKept` | bot.py:18 | of those pieces only the two ids are kept, stripped, in order |
| `Bot.TopicIdsPadded` | bot.py:18 | for any whitespace character and any two ids, `"<ws>x<ws>,<ws>,y,"` parses to `[x, y]`: padding and blank pieces are ignored |
| `Bot.TopicIdsEmpty` | bot.py:18 | an unset or empty `TOPIC_IDS` gives no topics |
| `Bot.KeptPiecesClean` | bot.py:18 | pieces already non-empty and stripped are all kept, in order |
| `Bot.ParseAll` | bot.py:18 | fails exactly when some piece is not an integer; otherwise one integer per piece, each the `int` of its piece, in order |
| `Bot.TopicIdsNotInteger` | bot.py:18 | a setting with one non-blank piece that `int` rejects makes the import fail |
| `Text.ParseIntFails` | bot.py:18 | `int(text)` fails exactly when the stripped text is empty, a bare sign, or holds a character that is neither a digit nor a leading sign |
| `Bot.ParseAllStrings` | bot.py:18 | parsing the decimal forms of ids gives the ids back |
| `Bot.TopicIdsRoundTrip` | bot.py:18 | a setting written as ids joined by `,` parses back to the same ids in the same order, the empty list included |
| `Bot.GenerateGroupInvite` | bot.py:67-76 | raises exactly when there are no topics; otherwise the invite is named after a topic from `TOPIC_IDS`, for the group chat, without join requests |
| `Bot.RoleRegistry.constructor` | bot.py:28 | the registry starts empty |
| `Bot.RoleRegistry.Register` | bot.py:178-199 | fewer than two words: usage reply and no change; otherwise only the sender's entry is set to the role and the second word, whole |
| `Bot.RoleRegistry.CmdSeller` | bot.py:178-187 | `/seller`: as above with role seller; extra words ignored |
| `Bot.RoleRegistry.CmdBuyer` | bot.py:190-199 | `/buyer`: as above with role buyer |
| `Bot.CommandWords` | bot.py:180-185 | in a command typed with arguments, the second word is the first argument |
| `Bot.TwoWords` | bot.py:180 | a word, whitespace and a second word split to exactly those two words |
| `Bot.SpacedCommandWords` | bot.py:180-185 | whitespace before the command and any whitespace run between command and wallet leave the wallet as the second word |
| `Bot.SellerThenBuyer` | bot.py:185-198 | seller with A then buyer with B leaves role buyer and address B, and changes no other user's entry |
| `AppTdlib.LoadSettings` | app_tdlib.py:20-30 | a non-integer API id raises `ValueError`; otherwise fails fast unless id, hash, token and session are all set, with the client-settings error checked first; on success the settings are exactly the parsed id and the hash, token and session as read, with the base name defaulting to `Escrow` |
| `AppTdlib.GenerateSuffix` | app_tdlib.py:52-56 | the suffix has exactly the requested length and only letters `a`-`z` |
| `AppTdlib.EverySuffixPossible` | app_tdlib.py:52-56 | every lowercase string of the length is produced by some draws |
| `AppTdlib.SuffixDeterminesPicks` | app_tdlib.py:52-56 | different draws give different suffixes |
| `AppTdlib.TitleShape` | app_tdlib.py:69-71 | the title is the base name, ` #`, and five lowercase letters |
| `AppTdlib.BotPrivileges` | app_tdlib.py:88-97 | the bot gets manage chat, delete messages, manage video chats, invite users, pin messages, restrict members and change info, and not promote members |
| `AppTdlib.InviteLink` | app_tdlib.py:102-107 | the exported link if export succeeds, else the created one; fails only when both fail |
| `AppTdlib.ProvisionFailsOnlyWhenFatal` | app_tdlib.py:73-109 | provisioning fails exactly when the group cannot be created or neither link call succeeds; a room carries the generated title and new chat id |
| `AppTdlib.ProvisionRoom` | app_tdlib.py:73-109 | create first, and nothing else when it fails; then add and promote the bot `@<username>`, whose outcomes never affect the result; then export, and create a link only if export failed |
| `AppTdlib.EscrowRooms.constructor` | app_tdlib.py:49 | the username cache starts empty |
| `AppTdlib.EscrowRooms.CreateNewGroup` | app_tdlib.py:58-109 | the username is fetched only while the cache is falsy (a failure aborts before any other call); the title is the base name with the drawn suffix; then provisioning as above |

## Left out

- HTTP calls (`requests.get`/`post`, timeouts, `raise_for_status`): requests are returned as values and a fetched invoice is an input, so transport failures and gateway rejections are not modelled.
- Duplicate invoices after a timed-out `create_invoice` are not modelled, because the model sends nothing.
- QR/PNG encoding with the `qrcode` library: a foreign library with binary output. Each `generate_payment_qr` stops at the URI.
- All aiogram and pyrogram client calls other than the provisioning steps. This covers replies, keyboards, menu and welcome text, command registration, and the handlers `cmd_start`, `cmd_menu`, `cmd_create` and `handle_create`. These are UI and I/O.
- The `/pay` handlers, including the 60-second sleep and message deletion, the temp-file write and the caption text: timing and I/O.
- `main()` in app_tdlib.py, which starts both clients and fills `BOT_USERNAME_CACHE` at startup: async start and stop.
- `str(amount)` float formatting: the amount is an opaque string.
- `dotenv` and `os.getenv`: environment values are parameters (`None` when unset).
- The module setup of bot_groups.py (bot_groups.py:17-27): its `TOPIC_IDS` line is bot.py:18 word for word and is modelled there, but the `GROUP_CHAT_ID` parsing and the fail-fast `RuntimeError` for a missing `BOT_TOKEN` (bot_groups.py:26-27) are start-up checks outside the modelled operations. bot.py has no such `BOT_TOKEN` check and passes the token on unchecked.
- `GROUP_CHAT_ID` parsing in bot.py: the group chat id is a parameter.
- connect_bot.py and check_env.py: a ping bot and an environment printer.
- Real randomness: each `random.choice` is an input index below the size of what it chooses from.
- Percent-encoding of the address in `bitcoin:` URIs: the code does none, so an address holding `?` does not read back as itself (`PaymentUri.QueryInAddressMisread`); the read-back lemmas require a `?`-free address.
- `Text.ParseInt` accepts only ASCII digits and rejects `_` separators. Python's `int()` also accepts those.
- `Text.ParseInt` has no length limit. From Python 3.11, CPython's `int()` raises `ValueError` on a text of more than 4300 decimal digits, so a longer `TOPIC_IDS` piece parses in the model but makes bot.py:18 fail.
- `Text.IntToStringParse` holds for every integer only in the model: in CPython 3.11 and later, `str(i)` itself raises `ValueError` for an integer of more than 4300 decimal digits.
- `AppTdlib.LoadSettings` approximates the text of `int()`'s `ValueError` message by quoting the input in single quotes.
- JSON numbers for `paymentMethod`, `destination` and `amount`: these fields are modelled as strings only.
- A JSON `null` destination or amount is modelled as an absent field. Python treats the two the same, so this loses nothing.
- A JSON `null` `checkout` object is not modelled: every invoice is read as having a method list. In the code, `inv.get("checkout", {}).get("paymentMethods", [])` raises `AttributeError` on `"checkout": null` (btcpay.py:106, bot_groups.py:70, bot.py:49). A missing `checkout` key does give the empty list, as modelled.
- A JSON `null` `paymentMethod` label is read as `""`. In the code, `"Lightning" in None` would raise `TypeError`, and the model does not raise it.
