/**
 * app_tdlib.py: escrow-room provisioning. A user account creates a
 * supergroup titled `<base> #<5 lowercase letters>`, tries to add and
 * promote the bot (both best effort), and exports an invite link,
 * falling back to creating one. Each remote call is an outcome given as
 * input; the calls made are returned in order.
 */
module AppTdlib {
  import opened PyValues
  import opened Text

  // ---------------------------------------------------------------------------
  // Startup configuration

  const DefaultGroupBaseName := "Escrow"
  const MissingClientSettings := "Missing TG_API_ID / TG_API_HASH / BOT_TOKEN in .env"
  const MissingSession := "Missing USER_SESSION_STRING in .env (your phone login)"

  datatype Settings = Settings(apiId: int, apiHash: string, botToken: string, userSessionString: string, groupBaseName: string)

  /**
   * The module-level settings and the two fail-fast checks: the API id
   * (`int(os.getenv("TG_API_ID", "0") or "0")`), hash and bot token must
   * all be truthy, then the user session string must be set.
   */
  function LoadSettings(apiIdEnv: Option<string>, apiHashEnv: Option<string>, botTokenEnv: Option<string>,
                        sessionEnv: Option<string>, groupBaseNameEnv: Option<string>): (r: Result<Settings>)
    ensures var idText := if Truthy(apiIdEnv) then apiIdEnv.value else "0";
      && (ParseInt(idText).None? ==> r.Raise? && r.exc.ValueError?)
      && (ParseInt(idText).Some? ==>
            && (r.Ok? <==> ParseInt(idText).value != 0 && Truthy(apiHashEnv) && Truthy(botTokenEnv) && Truthy(sessionEnv))
            && (r.Raise? && (ParseInt(idText).value == 0 || !Truthy(apiHashEnv) || !Truthy(botTokenEnv)) ==>
                  r.exc == RuntimeError(MissingClientSettings))
            && (r.Raise? && ParseInt(idText).value != 0 && Truthy(apiHashEnv) && Truthy(botTokenEnv) ==>
                  r.exc == RuntimeError(MissingSession)))
    ensures r.Ok? ==> r.value.groupBaseName == groupBaseNameEnv.GetOr(DefaultGroupBaseName)
    ensures r.Ok? ==> r.value.apiId != 0 && r.value.apiHash != "" && r.value.botToken != "" && r.value.userSessionString != ""
    ensures r.Ok? ==>
      var idText := if Truthy(apiIdEnv) then apiIdEnv.value else "0";
      && ParseInt(idText).Some?
      && r.value == Settings(ParseInt(idText).value, apiHashEnv.value, botTokenEnv.value, sessionEnv.value,
                             groupBaseNameEnv.GetOr(DefaultGroupBaseName))
  {
    var idText := if Truthy(apiIdEnv) then apiIdEnv.value else "0";
    match ParseInt(idText)
    case None => Raise(ValueError("invalid literal for int() with base 10: '" + idText + "'"))
    case Some(apiId) =>
      var apiHash := apiHashEnv.GetOr("");
      var botToken := botTokenEnv.GetOr("");
      var session := sessionEnv.GetOr("");
      if apiId == 0 || apiHash == "" || botToken == "" then Raise(RuntimeError(MissingClientSettings))
      else if session == "" then Raise(RuntimeError(MissingSession))
      else Ok(Settings(apiId, apiHash, botToken, session, groupBaseNameEnv.GetOr(DefaultGroupBaseName)))
  }

  // ---------------------------------------------------------------------------
  // Suffix and title

  const Alphabet := "abcdefghijklmnopqrstuvwxyz"
  const SuffixLength := 5

  predicate IsLower(c: char) {
    'a' <= c <= 'z'
  }

  /** The alphabet is `a` to `z` in code-point order. */
  lemma AlphabetOrder(i: nat)
    requires i < |Alphabet|
    ensures Alphabet[i] as int == 'a' as int + i
  {
  }

  /** Each index is one `random.choice` draw from the alphabet. */
  predicate ValidPicks(picks: seq<nat>) {
    forall i :: 0 <= i < |picks| ==> picks[i] < |Alphabet|
  }

  /** `generate_suffix(length)`, given the alphabet positions the draws pick. */
  function GenerateSuffix(length: nat, picks: seq<nat>): (s: string)
    requires |picks| == length && ValidPicks(picks)
    ensures |s| == length
    ensures forall i :: 0 <= i < |s| ==> IsLower(s[i])
  {
    if length == 0 then ""
    else [Alphabet[picks[0]]] + GenerateSuffix(length - 1, picks[1..])
  }

  /** The draws that produce a given lowercase string. */
  function Picks(s: string): (picks: seq<nat>)
    requires forall i :: 0 <= i < |s| ==> IsLower(s[i])
    ensures |picks| == |s| && ValidPicks(picks)
  {
    if s == "" then []
    else
      assert IsLower(s[0]);
      [(s[0] as int - 'a' as int) as nat] + Picks(s[1..])
  }

  /** Every lowercase string of the right length is a possible suffix. */
  lemma {:induction false} EverySuffixPossible(s: string)
    requires forall i :: 0 <= i < |s| ==> IsLower(s[i])
    ensures GenerateSuffix(|s|, Picks(s)) == s
  {
    if s != "" {
      var p := Picks(s);
      assert IsLower(s[0]);
      var first := s[0] as int - 'a' as int;
      assert p == [first as nat] + Picks(s[1..]);
      AlphabetOrder(first);
      assert Alphabet[p[0]] == s[0];
      EverySuffixPossible(s[1..]);
      assert GenerateSuffix(|s|, p) == [s[0]] + GenerateSuffix(|s| - 1, p[1..]);
      assert [s[0]] + s[1..] == s;
    }
  }

  /** Different draws give different suffixes. */
  lemma {:induction false} SuffixDeterminesPicks(length: nat, p: seq<nat>, q: seq<nat>)
    requires |p| == length && ValidPicks(p)
    requires |q| == length && ValidPicks(q)
    requires GenerateSuffix(length, p) == GenerateSuffix(length, q)
    ensures p == q
  {
    if length > 0 {
      var sp, sq := GenerateSuffix(length, p), GenerateSuffix(length, q);
      assert sp[0] == Alphabet[p[0]] && sq[0] == Alphabet[q[0]];
      AlphabetOrder(p[0]);
      AlphabetOrder(q[0]);
      assert sp[1..] == GenerateSuffix(length - 1, p[1..]);
      assert sq[1..] == GenerateSuffix(length - 1, q[1..]);
      SuffixDeterminesPicks(length - 1, p[1..], q[1..]);
      assert p == [p[0]] + p[1..] && q == [q[0]] + q[1..];
    }
  }

  /** `f"{GROUP_BASE_NAME} #{code}"`. */
  function Title(baseName: string, code: string): string {
    baseName + " #" + code
  }

  /** A room title is the base name, " #", and five lowercase letters. */
  lemma TitleShape(baseName: string, picks: seq<nat>)
    requires |picks| == SuffixLength && ValidPicks(picks)
    ensures var t := Title(baseName, GenerateSuffix(SuffixLength, picks));
      && |t| == |baseName| + 7
      && t[..|baseName|] == baseName
      && t[|baseName|..|baseName| + 2] == " #"
      && t[|baseName| + 2..] == GenerateSuffix(SuffixLength, picks)
      && forall i :: |baseName| + 2 <= i < |t| ==> IsLower(t[i])
  {
  }

  // ---------------------------------------------------------------------------
  // Remote calls and their outcomes

  /** `ChatPrivileges` as passed to `promote_chat_member`. */
  datatype Privileges = Privileges(
    canManageChat: bool, canDeleteMessages: bool, canManageVideoChats: bool, canInviteUsers: bool,
    canPinMessages: bool, canRestrictMembers: bool, canChangeInfo: bool, canPromoteMembers: bool)

  /** The bot's admin rights: everything listed except promoting others. */
  function BotPrivileges(): (p: Privileges)
    ensures p.canManageChat && p.canDeleteMessages && p.canManageVideoChats && p.canInviteUsers
    ensures p.canPinMessages && p.canRestrictMembers && p.canChangeInfo
    ensures !p.canPromoteMembers
  {
    Privileges(true, true, true, true, true, true, true, false)
  }

  const RoomDescription := "Escrow room created by WealthEscrowBot"

  /** One call to the Telegram API, by the bot (`GetMe`) or by the user account. */
  datatype Call =
    | GetMe
    | CreateSupergroup(title: string, description: string)
    | AddChatMembers(chatId: int, userIds: seq<string>)
    | PromoteChatMember(chatId: int, userId: string, privileges: Privileges)
    | ExportChatInviteLink(chatId: int)
    | CreateChatInviteLink(chatId: int)

  /**
   * What each remote call would answer: the bot's username, the new chat's
   * id, success of the two best-effort calls, and the two invite links.
   */
  datatype Remote = Remote(
    getMe: Result<Option<string>>,
    createSupergroup: Result<int>,
    addChatMembers: Result<()>,
    promoteChatMember: Result<()>,
    exportChatInviteLink: Result<string>,
    createChatInviteLink: Result<string>)

  /** `(invite_link, title, chat.id)`. */
  datatype Room = Room(inviteLink: string, title: string, chatId: int)

  /** The invite link: exported if that works, else created; the creation error otherwise. */
  function InviteLink(exported: Result<string>, created: Result<string>): (r: Result<string>)
    ensures r.Raise? <==> exported.Raise? && created.Raise?
    ensures exported.Ok? ==> r == exported
    ensures exported.Raise? ==> r == created
  {
    if exported.Ok? then exported else created
  }

  /**
   * The outcome and call sequence of provisioning a room with a known bot
   * username and title: creating the group is fatal, adding and promoting
   * the bot never affect the outcome, and the invite link falls back from
   * export to creation.
   */
  ghost predicate ProvisionTrace(botUsername: string, title: string, remote: Remote, r: Result<Room>, calls: seq<Call>) {
    && calls != [] && calls[0] == CreateSupergroup(title, RoomDescription)
    && match remote.createSupergroup
       case Raise(e) => r == Raise(e) && |calls| == 1
       case Ok(chatId) =>
         var bot := "@" + botUsername;
         && |calls| >= 4
         && calls[1] == AddChatMembers(chatId, [bot])
         && calls[2] == PromoteChatMember(chatId, bot, BotPrivileges())
         && calls[3] == ExportChatInviteLink(chatId)
         && calls[4..] == (if remote.exportChatInviteLink.Ok? then [] else [CreateChatInviteLink(chatId)])
         && match InviteLink(remote.exportChatInviteLink, remote.createChatInviteLink)
            case Ok(link) => r == Ok(Room(link, title, chatId))
            case Raise(e) => r == Raise(e)
  }

  /** Provisioning fails exactly when the group cannot be created or no invite link can be had. */
  lemma ProvisionFailsOnlyWhenFatal(botUsername: string, title: string, remote: Remote, r: Result<Room>, calls: seq<Call>)
    requires ProvisionTrace(botUsername, title, remote, r, calls)
    ensures r.Raise? <==>
      remote.createSupergroup.Raise? || (remote.exportChatInviteLink.Raise? && remote.createChatInviteLink.Raise?)
    ensures r.Ok? ==> r.value.title == title && r.value.chatId == remote.createSupergroup.value
  {
  }

  /**
   * Lines 73-109 of `create_new_group`, once the bot username and title are
   * known: the steps in order, swallowing failures of the two bot steps.
   */
  method ProvisionRoom(botUsername: string, title: string, remote: Remote) returns (r: Result<Room>, calls: seq<Call>)
    ensures ProvisionTrace(botUsername, title, remote, r, calls)
  {
    calls := [CreateSupergroup(title, RoomDescription)];
    if remote.createSupergroup.Raise? {
      return Raise(remote.createSupergroup.exc), calls;
    }
    var chatId := remote.createSupergroup.value;
    var bot := "@" + botUsername;
    // Adding the bot: a failure (already a member, or joining by link only) is ignored.
    calls := calls + [AddChatMembers(chatId, [bot])];
    // Promoting the bot: a failure is ignored as well.
    calls := calls + [PromoteChatMember(chatId, bot, BotPrivileges())];
    calls := calls + [ExportChatInviteLink(chatId)];
    var link: Result<string>;
    if remote.exportChatInviteLink.Ok? {
      link := remote.exportChatInviteLink;
    } else {
      calls := calls + [CreateChatInviteLink(chatId)];
      link := remote.createChatInviteLink;
    }
    match link
    case Ok(l) => r := Ok(Room(l, title, chatId));
    case Raise(e) => r := Raise(e);
  }

  /** The process-wide state of app_tdlib.py: the group base name and `BOT_USERNAME_CACHE`. */
  class EscrowRooms {
    const groupBaseName: string
    var botUsernameCache: Option<string>

    constructor (groupBaseName: string)
      ensures this.groupBaseName == groupBaseName && botUsernameCache == None
    {
      this.groupBaseName := groupBaseName;
      botUsernameCache := None;
    }

    /**
     * `create_new_group`: fetch the bot username only while the cache is
     * empty (a failure there aborts), draw the suffix, then provision.
     */
    method CreateNewGroup(picks: seq<nat>, remote: Remote) returns (r: Result<Room>, calls: seq<Call>)
      requires |picks| == SuffixLength && ValidPicks(picks)
      modifies this
      ensures Truthy(old(botUsernameCache)) ==>
        && botUsernameCache == old(botUsernameCache)
        && ProvisionTrace(botUsernameCache.value, Title(groupBaseName, GenerateSuffix(SuffixLength, picks)), remote, r, calls)
      ensures !Truthy(old(botUsernameCache)) && remote.getMe.Raise? ==>
        && botUsernameCache == old(botUsernameCache)
        && r == Raise(remote.getMe.exc) && calls == [GetMe]
      ensures !Truthy(old(botUsernameCache)) && remote.getMe.Ok? ==>
        && botUsernameCache == remote.getMe.value
        && calls != [] && calls[0] == GetMe
        && ProvisionTrace(Formatted(remote.getMe.value), Title(groupBaseName, GenerateSuffix(SuffixLength, picks)),
                          remote, r, calls[1..])
    {
      calls := [];
      if !Truthy(botUsernameCache) {
        calls := [GetMe];
        if remote.getMe.Raise? {
          return Raise(remote.getMe.exc), calls;
        }
        botUsernameCache := remote.getMe.value;
      }
      var code := GenerateSuffix(SuffixLength, picks);
      var title := Title(groupBaseName, code);
      var rest;
      r, rest := ProvisionRoom(Formatted(botUsernameCache), title, remote);
      calls := calls + rest;
    }
  }
}
