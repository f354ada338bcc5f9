/** The `guildMemberAdd` handler (bot.js): load the guild's enabled welcome row, resolve the
    channel, build the text, send it with or without an embed, then grant the auto-roles. */
module Welcome {
  import opened Wrappers
  import opened Text
  import opened Json
  import opened Colour
  import opened Platform
  import opened Store

  const USER_TOKEN: string := "{usuario}"
  const NAME_TOKEN: string := "{nombre}"
  const SERVER_TOKEN: string := "{servidor}"
  const MEMBERS_TOKEN: string := "{miembros}"

  datatype Member = Member(id: string, username: string)

  /** What the handler can learn about the guild that was joined. */
  datatype JoinGuild = JoinGuild(
    id: string,
    name: string,
    memberCount: nat,
    channels: set<string>,      // channel ids that `guild.channels.fetch` resolves
    roles: seq<GuildRole>,      // the roles `guild.roles.fetch(id)` can find
    botTop: Option<int>,        // position of the bot's highest role; None when `members.me` is not cached
    addFailures: set<string>)   // role ids for which `member.roles.add` rejects

  // ---------------------------------------------------------------------------
  // Message text

  /** `config.mensaje_bienvenida || default`. */
  function Template(message: Option<string>, username: string): (t: string)
    ensures Given(message) ==> t == message.value
    ensures !Given(message) ==> t == "¡Bienvenido " + username + " al servidor!"
  {
    if Given(message) then message.value else "¡Bienvenido " + username + " al servidor!"
  }

  /** The four global replacements, in this order; each works on the previous one's output. */
  function Resolve(template: string, userId: string, username: string, guildName: string, memberCount: nat): string {
    var withUser := ReplaceAll(template, USER_TOKEN, Mention(userId));
    var withName := ReplaceAll(withUser, NAME_TOKEN, username);
    var withServer := ReplaceAll(withName, SERVER_TOKEN, guildName);
    ReplaceAll(withServer, MEMBERS_TOKEN, NatToString(memberCount))
  }

  function WelcomeText(row: WelcomeRow, member: Member, guild: JoinGuild): string {
    Resolve(Template(row.message, member.username), member.id, member.username, guild.name, guild.memberCount)
  }

  predicate NoTokens(t: string) {
    !Contains(t, USER_TOKEN) && !Contains(t, NAME_TOKEN) && !Contains(t, SERVER_TOKEN) && !Contains(t, MEMBERS_TOKEN)
  }

  /** A template without any of the four tokens is sent as it is. */
  lemma ResolveWithoutTokens(t: string, userId: string, username: string, guildName: string, memberCount: nat)
    requires NoTokens(t)
    ensures Resolve(t, userId, username, guildName, memberCount) == t
  {
    ReplaceAllAbsent(t, USER_TOKEN, Mention(userId));
    ReplaceAllAbsent(t, NAME_TOKEN, username);
    ReplaceAllAbsent(t, SERVER_TOKEN, guildName);
    ReplaceAllAbsent(t, MEMBERS_TOKEN, NatToString(memberCount));
  }

  // ---------------------------------------------------------------------------
  // Embed

  datatype EmbedColour = HexColour(parsed: HexInt) | RawColour(value: JValue)

  /** The embed as handed to the builder: a field is None when its setter is not called. */
  datatype EmbedPayload = EmbedPayload(
    title: Option<JValue>,
    description: Option<JValue>,
    colour: Option<EmbedColour>,
    image: Option<JValue>,
    thumbnail: Option<JValue>,
    footerText: Option<JValue>)

  /** A string starting with `#` is parsed as hexadecimal after its first `#`; any other
      value goes to the builder unchanged. */
  function ColourOf(c: JValue): (r: EmbedColour)
    ensures c.JStr? && |c.s| > 0 && c.s[0] == '#' ==> r == HexColour(ParseIntHex(c.s[1..]))
    ensures !(c.JStr? && |c.s| > 0 && c.s[0] == '#') ==> r == RawColour(c)
  {
    if c.JStr? && |c.s| > 0 && c.s[0] == '#' then HexColour(ParseIntHex(c.s[1..])) else RawColour(c)
  }

  /** `if (x) embed.setX(x)`. */
  function IfTruthy(o: Option<JValue>): (r: Option<JValue>)
    ensures r.Some? <==> Present(o)
    ensures r.Some? ==> r == o
  {
    if Present(o) then o else None
  }

  /** The builder calls of bot.js: the Spanish keys, passed on unwrapped. */
  function BuildEmbed(d: JValue): EmbedPayload
    requires d != JNull
  {
    var colour := Prop(d, "color");
    EmbedPayload(
      IfTruthy(Prop(d, "titulo")),
      IfTruthy(Prop(d, "descripcion")),
      if Present(colour) then Some(ColourOf(colour.value)) else None,
      IfTruthy(Prop(d, "imagen")),
      IfTruthy(Prop(d, "thumbnail")),
      IfTruthy(Prop(d, "footer")))
  }

  /** The parsed embed column when the embed branch reaches the builder: the column is
      truthy, parses, and is not null (reading a property of null throws). */
  function EmbedData(c: Stored): (r: Option<JValue>)
    ensures r.Some? <==> Filled(c) && c.parsed.Json? && c.parsed.value != JNull
    ensures r.Some? ==> r.value == c.parsed.value
  {
    if Filled(c) && c.parsed.Json? && c.parsed.value != JNull then Some(c.parsed.value) else None
  }

  // ---------------------------------------------------------------------------
  // Effects

  datatype Payload = Plain(content: string) | Rich(content: string, embed: EmbedPayload)

  /** One external call and whether it succeeded. A failed `Rich` send stands for the builder
      rejecting a field or the platform rejecting the message. */
  datatype Effect = Send(channel: string, payload: Payload, delivered: bool) | AddRole(roleId: string, granted: bool)

  /** `Rejected`: the callback's promise rejects because a plain-text send failed. */
  datatype Outcome = Finished | Rejected

  datatype JoinResult = JoinResult(effects: seq<Effect>, outcome: Outcome)

  /** The send step: the embed message, falling back to plain text when anything in the embed
      branch throws; without an embed, plain text. Returns the sends and whether one got through. */
  function Announce(embed: Stored, channel: string, text: string, embedOk: bool, plainOk: bool): (seq<Effect>, bool) {
    var plain := Send(channel, Plain(text), plainOk);
    match EmbedData(embed)
    case Some(d) =>
      var rich := Send(channel, Rich(text, BuildEmbed(d)), embedOk);
      if embedOk then ([rich], true) else ([rich, plain], plainOk)
    case None => ([plain], plainOk)
  }

  // ---------------------------------------------------------------------------
  // Auto-roles

  /** What `guild.roles.fetch(x).catch(() => null)` gives for one stored element. A falsy id
      fetches the whole role collection, which is truthy but has no position. */
  datatype RoleLookup = NoRole | Found(role: GuildRole) | WholeCollection

  function Resolved(r: Option<GuildRole>): RoleLookup {
    if r.Some? then Found(r.value) else NoRole
  }

  function Lookup(roles: seq<GuildRole>, item: JValue): RoleLookup {
    match item
    case JStr(s) => if s == "" then WholeCollection else Resolved(FindRole(roles, s))
    case JNum(n) => if n == 0 then WholeCollection else Resolved(FindRole(roles, IntToString(n)))
    case JNull => WholeCollection
    case JBool(b) => if b then NoRole else WholeCollection
    case _ => NoRole
  }

  /** The elements the role loop walks: none unless `autorol_habilitado` and `roles_auto` are
      truthy, the column parses and the value is iterable (otherwise the caught throw ends it). */
  function RoleItems(row: WelcomeRow): seq<JValue> {
    if row.autoRole != 0 && Filled(row.autoRoles) && row.autoRoles.parsed.Json? then
      Iterate(row.autoRoles.parsed.value).GetOr([])
    else []
  }

  /** The role loop: each element in order; a role is added when it resolves and the bot's
      highest position is strictly above it; a failed add is swallowed. Reading the bot's
      position with no bot member throws, which ends the loop. */
  function GrantRun(items: seq<JValue>, roles: seq<GuildRole>, botTop: Option<int>, failures: set<string>): (r: seq<Effect>)
    ensures |r| <= |items|
    ensures forall e :: e in r ==> e.AddRole? && e.granted == (e.roleId !in failures)
    decreases |items|
  {
    if items == [] then []
    else
      var rest := GrantRun(items[1..], roles, botTop, failures);
      match Lookup(roles, items[0])
      case NoRole => rest
      case WholeCollection => if botTop.None? then [] else rest
      case Found(role) =>
        if botTop.None? then []
        else if botTop.value > role.position then [AddRole(role.id, role.id !in failures)] + rest
        else rest
  }

  // ---------------------------------------------------------------------------
  // The whole handler

  /** True when the handler returns before sending: the query failed, there is no enabled row,
      its channel id is empty, or the channel does not resolve. */
  predicate Quiet(table: WelcomeTable, queryOk: bool, guild: JoinGuild) {
    var row := SelectEnabled(table, guild.id);
    !queryOk || row.None? || !Given(row.value.channelId) || row.value.channelId.value !in guild.channels
  }

  function JoinEffects(table: WelcomeTable, queryOk: bool, member: Member, guild: JoinGuild, embedOk: bool, plainOk: bool): JoinResult {
    if Quiet(table, queryOk, guild) then JoinResult([], Finished)
    else
      var row := SelectEnabled(table, guild.id).value;
      var (sends, delivered) := Announce(row.embed, row.channelId.value, WelcomeText(row, member, guild), embedOk, plainOk);
      if !delivered then JoinResult(sends, Rejected)
      else JoinResult(sends + GrantRun(RoleItems(row), guild.roles, guild.botTop, guild.addFailures), Finished)
  }

  /** The handler as it runs: early returns, the send, then the loop over the role ids.
      `queryOk` is whether the row query succeeded; `embedOk` and `plainOk` whether the embed
      message and a plain-text message get through. */
  method OnMemberJoin(table: WelcomeTable, queryOk: bool, member: Member, guild: JoinGuild, embedOk: bool, plainOk: bool)
    returns (effects: seq<Effect>, outcome: Outcome)
    ensures JoinResult(effects, outcome) == JoinEffects(table, queryOk, member, guild, embedOk, plainOk)
  {
    effects, outcome := [], Finished;
    if !queryOk {
      return;
    }
    var config := SelectEnabled(table, guild.id);
    if config.None? || !Given(config.value.channelId) {
      return;
    }
    var row := config.value;
    var channel := row.channelId.value;
    if channel !in guild.channels {
      return;
    }
    var text := WelcomeText(row, member, guild);
    var plain := Send(channel, Plain(text), plainOk);
    var data := EmbedData(row.embed);
    if data.Some? {
      effects := [Send(channel, Rich(text, BuildEmbed(data.value)), embedOk)];
      if !embedOk {
        effects := effects + [plain];
        assert effects == [effects[0], plain];
        if !plainOk {
          outcome := Rejected;
          return;
        }
      }
    } else {
      effects := [plain];
      if !plainOk {
        outcome := Rejected;
        return;
      }
    }
    assert (effects, true) == Announce(row.embed, channel, text, embedOk, plainOk);
    var granted := GrantRoles(RoleItems(row), guild);
    effects := effects + granted;
  }

  /** The `for (const rolId of roles)` loop of the handler. */
  method GrantRoles(items: seq<JValue>, guild: JoinGuild) returns (effects: seq<Effect>)
    ensures effects == GrantRun(items, guild.roles, guild.botTop, guild.addFailures)
  {
    var roles, botTop, failures := guild.roles, guild.botTop, guild.addFailures;
    effects := [];
    var i := 0;
    while i < |items|
      invariant 0 <= i <= |items|
      invariant effects + GrantRun(items[i..], roles, botTop, failures) == GrantRun(items, roles, botTop, failures)
      decreases |items| - i
    {
      assert items[i..][0] == items[i] && items[i..][1..] == items[i + 1..];
      var rest := GrantRun(items[i + 1..], roles, botTop, failures);
      var hit := Lookup(roles, items[i]);
      if !hit.NoRole? && botTop.None? {
        assert GrantRun(items[i..], roles, botTop, failures) == [];
        break;
      }
      if hit.Found? && botTop.value > hit.role.position {
        var add := AddRole(hit.role.id, hit.role.id !in failures);
        assert GrantRun(items[i..], roles, botTop, failures) == [add] + rest;
        assert effects + ([add] + rest) == (effects + [add]) + rest;
        effects := effects + [add];
      } else {
        assert GrantRun(items[i..], roles, botTop, failures) == rest;
      }
      i := i + 1;
    }
    if i == |items| {
      assert items[i..] == [];
    }
  }

  // ---------------------------------------------------------------------------
  // Properties of the role loop

  function AttemptedIds(effects: seq<Effect>): (ids: seq<string>)
    requires forall e :: e in effects ==> e.AddRole?
    ensures |ids| == |effects| && forall k :: 0 <= k < |ids| ==> ids[k] == effects[k].roleId
  {
    seq(|effects|, k requires 0 <= k < |effects| => effects[k].roleId)
  }

  /** Element `item` resolves to the role `id`, which lies strictly below position `botTop`. */
  predicate Grants(roles: seq<GuildRole>, item: JValue, botTop: int, id: string) {
    var hit := Lookup(roles, item);
    hit.Found? && hit.role.id == id && botTop > hit.role.position
  }

  /** Without a cached bot member no role is ever added. */
  lemma {:induction false} GrantRunWithoutBotMember(items: seq<JValue>, roles: seq<GuildRole>, failures: set<string>)
    ensures GrantRun(items, roles, None, failures) == []
    decreases |items|
  {
    if items != [] {
      GrantRunWithoutBotMember(items[1..], roles, failures);
    }
  }

  /** Elements are handled one after the other in stored order, each on its own. */
  lemma {:induction false} GrantRunConcat(a: seq<JValue>, b: seq<JValue>, roles: seq<GuildRole>, botTop: int, failures: set<string>)
    ensures GrantRun(a + b, roles, Some(botTop), failures)
         == GrantRun(a, roles, Some(botTop), failures) + GrantRun(b, roles, Some(botTop), failures)
    decreases |a|
  {
    if a == [] {
      assert a + b == b;
    } else {
      assert (a + b)[0] == a[0] && (a + b)[1..] == a[1..] + b;
      GrantRunConcat(a[1..], b, roles, botTop, failures);
    }
  }

  /** The id element `item` makes the loop add, if any. */
  function FirstGrant(roles: seq<GuildRole>, item: JValue, botTop: int): (ids: seq<string>)
    ensures forall id :: id in ids <==> Grants(roles, item, botTop, id)
  {
    var hit := Lookup(roles, item);
    if hit.Found? && botTop > hit.role.position then [hit.role.id] else []
  }

  lemma AttemptedCons(e: Effect, rest: seq<Effect>)
    requires e.AddRole? && forall x :: x in rest ==> x.AddRole?
    ensures AttemptedIds([e] + rest) == [e.roleId] + AttemptedIds(rest)
  {
  }

  /** One step of the loop, as seen in the ids it attempts. */
  lemma AttemptedStep(items: seq<JValue>, roles: seq<GuildRole>, botTop: int, failures: set<string>)
    requires items != []
    ensures AttemptedIds(GrantRun(items, roles, Some(botTop), failures))
         == FirstGrant(roles, items[0], botTop) + AttemptedIds(GrantRun(items[1..], roles, Some(botTop), failures))
  {
    var rest := GrantRun(items[1..], roles, Some(botTop), failures);
    var hit := Lookup(roles, items[0]);
    if hit.Found? && botTop > hit.role.position {
      AttemptedCons(AddRole(hit.role.id, hit.role.id !in failures), rest);
    } else {
      assert GrantRun(items, roles, Some(botTop), failures) == rest;
    }
  }

  /** A role is attempted iff some stored element resolves to it and the bot's highest
      position is strictly greater than its position. */
  lemma {:induction false} GrantRunAttempts(items: seq<JValue>, roles: seq<GuildRole>, botTop: int, failures: set<string>, id: string)
    ensures id in AttemptedIds(GrantRun(items, roles, Some(botTop), failures))
        <==> exists k :: 0 <= k < |items| && Grants(roles, items[k], botTop, id)
    decreases |items|
  {
    if items != [] {
      GrantRunAttempts(items[1..], roles, botTop, failures, id);
      AttemptedStep(items, roles, botTop, failures);
      assert forall k :: 1 <= k < |items| ==> items[k] == items[1..][k - 1];
      assert forall k :: 0 <= k < |items| - 1 ==> items[1..][k] == items[k + 1];
    }
  }

  /** Which add calls fail changes nothing about which roles are attempted, or in what order. */
  lemma {:induction false} GrantRunIgnoresFailures(items: seq<JValue>, roles: seq<GuildRole>, botTop: Option<int>, f1: set<string>, f2: set<string>)
    ensures AttemptedIds(GrantRun(items, roles, botTop, f1)) == AttemptedIds(GrantRun(items, roles, botTop, f2))
    decreases |items|
  {
    if items != [] {
      GrantRunIgnoresFailures(items[1..], roles, botTop, f1, f2);
    }
  }

  // ---------------------------------------------------------------------------
  // Properties of the handler

  /** Nothing is sent and no role is added exactly when the handler returns early; an early
      return never rejects. */
  lemma JoinQuiet(table: WelcomeTable, queryOk: bool, member: Member, guild: JoinGuild, embedOk: bool, plainOk: bool)
    ensures var r := JoinEffects(table, queryOk, member, guild, embedOk, plainOk);
      (r.effects == [] <==> Quiet(table, queryOk, guild)) && (Quiet(table, queryOk, guild) ==> r.outcome == Finished)
  {
  }

  /** Otherwise the first effect is a send of the welcome text to the configured channel; a
      plain-text send comes first when there is no usable embed, and second, with the same
      text, when the embed message fails. */
  lemma JoinAnnounces(table: WelcomeTable, queryOk: bool, member: Member, guild: JoinGuild, embedOk: bool, plainOk: bool)
    requires !Quiet(table, queryOk, guild)
    ensures var row := SelectEnabled(table, guild.id).value;
      var r := JoinEffects(table, queryOk, member, guild, embedOk, plainOk);
      var plain := Send(row.channelId.value, Plain(WelcomeText(row, member, guild)), plainOk);
      && |r.effects| >= 1
      && r.effects[0].Send? && r.effects[0].channel == row.channelId.value
      && r.effects[0].payload.content == WelcomeText(row, member, guild)
      && (EmbedData(row.embed).None? ==> r.effects[0] == plain)
      && (EmbedData(row.embed).Some? ==> r.effects[0].payload == Rich(WelcomeText(row, member, guild), BuildEmbed(EmbedData(row.embed).value)))
      && (EmbedData(row.embed).Some? && !embedOk ==> |r.effects| >= 2 && r.effects[1] == plain)
  {
  }

  /** The handler rejects exactly when the last send it tried failed, and then no role has
      been added; otherwise the sends are followed by the role loop's adds. */
  lemma JoinRolesFollowDelivery(table: WelcomeTable, queryOk: bool, member: Member, guild: JoinGuild, embedOk: bool, plainOk: bool)
    requires !Quiet(table, queryOk, guild)
    ensures var row := SelectEnabled(table, guild.id).value;
      var r := JoinEffects(table, queryOk, member, guild, embedOk, plainOk);
      var sends := Announce(row.embed, row.channelId.value, WelcomeText(row, member, guild), embedOk, plainOk).0;
      && (r.outcome == Rejected <==> !plainOk && (EmbedData(row.embed).None? || !embedOk))
      && (r.outcome == Rejected ==> r.effects == sends && forall e :: e in r.effects ==> e.Send?)
      && (r.outcome == Finished ==> r.effects == sends + GrantRun(RoleItems(row), guild.roles, guild.botTop, guild.addFailures))
  {
  }

  /** Roles are attempted only when `autorol_habilitado` and `roles_auto` are truthy. */
  lemma JoinRolesNeedAutoRole(table: WelcomeTable, queryOk: bool, member: Member, guild: JoinGuild, embedOk: bool, plainOk: bool)
    requires guild.id in table && (table[guild.id].autoRole == 0 || !Filled(table[guild.id].autoRoles))
    ensures forall e :: e in JoinEffects(table, queryOk, member, guild, embedOk, plainOk).effects ==> e.Send?
  {
    assert RoleItems(table[guild.id]) == [];
  }

  // ---------------------------------------------------------------------------
  // Worked substitutions

  /** Without a stored message the default greeting goes out as it is: it holds no `{`, so
      none of the four replacements touches it, as long as the username holds none either. */
  lemma DefaultGreetingSent(message: Option<string>, userId: string, username: string, guildName: string, memberCount: nat)
    requires !Given(message) && '{' !in username
    ensures Resolve(Template(message, username), userId, username, guildName, memberCount)
         == "¡Bienvenido " + username + " al servidor!"
  {
    var t := "¡Bienvenido " + username + " al servidor!";
    assert forall i :: 0 <= i < |t| ==> t[i] != '{';
    NoTokenIn(t, USER_TOKEN);
    NoTokenIn(t, NAME_TOKEN);
    NoTokenIn(t, SERVER_TOKEN);
    NoTokenIn(t, MEMBERS_TOKEN);
    ResolveWithoutTokens(t, userId, username, guildName, memberCount);
  }

  lemma NoTokenIn(s: string, tok: string)
    requires |tok| > 0 && tok[0] == '{'
    requires forall i :: 0 <= i < |s| && s[i] == '{' ==> !OccursAt(s, tok, i)
    ensures !Contains(s, tok)
  {
    forall i | 0 <= i <= |s| ensures !OccursAt(s, tok, i) {
      if i + |tok| <= |s| && s[i] != '{' {
        assert s[i..i + |tok|][0] == s[i];
      }
    }
  }

  /** The example of a welcome text using the username. */
  lemma GreetingExample()
    ensures Resolve("Hi {nombre}", "42", "Bob", "Test", 3) == "Hi Bob"
  {
    var s := "Hi {nombre}";
    NoTokenIn(s, USER_TOKEN);
    ReplaceAllAbsent(s, USER_TOKEN, Mention("42"));
    assert OccursAt(s, NAME_TOKEN, 3);
    assert !OccursAt(s, NAME_TOKEN, 0) && !OccursAt(s, NAME_TOKEN, 1) && !OccursAt(s, NAME_TOKEN, 2);
    SubstitutionLiteral("Bob", NAME_TOKEN, s[..3], s[11..]);
    assert ReplaceFrom(s, NAME_TOKEN, "Bob", 11) == "";
    assert ReplaceFrom(s, NAME_TOKEN, "Bob", 3) == "Bob";
    assert ReplaceFrom(s, NAME_TOKEN, "Bob", 2) == " Bob";
    assert ReplaceFrom(s, NAME_TOKEN, "Bob", 1) == "i Bob";
    assert ReplaceFrom(s, NAME_TOKEN, "Bob", 0) == "Hi Bob";
    var t := "Hi Bob";
    NoTokenIn(t, SERVER_TOKEN);
    ReplaceAllAbsent(t, SERVER_TOKEN, "Test");
    NoTokenIn(t, MEMBERS_TOKEN);
    ReplaceAllAbsent(t, MEMBERS_TOKEN, NatToString(3));
  }

  /** A text that is exactly the token becomes the expanded replacement. */
  lemma ReplaceWholeToken(tok: string, rep: string)
    requires |tok| > 0
    ensures ReplaceAll(tok, tok, rep) == Substitution(rep, tok, "", "")
  {
    assert tok[0..|tok|] == tok;
    assert OccursAt(tok, tok, 0);
    assert tok[..0] == "" && tok[|tok|..] == "";
    assert ReplaceFrom(tok, tok, rep, |tok|) == "";
    assert ReplaceFrom(tok, tok, rep, 0) == Substitution(rep, tok, "", "") + ReplaceFrom(tok, tok, rep, |tok|);
  }

  lemma ServerTokenHasNoOtherTokens()
    ensures !Contains(SERVER_TOKEN, USER_TOKEN) && !Contains(SERVER_TOKEN, NAME_TOKEN)
  {
    var s := SERVER_TOKEN;
    assert s[0..9][1] == 's' && s[0..8][1] == 's';
    NoTokenIn(s, USER_TOKEN);
    NoTokenIn(s, NAME_TOKEN);
  }

  /** Replacement is sequential: a guild name holding `{miembros}` is itself rewritten by the
      last step. */
  lemma SequentialRewriteExample()
    ensures Resolve("{servidor}", "42", "Bob", "{miembros}", 7) == "7"
  {
    ServerTokenHasNoOtherTokens();
    ReplaceAllAbsent(SERVER_TOKEN, USER_TOKEN, Mention("42"));
    ReplaceAllAbsent(SERVER_TOKEN, NAME_TOKEN, "Bob");
    ReplaceWholeToken(SERVER_TOKEN, MEMBERS_TOKEN);
    SubstitutionLiteral(MEMBERS_TOKEN, SERVER_TOKEN, "", "");
    assert NatToString(7) == "7";
    ReplaceWholeToken(MEMBERS_TOKEN, "7");
    SubstitutionLiteral("7", MEMBERS_TOKEN, "", "");
  }

  /** The replacement strings go through `$` pattern expansion: a guild named `$&!` puts the
      matched token back into the text. */
  lemma DollarPatternExample()
    ensures Resolve("{servidor}", "42", "Bob", "$&!", 7) == "{servidor}!"
  {
    ServerTokenHasNoOtherTokens();
    ReplaceAllAbsent(SERVER_TOKEN, USER_TOKEN, Mention("42"));
    ReplaceAllAbsent(SERVER_TOKEN, NAME_TOKEN, "Bob");
    ReplaceWholeToken(SERVER_TOKEN, "$&!");
    assert Substitution("!", SERVER_TOKEN, "", "") == "!";
    assert Substitution("$&!", SERVER_TOKEN, "", "") == "{servidor}!";
    var t := "{servidor}!";
    assert t[0..10][1] == 's';
    NoTokenIn(t, MEMBERS_TOKEN);
    ReplaceAllAbsent(t, MEMBERS_TOKEN, NatToString(7));
  }
}
