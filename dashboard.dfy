/** The decision logic of the dashboard routes (src/rutas/principal.js): which guilds a user
    may manage, the role list of the welcome page, the tolerant reading of a stored welcome
    row, and the columns the save action writes. */
module Dashboard {
  import opened Wrappers
  import opened Seqs
  import opened Json
  import opened Colour
  import opened Platform
  import opened Store

  // ---------------------------------------------------------------------------
  // Guild list

  const ADMINISTRATOR: nat := 0x8
  const MANAGE_GUILD: nat := 0x20

  /** Bitwise AND of two non-negative BigInts. */
  function BitAnd(a: nat, b: nat): nat
    decreases a
  {
    if a == 0 || b == 0 then 0
    else 2 * BitAnd(a / 2, b / 2) + (if a % 2 == 1 && b % 2 == 1 then 1 else 0)
  }

  /** Bit `k` of `p` is set. */
  predicate Bit(p: nat, k: nat)
    decreases k
  {
    if k == 0 then p % 2 == 1 else Bit(p / 2, k - 1)
  }

  function Pow2(k: nat): (r: nat)
    ensures r > 0
  {
    if k == 0 then 1 else 2 * Pow2(k - 1)
  }

  /** `(p & 2^k) === 2^k` tests exactly bit `k`. */
  lemma {:induction false} BitAndPow2(p: nat, k: nat)
    ensures BitAnd(p, Pow2(k)) == Pow2(k) <==> Bit(p, k)
    decreases k
  {
    if k == 0 {
      assert BitAnd(p, 1) == p % 2 by {
        if p != 0 {
          assert BitAnd(p / 2, 0) == 0;
        }
      }
    } else {
      BitAndPow2(p / 2, k - 1);
      if p != 0 {
        assert Pow2(k) / 2 == Pow2(k - 1) && Pow2(k) % 2 == 0;
        assert BitAnd(p, Pow2(k)) == 2 * BitAnd(p / 2, Pow2(k - 1));
      }
    }
  }

  /** A guild of the user's OAuth guild list; `permissions` is the parsed permission field,
      absent when the API leaves it out. */
  datatype PartialGuild = PartialGuild(id: string, name: string, owner: bool, permissions: Option<nat>)

  /** The filter predicate, with the bit tests as the source writes them. */
  predicate CanManage(g: PartialGuild) {
    var p := g.permissions.GetOr(0);
    g.owner || BitAnd(p, ADMINISTRATOR) == ADMINISTRATOR || BitAnd(p, MANAGE_GUILD) == MANAGE_GUILD
  }

  /** Owner, or ADMINISTRATOR (bit 3), or MANAGE_GUILD (bit 5); missing permissions are 0. */
  lemma CanManageBits(g: PartialGuild)
    ensures CanManage(g) <==> g.owner || Bit(g.permissions.GetOr(0), 3) || Bit(g.permissions.GetOr(0), 5)
  {
    assert Pow2(3) == ADMINISTRATOR && Pow2(5) == MANAGE_GUILD;
    BitAndPow2(g.permissions.GetOr(0), 3);
    BitAndPow2(g.permissions.GetOr(0), 5);
  }

  /** `servidores.filter(...)`: the guilds shown on the dashboard. */
  function ManageableGuilds(gs: seq<PartialGuild>): (r: seq<PartialGuild>)
    ensures forall g :: g in r <==> g in gs && (g.owner || Bit(g.permissions.GetOr(0), 3) || Bit(g.permissions.GetOr(0), 5))
    ensures IsSubsequence(r, gs)
  {
    forall g | g in gs { CanManageBits(g); }
    Filter(gs, CanManage)
  }

  // ---------------------------------------------------------------------------
  // Role list of the welcome page

  /** `miembroBot ? miembroBot.roles.highest.position : 0`. */
  function BotPosition(botTop: Option<int>): int {
    botTop.GetOr(0)
  }

  /** Not `@everyone` (whose id is the guild's) and not managed by an integration. */
  predicate Listed(guildId: string, r: GuildRole) {
    r.id != guildId && !r.managed
  }

  datatype RoleChoice = RoleChoice(id: string, name: string, color: nat, position: int, assignable: bool)

  function Choice(r: GuildRole, botPos: int): RoleChoice {
    RoleChoice(r.id, r.name, r.color, r.position, r.position < botPos)
  }

  predicate Descending(s: seq<GuildRole>) {
    forall i, j :: 0 <= i < j < |s| ==> s[i].position >= s[j].position
  }

  /** Places `r` before the first element that is not strictly higher. */
  function InsertByPosition(r: GuildRole, s: seq<GuildRole>): (t: seq<GuildRole>)
    requires Descending(s)
    ensures Descending(t) && multiset(t) == multiset(s) + multiset{r}
    ensures |t| == |s| + 1 && (t[0] == r || (s != [] && t[0] == s[0]))
    decreases |s|
  {
    if s != [] && s[0].position > r.position then
      var rest := InsertByPosition(r, s[1..]);
      assert s == [s[0]] + s[1..];
      [s[0]] + rest
    else [r] + s
  }

  /** `.sort((a, b) => b.position - a.position)`: a stable sort, highest position first. */
  function SortByPosition(s: seq<GuildRole>): (t: seq<GuildRole>)
    ensures Descending(t) && multiset(t) == multiset(s)
    decreases |s|
  {
    if s == [] then []
    else
      assert s == [s[0]] + s[1..];
      InsertByPosition(s[0], SortByPosition(s[1..]))
  }

  /** The same elements, counted: same length and membership. */
  lemma SameElements(a: seq<GuildRole>, b: seq<GuildRole>)
    requires multiset(a) == multiset(b)
    ensures |a| == |b| && forall x :: x in a <==> x in b
  {
    assert |multiset(a)| == |multiset(b)|;
    forall x ensures x in a <==> x in b {
      assert x in a <==> x in multiset(a);
      assert x in b <==> x in multiset(b);
    }
  }

  /** `.map(r => ({ ..., puedeAsignar: r.position < posicionBot }))`. */
  function Choices(s: seq<GuildRole>, botPos: int): (r: seq<RoleChoice>)
    ensures |r| == |s| && forall i :: 0 <= i < |s| ==> r[i] == Choice(s[i], botPos)
  {
    if s == [] then [] else [Choice(s[0], botPos)] + Choices(s[1..], botPos)
  }

  /** `.filter(r => r.id !== guild.id && !r.managed)`. */
  function ListedRoles(roles: seq<GuildRole>, guildId: string): (r: seq<GuildRole>)
    ensures IsSubsequence(r, roles)
    ensures forall g :: g in r <==> g in roles && Listed(guildId, g)
  {
    Filter(roles, g => Listed(guildId, g))
  }

  /** What the page relies on of the mapped list: order, the flag, and the same roles. */
  lemma ChoicesFacts(s: seq<GuildRole>, botPos: int)
    requires Descending(s)
    ensures var r := Choices(s, botPos);
      && (forall i, j :: 0 <= i < j < |r| ==> r[i].position >= r[j].position)
      && (forall i :: 0 <= i < |r| ==> r[i].assignable == (r[i].position < botPos))
      && (forall g :: g in s ==> Choice(g, botPos) in r)
      && (forall c :: c in r ==> exists g :: g in s && c == Choice(g, botPos))
  {
    var r := Choices(s, botPos);
    forall g | g in s ensures Choice(g, botPos) in r {
      var k :| 0 <= k < |s| && s[k] == g;
      assert r[k] == Choice(g, botPos);
    }
    forall c | c in r ensures exists g :: g in s && c == Choice(g, botPos) {
      var k :| 0 <= k < |r| && r[k] == c;
      assert s[k] in s;
    }
  }

  /** The role list rendered on the welcome page. */
  function RoleChoices(roles: seq<GuildRole>, guildId: string, botTop: Option<int>): (r: seq<RoleChoice>)
    ensures |r| == |ListedRoles(roles, guildId)|
    ensures forall i, j :: 0 <= i < j < |r| ==> r[i].position >= r[j].position
    ensures forall i :: 0 <= i < |r| ==> r[i].assignable == (r[i].position < BotPosition(botTop))
    ensures forall g :: g in roles && Listed(guildId, g) ==> Choice(g, BotPosition(botTop)) in r
    ensures forall c :: c in r ==> exists g :: g in roles && Listed(guildId, g) && c == Choice(g, BotPosition(botTop))
  {
    var sorted := SortByPosition(ListedRoles(roles, guildId));
    SameElements(sorted, ListedRoles(roles, guildId));
    ChoicesFacts(sorted, BotPosition(botTop));
    Choices(sorted, BotPosition(botTop))
  }

  // ---------------------------------------------------------------------------
  // Reading a stored row for the welcome page

  /** The embed as the page receives it; every field is whatever value the stored JSON had. */
  datatype EmbedView = EmbedView(titulo: JValue, descripcion: JValue, color: JValue, imagen: JValue, thumbnail: JValue, footer: JValue)

  /** `configProcesada.embed_bienvenida`: left as stored when the column is falsy, `{}` when it
      cannot be read, otherwise normalised. */
  datatype EmbedRead = Unchanged(stored: Stored) | Blank | Normalised(view: EmbedView)

  /** `x ? (x.key || x) : otherwise`. */
  function Unwrap(x: Option<JValue>, key: string, otherwise: JValue): (r: JValue)
    ensures !Present(x) ==> r == otherwise
    ensures Present(x) && Present(Prop(x.value, key)) ==> r == Prop(x.value, key).value
    ensures Present(x) && !Present(Prop(x.value, key)) ==> r == x.value
  {
    if Present(x) then OrElse(Prop(x.value, key), x.value) else otherwise
  }

  /** Canonical names first, then the aliases, then a default. */
  function NormaliseEmbed(e: JValue): EmbedView
    requires e != JNull
  {
    EmbedView(
      OrElse(Prop(e, "title"), OrElse(Prop(e, "titulo"), JStr(""))),
      OrElse(Prop(e, "description"), OrElse(Prop(e, "descripcion"), JStr(""))),
      OrElse(Prop(e, "color"), JStr(BRAND_COLOUR)),
      Unwrap(Prop(e, "image"), "url", Unwrap(Prop(e, "imagen"), "url", JNull)),
      Unwrap(Prop(e, "thumbnail"), "url", JNull),
      Unwrap(Prop(e, "footer"), "text", JNull))
  }

  function ReadEmbed(c: Stored): (r: EmbedRead)
    ensures !Filled(c) ==> r == Unchanged(c)
    ensures Filled(c) && (c.parsed.Malformed? || c.parsed.value == JNull) ==> r == Blank
    ensures Filled(c) && c.parsed.Json? && c.parsed.value != JNull ==> r == Normalised(NormaliseEmbed(c.parsed.value))
  {
    if !Filled(c) then Unchanged(c)
    else match c.parsed
      case Malformed => Blank
      case Json(e) => if e == JNull then Blank else Normalised(NormaliseEmbed(e))
  }

  /** `x.key` when `x` is an object whose `key` is truthy, otherwise `x` itself. */
  predicate UnwrapsTo(x: JValue, key: string, r: JValue)
    requires x != JNull
  {
    (Present(Prop(x, key)) ==> r == Prop(x, key).value) && (!Present(Prop(x, key)) ==> r == x)
  }

  /** The read-side preferences, field by field: canonical keys before the Spanish aliases,
      both before the defaults, and URL and footer objects unwrapped. */
  lemma NormaliseEmbedFields(e: JValue)
    requires e != JNull
    ensures var v := NormaliseEmbed(e);
      && (Present(Prop(e, "title")) ==> v.titulo == Prop(e, "title").value)
      && (!Present(Prop(e, "title")) && Present(Prop(e, "titulo")) ==> v.titulo == Prop(e, "titulo").value)
      && (!Present(Prop(e, "title")) && !Present(Prop(e, "titulo")) ==> v.titulo == JStr(""))
      && (Present(Prop(e, "description")) ==> v.descripcion == Prop(e, "description").value)
      && (!Present(Prop(e, "description")) && Present(Prop(e, "descripcion")) ==> v.descripcion == Prop(e, "descripcion").value)
      && (!Present(Prop(e, "description")) && !Present(Prop(e, "descripcion")) ==> v.descripcion == JStr(""))
      && (Present(Prop(e, "color")) ==> v.color == Prop(e, "color").value)
      && (!Present(Prop(e, "color")) ==> v.color == JStr(BRAND_COLOUR))
      && (Present(Prop(e, "image")) ==> UnwrapsTo(Prop(e, "image").value, "url", v.imagen))
      && (!Present(Prop(e, "image")) && Present(Prop(e, "imagen")) ==> UnwrapsTo(Prop(e, "imagen").value, "url", v.imagen))
      && (!Present(Prop(e, "image")) && !Present(Prop(e, "imagen")) ==> v.imagen == JNull)
      && (Present(Prop(e, "thumbnail")) ==> UnwrapsTo(Prop(e, "thumbnail").value, "url", v.thumbnail))
      && (!Present(Prop(e, "thumbnail")) ==> v.thumbnail == JNull)
      && (Present(Prop(e, "footer")) ==> UnwrapsTo(Prop(e, "footer").value, "text", v.footer))
      && (!Present(Prop(e, "footer")) ==> v.footer == JNull)
  {
  }

  /** `configProcesada.roles_auto`. */
  function ReadRoles(c: Stored): (r: seq<string>)
    ensures !Filled(c) || c.parsed.Malformed? || !c.parsed.value.JArr? ==> r == []
    ensures Filled(c) && c.parsed.Json? && c.parsed.value.JArr? ==>
      |r| == |c.parsed.value.items| && forall k :: 0 <= k < |r| ==> r[k] == JsString(c.parsed.value.items[k])
  {
    if Filled(c) && c.parsed.Json? && c.parsed.value.JArr? then
      var items := c.parsed.value.items;
      seq(|items|, k requires 0 <= k < |items| => JsString(items[k]))
    else []
  }

  /** The `config` object handed to the welcome page. */
  datatype ConfigView = ConfigView(row: Option<WelcomeRow>, embed: Option<EmbedRead>, roles: seq<string>)

  /** None when the query fails (the page gets `config: null`); without a row the object only
      carries an empty role list. */
  function ViewConfig(queryOk: bool, row: Option<WelcomeRow>): (v: Option<ConfigView>)
    ensures v.None? <==> !queryOk
    ensures queryOk && row.None? ==> v == Some(ConfigView(None, None, []))
    ensures queryOk && row.Some? ==>
      v == Some(ConfigView(row, Some(ReadEmbed(row.value.embed)), ReadRoles(row.value.autoRoles)))
  {
    if !queryOk then None
    else match row
      case None => Some(ConfigView(None, None, []))
      case Some(c) => Some(ConfigView(row, Some(ReadEmbed(c.embed)), ReadRoles(c.autoRoles)))
  }

  // ---------------------------------------------------------------------------
  // Saving the form

  /** `roles_auto` in the parsed form body: absent, one value, or repeated. */
  datatype FormRoles = NoRoles | OneRole(id: string) | ManyRoles(ids: seq<string>)

  /** The urlencoded form; a field is None when the browser did not submit it. */
  datatype WelcomeForm = WelcomeForm(
    enabled: Option<string>,
    channel: Option<string>,
    title: Option<string>,
    description: Option<string>,
    color: Option<string>,
    thumbnail: Option<string>,
    image: Option<string>,
    footer: Option<string>,
    autoRole: Option<string>,
    roles: FormRoles)

  /** `v === 'on' ? 1 : 0`. */
  function Checkbox(v: Option<string>): (b: int)
    ensures b == 1 <==> v == Some("on")
    ensures b == 0 <==> v != Some("on")
  {
    if v == Some("on") then 1 else 0
  }

  /** `roles_auto ? (Array.isArray(roles_auto) ? roles_auto : [roles_auto]) : []`. */
  function SelectedRoles(f: FormRoles): (ids: seq<string>)
    ensures f.NoRoles? ==> ids == []
    ensures f.OneRole? ==> ids == if f.id == "" then [] else [f.id]
    ensures f.ManyRoles? ==> ids == f.ids
  {
    match f
    case NoRoles => []
    case OneRole(id) => if id == "" then [] else [id]
    case ManyRoles(ids) => ids
  }

  /** The role exists in the guild and lies strictly below the bot's highest role. */
  predicate Assignable(roles: seq<GuildRole>, botPos: int, id: string) {
    var r := FindRole(roles, id);
    r.Some? && r.value.position < botPos
  }

  /** The save-time hierarchy filter. */
  function KeepAssignable(ids: seq<string>, roles: seq<GuildRole>, botPos: int): (r: seq<string>)
    ensures IsSubsequence(r, ids)
    ensures forall id :: id in r <==> id in ids && Assignable(roles, botPos, id)
    ensures forall id :: multiset(r)[id] == if Assignable(roles, botPos, id) then multiset(ids)[id] else 0
  {
    Filter(ids, id => Assignable(roles, botPos, id))
  }

  /** `x || null`. */
  function TextOrNull(v: Option<string>): JValue {
    if Given(v) then JStr(v.value) else JNull
  }

  /** `x ? { key: x } : null`. */
  function Wrapped(key: string, v: Option<string>): JValue {
    if Given(v) then JObj(map[key := JStr(v.value)]) else JNull
  }

  /** The object stored in `embed_bienvenida`. */
  function EmbedBlob(f: WelcomeForm): JValue {
    JObj(map[
      "titulo" := TextOrNull(f.title),
      "descripcion" := TextOrNull(f.description),
      "color" := JStr(if Given(f.color) then f.color.value else BRAND_COLOUR),
      "thumbnail" := Wrapped("url", f.thumbnail),
      "imagen" := Wrapped("url", f.image),
      "footer" := Wrapped("text", f.footer)])
  }

  /** `roles_auto`: NULL for an empty list, otherwise the JSON array of the ids. */
  function RolesColumn(ids: seq<string>): (c: Stored)
    ensures ids == [] ==> c == SqlNull
    ensures ids != [] ==> Filled(c) && c.parsed.Json? && c.parsed.value.JArr?
    ensures ids != [] ==> |c.parsed.value.items| == |ids| && forall k :: 0 <= k < |ids| ==> c.parsed.value.items[k] == JStr(ids[k])
  {
    if |ids| > 0 then Encode(JArr(seq(|ids|, k requires 0 <= k < |ids| => JStr(ids[k])))) else SqlNull
  }

  /** The guild as the save and read routes see it in the bot's cache. */
  datatype CachedGuild = CachedGuild(id: string, roles: seq<GuildRole>, botTop: Option<int>)

  /** The five column values of the upsert. */
  function SaveColumns(f: WelcomeForm, guild: CachedGuild): SavedColumns {
    var kept := KeepAssignable(SelectedRoles(f.roles), guild.roles, BotPosition(guild.botTop));
    SavedColumns(
      Checkbox(f.enabled),
      if Given(f.channel) then f.channel else None,
      Encode(EmbedBlob(f)),
      Checkbox(f.autoRole),
      RolesColumn(kept))
  }

  /** The route redirects with an error when the guild is not cached or the write fails. */
  datatype SaveOutcome = GuildNotFound | Saved | SaveFailed

  /** `POST /bienvenida/:guildId`: the table afterwards and how the request ends. */
  function SaveWelcome(t: WelcomeTable, guildId: string, guild: Option<CachedGuild>, f: WelcomeForm, writeOk: bool)
    : (r: (WelcomeTable, SaveOutcome))
    ensures guild.None? ==> r == (t, GuildNotFound)
    ensures guild.Some? && !writeOk ==> r == (t, SaveFailed)
    ensures guild.Some? && writeOk ==> r == (Upsert(t, guildId, SaveColumns(f, guild.value)), Saved)
  {
    if guild.None? then (t, GuildNotFound)
    else if !writeOk then (t, SaveFailed)
    else (Upsert(t, guildId, SaveColumns(f, guild.value)), Saved)
  }
}
