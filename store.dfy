/** The `mensajes_bienvenida` table: one welcome configuration row per guild id. */
module Store {
  import opened Wrappers
  import opened Json

  /** A row of the welcome table (the guild id is its key in `WelcomeTable`). */
  datatype WelcomeRow = WelcomeRow(
    enabled: int,             // bienvenida_habilitada
    channelId: Option<string>, // canal_bienvenida_id
    message: Option<string>,  // mensaje_bienvenida
    embed: Stored,            // embed_bienvenida
    autoRole: int,            // autorol_habilitado
    autoRoles: Stored)        // roles_auto

  /** Keyed by guild id, so there is at most one row per guild. */
  type WelcomeTable = map<string, WelcomeRow>

  /** A text value is truthy: present and non-empty. */
  predicate Given(v: Option<string>) {
    v.Some? && v.value != ""
  }

  /** `SELECT * ... WHERE guild_id = ? AND bienvenida_habilitada = 1` (bot.js). */
  function SelectEnabled(t: WelcomeTable, guildId: string): (r: Option<WelcomeRow>)
    ensures r.Some? <==> guildId in t && t[guildId].enabled == 1
    ensures r.Some? ==> r.value == t[guildId]
  {
    if guildId in t && t[guildId].enabled == 1 then Some(t[guildId]) else None
  }

  /** `SELECT * ... WHERE guild_id = ?` (the dashboard's read). */
  function SelectRow(t: WelcomeTable, guildId: string): (r: Option<WelcomeRow>)
    ensures r.Some? <==> guildId in t
    ensures r.Some? ==> r.value == t[guildId]
  {
    if guildId in t then Some(t[guildId]) else None
  }

  /** The five columns the dashboard's save writes. */
  datatype SavedColumns = SavedColumns(
    enabled: int, channelId: Option<string>, embed: Stored, autoRole: int, autoRoles: Stored)

  /** `INSERT ... ON CONFLICT(guild_id) DO UPDATE SET` the five columns: an existing row keeps
      its `mensaje_bienvenida`; a new row starts without one. */
  function Upsert(t: WelcomeTable, guildId: string, c: SavedColumns): (u: WelcomeTable)
    ensures u.Keys == t.Keys + {guildId}
    ensures forall g :: g in t && g != guildId ==> u[g] == t[g]
    ensures u[guildId].enabled == c.enabled && u[guildId].channelId == c.channelId
    ensures u[guildId].embed == c.embed && u[guildId].autoRole == c.autoRole
    ensures u[guildId].autoRoles == c.autoRoles
    ensures u[guildId].message == if guildId in t then t[guildId].message else None
  {
    var kept := if guildId in t then t[guildId].message else None;
    t[guildId := WelcomeRow(c.enabled, c.channelId, kept, c.embed, c.autoRole, c.autoRoles)]
  }
}
