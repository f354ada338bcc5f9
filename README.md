# Welcome bot and dashboard: a Dafny model

This project models the core of a Discord welcome bot and its web dashboard. The two share one
SQLite table, `mensajes_bienvenida`, which holds one welcome configuration per guild.

- **Dashboard.** An administrator uses it to pick the guilds they may manage, view the roles
  of a guild, and save a welcome configuration. The configuration is:
  - the enable switch;
  - the channel;
  - an embed, as a JSON blob;
  - the auto-role switch;
  - a JSON list of role ids.
- **Bot.** When a member joins, the bot reads the enabled row and resolves four placeholders
  in the message. It sends the message with the embed, falling back to plain text, then adds
  each stored role that lies strictly below its own highest role.
- **Statistics.** The bot also keeps a debounced statistics row: guild count, member total and
  channel total.

Modules, one per file:

| module | contents |
|---|---|
| `Wrappers` | `Option` |
| `Seqs` | order-preserving `Filter` and the subsequence relation |
| `Text` | decimal rendering; JavaScript's global `String.prototype.replace` with a string replacement, including its `$$`, `$&`, `` $` `` and `$'` patterns; a split/join specification of replacement |
| `Json` | JSON values; JavaScript truthiness, `||`, property reads (a read on `null` throws), `String(v)` and `for…of`; the stored TEXT column |
| `Colour` | `parseInt(s, 16)` and the six-digit colours of a colour picker |
| `Platform` | cached guild roles; `user.toString()` |
| `Store` | the welcome table as a map from guild id to row: the two SELECTs and the upsert |
| `Welcome` | the `guildMemberAdd` handler: a specification function and the imperative handler proved equal to it, with the role loop as a method with its invariant |
| `Stats` | `actualizarEstadisticas`: a class holding the module-level `ultimaActualizacion` and a class for the statistics table |
| `Dashboard` | the pure logic of `src/rutas/principal.js` |
| `Roundtrip` | what a save leaves for the welcome page and for the next join |

External effects are parameters of the model:

| parameter | what it stands for |
|---|---|
| `queryOk`, `writeOk` | the database callbacks' errors |
| `embedOk` | whether the builder and the platform accept the embed message |
| `plainOk` | whether a plain-text send succeeds |
| `addFailures` | the role adds that fail |
| `fetchedMembers`, `fetchedChannels` (`None` = failed) | the per-guild fetches |
| `now` | `Date.now()` |

The stored columns are abstracted:
- `Stored` is `SqlNull`, the empty string, or text; text is either malformed or the JSON value
  `JSON.parse` gives for it.
- Only truthiness and the parse result are observable.

Where the code and its documentation differ, the model follows the code:
- Only `{usuario}`, `{nombre}`, `{servidor}` and `{miembros}` are replaced. The embed's fields
  are passed to the builder without any placeholder resolution.
- The message text goes out as `content` together with the embed.
- The replacements run one after the other, so a guild name such as `{miembros}` is itself
  rewritten by the next step. A `$&` in a replacement value expands to the matched token
  (`Welcome.SequentialRewriteExample`, `Welcome.DollarPatternExample`).
- A failure of the plain-text send at bot.js:171 or bot.js:174 is not caught. The callback
  rejects and no role is added (outcome `Rejected`).
- A debounced refresh resolves to `undefined` (`Skipped`), not to the previous totals.
- `ultimaActualizacion` is set only after a successful write.
- The save stores each image, thumbnail and footer value wrapped in an object (`{url}`,
  `{text}`). The join handler passes these objects to `setImage`, `setThumbnail` and
  `setFooter({ text })` unchanged (`Roundtrip.SavedEmbedAtJoin`). Whether the builder
  accepts them is part of `embedOk`.

## Model

Functions whose contracts only describe their own case split are not listed on their own; each
is named in the row of the lemma that states what it does.

| member | source | states |
|---|---|---|
| Text.ReplaceAllIsSplitJoin | bot.js:144-148 | `Text.ReplaceAll` (global `replace`, with `Text.Substitution` expanding the `$` patterns) with a replacement holding no `$` is splitting at every non-overlapping occurrence of the token and joining with the replacement |
| Text.SplitJoin | bot.js:144-148 | joining the pieces of a split with the token gives back the original string (the specification's partner) |
| Text.SplitPiecesFree | bot.js:144-148 | no piece of the split contains the token |
| Text.ReplaceAllAbsent | bot.js:144-148 | a global replace of a token that does not occur leaves the text unchanged |
| Text.SubstitutionLiteral | bot.js:145-148 | `Text.Substitution` inserts a replacement value without `$` literally |
| Text.DecimalRoundTrip | bot.js:148 | the decimal rendering of the member count reads back as the count |
| Text.NatToString | bot.js:148 | the member count renders as a nonempty string of digits |
| Colour.ParseIntHexOfDigits | bot.js:161 | `Colour.ParseIntHex` (`parseInt(s, 16)`) of a string of hexadecimal digits is its value |
| Colour.HexValueOfFormat | bot.js:161 | formatting a number in enough hexadecimal digits and reading it back gives the number |
| Colour.ParseFormattedColour | bot.js:160-161 | a `#rrggbb` colour, stripped of its `#`, is parsed by `Colour.ParseIntHex` as its 24-bit value |
| Colour.BrandColourValue | src/rutas/principal.js:275 | the default colour `#5865F2` reaches the builder as 0x5865F2 |
| Platform.FindRole | src/rutas/principal.js:268 | a role-cache lookup finds exactly the ids present, returning a role with that id |
| Store.Upsert | src/rutas/principal.js:281-290 | the upsert sets the five columns of the guild's row, keeps its welcome message (none for a new row) and leaves every other guild's row unchanged |
| Welcome.DefaultGreetingSent | bot.js:142-148 | without a stored message, `Welcome.Template` gives the default greeting and `Welcome.Resolve` sends it unchanged when the username holds no `{` |
| Welcome.ResolveWithoutTokens | bot.js:144-148 | `Welcome.Resolve`, the four replacements in order (`{usuario}` by `Platform.Mention`), leaves a template without any of the four tokens unchanged |
| Welcome.GreetingExample | bot.js:146 | `Hi {nombre}` for user Bob becomes `Hi Bob` |
| Welcome.SequentialRewriteExample | bot.js:147-148 | a guild named `{miembros}` is itself rewritten by the member-count step |
| Welcome.DollarPatternExample | bot.js:147 | a guild named `$&!` turns `{servidor}` into `{servidor}!` |
| Welcome.GrantRun | bot.js:177-189 | every effect of the role loop is an add, which succeeds unless that add fails, and there are no more adds than stored elements |
| Welcome.GrantRunAttempts | bot.js:180-183 | a role is added iff some stored element resolves to it (`Welcome.Lookup`, the role fetch) and the bot's highest position is strictly greater than the role's |
| Welcome.GrantRunConcat | bot.js:180-185 | the elements are handled in stored order, each independently of the others |
| Welcome.GrantRunWithoutBotMember | bot.js:182 | with no cached bot member, reading its position throws and no role is added |
| Welcome.GrantRunIgnoresFailures | bot.js:183 | a failing add is swallowed and changes neither which roles are attempted nor their order |
| Welcome.GrantRoles | bot.js:180-185 | the imperative loop produces exactly the specified adds, stopping at the throw |
| Welcome.OnMemberJoin | bot.js:126-195 | the handler with its early returns, fallback send and role loop produces exactly the effects and outcome of `Welcome.JoinEffects` |
| Welcome.JoinQuiet | bot.js:131-140 | `Welcome.JoinEffects` does nothing iff `Welcome.Quiet`: the query fails, there is no enabled row (`Store.SelectEnabled`), the channel id is empty or the channel does not resolve; an early return never rejects |
| Welcome.JoinAnnounces | bot.js:150-175 | `Welcome.Announce`: the first effect sends `Welcome.WelcomeText` to the configured channel, with the `Welcome.BuildEmbed` embed when `Welcome.EmbedData` finds one; a failed embed send is followed by a plain send of the same text |
| Welcome.JoinRolesFollowDelivery | bot.js:169-189 | the handler rejects iff the last send it tried failed, and then adds no role; otherwise the sends are followed by the role loop over `Welcome.RoleItems` |
| Welcome.JoinRolesNeedAutoRole | bot.js:177 | with `autorol_habilitado` off or `roles_auto` empty only sends happen |
| Stats.Aggregate | bot.js:34-62 | the server count is the number of cached guilds, and all totals are zero without guilds |
| Stats.TotalsConcat | bot.js:64-82 | `Stats.TotalMembers` and `Stats.TotalChannels` are sums of the per-guild tallies `Stats.MemberTally` and `Stats.ChannelTally` |
| Stats.FailedFetchIsLocal | bot.js:69-71 | a guild whose fetch rejects contributes only its cached count; the other guilds' counts stay in the totals |
| Stats.StatsTable.Update | bot.js:85-92 | the UPDATE writes the totals to the row with id 1 when it exists |
| Stats.StatsRefresher.Refresh | bot.js:26-105 | an unforced call within 60000 ms of the last successful write changes nothing; otherwise the totals are computed; a successful write stores them and stamps the time, a failed one rejects and leaves the stamp |
| Stats.RefreshTwiceWithinWindow | bot.js:28-30 | after a successful refresh, an unforced call less than a minute later is skipped |
| Dashboard.BitAndPow2 | src/rutas/principal.js:72-73 | `(p & 2^k) === 2^k` holds exactly when bit k of p is set |
| Dashboard.CanManageBits | src/rutas/principal.js:70-75 | `Dashboard.CanManage` holds iff the user owns the guild or holds bit 3 (ADMINISTRATOR) or bit 5 (MANAGE_GUILD), with missing permissions counting as 0 |
| Dashboard.ManageableGuilds | src/rutas/principal.js:108-113 | the guild list keeps exactly the manageable guilds, in their original order |
| Dashboard.InsertByPosition | src/rutas/principal.js:161 | inserting into a list sorted by descending position keeps it sorted and adds exactly that role |
| Dashboard.SortByPosition | src/rutas/principal.js:161 | the role list is sorted by descending position and is a permutation of its input |
| Dashboard.ListedRoles | src/rutas/principal.js:160 | @everyone (whose id is the guild's) and managed roles are dropped, and the order is kept |
| Dashboard.Choices | src/rutas/principal.js:162-168 | each listed role is mapped to its choice, in the same position of the list |
| Dashboard.ChoicesFacts | src/rutas/principal.js:161-168 | the mapped list stays in descending order, flags each role as assignable iff it lies below the bot, and holds exactly the choices of the input roles |
| Dashboard.RoleChoices | src/rutas/principal.js:155-168 | the page lists every non-@everyone, non-managed role exactly once, highest first, flagged assignable iff its position is below `Dashboard.BotPosition` (0 without a cached bot member) |
| Dashboard.NormaliseEmbedFields | src/rutas/principal.js:197-204 | `Dashboard.NormaliseEmbed`: canonical keys win over the Spanish aliases, which win over the defaults `''`, `#5865F2` and null; a present image, imagen or thumbnail is unwrapped through `.url` and a footer through `.text` (`Json.Prop`, `Json.OrElse`) |
| Dashboard.KeepAssignable | src/rutas/principal.js:265-270 | the kept ids are exactly the submitted ids naming a cached role below the bot's position, in submitted order, each kept as often as it was submitted |
| Roundtrip.SaveWrites | src/rutas/principal.js:254-303 | `Dashboard.SaveWelcome` with a cached guild and a successful write upserts `Dashboard.SaveColumns`: the page query (`Store.SelectRow`) then finds `Roundtrip.SavedRow` and every other guild's row is unchanged |
| Roundtrip.BlobProps | src/rutas/principal.js:272-279 | `Dashboard.EmbedBlob` stores the Spanish keys only, with the URL and footer values wrapped |
| Roundtrip.UnwrapWrapped | src/rutas/principal.js:201-203 | `Dashboard.Unwrap` on the read side undoes the `{url}` and `{text}` wrapping of the save |
| Roundtrip.SavedEmbedReadsBack | src/rutas/principal.js:192-207 | `Dashboard.ReadEmbed` of the saved blob gives exactly the submitted title, description, colour, image, thumbnail and footer, with the save's defaults |
| Roundtrip.SavedRolesReadBack | src/rutas/principal.js:210-223 | `Dashboard.ReadRoles` of `Dashboard.RolesColumn` (NULL for no ids) gives back exactly the stored ids, through `Json.JsString` |
| Roundtrip.SavedConfigShown | src/rutas/principal.js:190-223 | `Dashboard.ViewConfig` after a save shows the saved row, the submitted embed fields and exactly the kept role ids |
| Roundtrip.SavedRoleItems | bot.js:177-180 | `Welcome.RoleItems` (via `Json.Iterate`) walks exactly the ids the save kept, and nothing when the auto-role switch was off |
| Roundtrip.GrantRunOfAssignable | bot.js:180-183 | ids that all name roles strictly below the bot are all added, in order |
| Roundtrip.SavedRolesGranted | bot.js:177-185 | with the bot's position unchanged, the next join attempts exactly the roles `Dashboard.SelectedRoles` and `Dashboard.KeepAssignable` kept, in order |
| Roundtrip.SavedEmbedAtJoin | bot.js:150-167 | `Welcome.EmbedData` finds the saved blob and `Welcome.BuildEmbed` (through `Welcome.IfTruthy`) hands the saved title and description to the builder as strings, and the URL and footer values wrapped in their objects |
| Roundtrip.SavedColourAtJoin | bot.js:159-163 | `Welcome.ColourOf` turns a saved `#rrggbb` colour into its 24-bit value, and an empty one into 0x5865F2 |
| Roundtrip.SavedEnableSwitch | bot.js:129 | after a save, `Store.SelectEnabled` finds the row exactly when `Dashboard.Checkbox` saw `'on'` |

## Left out

- Discord's gateway, OAuth login, sessions and HTTP rendering and redirects are left out.
  `obtenerServidoresConRetry` and its retries are also left out. The routes are modelled
  only by the values they compute and the outcome they end with.
- The `clientReady`, `guildCreate` and `guildDelete` hooks (bot.js:107-124) are left out.
  They only schedule forced refreshes on timers, and timers are outside the model.
- `Promise.all` concurrency is left out, and so are overlapping refreshes: a call is one atomic step.
- The `actualizado_en = CURRENT_TIMESTAMP` column is left out: the clock of SQLite is not modelled.
- `Stats.StatsRefresher.Refresh`: a rejection of `Promise.all` itself cannot happen in the code,
  because every fetch is caught, so it has no case.
- Logging (`console.error`) is left out.
- The `tieneBot` flag and the channel list of the welcome page (src/rutas/principal.js:78-84,
  151-153) are left out. They are direct cache reads with no logic of their own.
- The embed routes and the other pages are left out.
- Column values that are not strings are left out: SQLite TEXT columns always come back as
  strings, so the `typeof … === 'string'` tests are not modelled.
- JSON numbers are integers; floating point is not modelled.
- `parseInt` skips leading whitespace; that is not modelled. Saved colours come from a colour
  picker.
- `BigInt(servidor.permissions || 0)` throws on a non-numeric permission string. The model
  takes permissions as already parsed.
- Form fields other than `roles_auto` submitted as arrays are left out.
- Role ids stored as JSON arrays or objects are treated as unresolvable at join time. The
  platform's behaviour for such a fetch is not modelled.
- Welcome.GrantRun: roles are compared by their position in the cache at join time; a reorder
  between a save and a join is outside the model, except as a different `botTop`.
- Dashboard.RoleChoices: its contract states order, flags and contents, not the stability of the
  sort among equal positions, although `SortByPosition` is stable.
- Store.Upsert: a new row's `mensaje_bienvenida` is modelled as absent. The column default lives in
  the schema, which is not part of this model.
- Welcome.OnMemberJoin: what Node does with the rejected promise is not modelled.
- Whether the embed builder or Discord accepts a given embed (an invalid colour such as NaN, a
  non-string URL) is one boolean, `embedOk`.
