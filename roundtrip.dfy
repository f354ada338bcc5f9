/** How the two halves of the system meet in the welcome table: what the dashboard's save
    action writes, read back by the dashboard and by the bot's join handler. */
module Roundtrip {
  import opened Wrappers
  import opened Json
  import opened Colour
  import opened Platform
  import opened Store
  import opened Welcome
  import opened Dashboard

  /** The row the save action leaves behind. */
  function SavedRow(t: WelcomeTable, guildId: string, guild: CachedGuild, f: WelcomeForm): (row: WelcomeRow)
    ensures row == Upsert(t, guildId, SaveColumns(f, guild))[guildId]
  {
    Upsert(t, guildId, SaveColumns(f, guild))[guildId]
  }

  /** A submitted text field as the page shows it. */
  function FieldOr(v: Option<string>, default: string): JValue {
    JStr(if Given(v) then v.value else default)
  }

  /** A submitted URL or footer field as the page shows it: null when empty. */
  function FieldOrNull(v: Option<string>): JValue {
    if Given(v) then JStr(v.value) else JNull
  }

  /** A successful write is what later reads see, and it only touches the saved guild. */
  lemma SaveWrites(t: WelcomeTable, guildId: string, guild: CachedGuild, f: WelcomeForm)
    ensures var (u, out) := SaveWelcome(t, guildId, Some(guild), f, true);
      && out == Saved
      && SelectRow(u, guildId) == Some(SavedRow(t, guildId, guild, f))
      && forall g :: g != guildId ==> SelectRow(u, g) == SelectRow(t, g)
  {
  }

  /** The keys of the stored embed object, and the canonical keys it lacks. */
  lemma BlobProps(f: WelcomeForm)
    ensures var e := EmbedBlob(f);
      && Prop(e, "title") == None && Prop(e, "description") == None && Prop(e, "image") == None
      && Prop(e, "titulo") == Some(TextOrNull(f.title))
      && Prop(e, "descripcion") == Some(TextOrNull(f.description))
      && Prop(e, "color") == Some(FieldOr(f.color, BRAND_COLOUR))
      && Prop(e, "imagen") == Some(Wrapped("url", f.image))
      && Prop(e, "thumbnail") == Some(Wrapped("url", f.thumbnail))
      && Prop(e, "footer") == Some(Wrapped("text", f.footer))
  {
  }

  /** `x ? (x.key || x) : null` undoes `v ? { key: v } : null`. */
  lemma UnwrapWrapped(key: string, v: Option<string>)
    ensures Unwrap(Some(Wrapped(key, v)), key, JNull) == FieldOrNull(v)
  {
    if Given(v) {
      assert Prop(Wrapped(key, v), key) == Some(JStr(v.value));
    }
  }

  /** The welcome page re-reads the embed fields exactly as they were submitted, with the
      same defaults the save applied. */
  lemma SavedEmbedReadsBack(f: WelcomeForm)
    ensures ReadEmbed(Encode(EmbedBlob(f))) == Normalised(EmbedView(
      FieldOr(f.title, ""),
      FieldOr(f.description, ""),
      FieldOr(f.color, BRAND_COLOUR),
      FieldOrNull(f.image),
      FieldOrNull(f.thumbnail),
      FieldOrNull(f.footer)))
  {
    var e := EmbedBlob(f);
    BlobProps(f);
    UnwrapWrapped("url", f.image);
    UnwrapWrapped("url", f.thumbnail);
    UnwrapWrapped("text", f.footer);
    var v := NormaliseEmbed(e);
    assert v.titulo == FieldOr(f.title, "");
    assert v.descripcion == FieldOr(f.description, "");
    assert v.color == FieldOr(f.color, BRAND_COLOUR);
    assert v.imagen == FieldOrNull(f.image);
    assert v.thumbnail == FieldOrNull(f.thumbnail);
    assert v.footer == FieldOrNull(f.footer);
  }

  /** The welcome page re-reads the stored role list as the list that was kept. */
  lemma SavedRolesReadBack(ids: seq<string>)
    ensures ReadRoles(RolesColumn(ids)) == ids
  {
    if ids != [] {
      var r := ReadRoles(RolesColumn(ids));
      assert |r| == |ids|;
      forall k | 0 <= k < |ids| ensures r[k] == ids[k] {
        assert RolesColumn(ids).parsed.value.items[k] == JStr(ids[k]);
      }
    }
  }

  /** Each id as the JSON string element the save stores. */
  function Strs(ids: seq<string>): (items: seq<JValue>)
    ensures |items| == |ids| && forall k :: 0 <= k < |ids| ==> items[k] == JStr(ids[k])
  {
    seq(|ids|, k requires 0 <= k < |ids| => JStr(ids[k]))
  }

  /** At join time the bot walks exactly the stored ids when the auto-role switch was on. */
  lemma SavedRoleItems(f: WelcomeForm, guild: CachedGuild, t: WelcomeTable, guildId: string)
    ensures var kept := KeepAssignable(SelectedRoles(f.roles), guild.roles, BotPosition(guild.botTop));
      RoleItems(SavedRow(t, guildId, guild, f)) == if f.autoRole == Some("on") then Strs(kept) else []
  {
    var kept := KeepAssignable(SelectedRoles(f.roles), guild.roles, BotPosition(guild.botTop));
    if kept != [] {
      assert RolesColumn(kept).parsed.value.items == Strs(kept);
    }
  }

  /** Ids that all name roles strictly below `botTop` are all attempted, in order. */
  lemma {:induction false} GrantRunOfAssignable(ids: seq<string>, roles: seq<GuildRole>, botTop: int, failures: set<string>)
    requires forall id :: id in ids ==> id != "" && Assignable(roles, botTop, id)
    ensures AttemptedIds(GrantRun(Strs(ids), roles, Some(botTop), failures)) == ids
    decreases |ids|
  {
    if ids != [] {
      var items := Strs(ids);
      assert items[1..] == Strs(ids[1..]);
      forall id | id in ids[1..] ensures id != "" && Assignable(roles, botTop, id) {
        assert id in ids;
      }
      GrantRunOfAssignable(ids[1..], roles, botTop, failures);
      assert ids[0] in ids;
      assert Lookup(roles, items[0]) == Found(FindRole(roles, ids[0]).value);
      assert FirstGrant(roles, items[0], botTop) == [ids[0]];
      AttemptedStep(items, roles, botTop, failures);
      assert ids == [ids[0]] + ids[1..];
    }
  }

  /** When no role of the guild has an empty id and the bot's position is unchanged, every
      role the save kept is attempted at the next join, in the order kept, and no other. */
  lemma SavedRolesGranted(f: WelcomeForm, guild: CachedGuild, t: WelcomeTable, guildId: string, botTop: int, failures: set<string>)
    requires guild.botTop == Some(botTop)
    requires forall r :: r in guild.roles ==> r.id != ""
    requires f.autoRole == Some("on")
    ensures AttemptedIds(GrantRun(RoleItems(SavedRow(t, guildId, guild, f)), guild.roles, guild.botTop, failures))
         == KeepAssignable(SelectedRoles(f.roles), guild.roles, botTop)
  {
    var kept := KeepAssignable(SelectedRoles(f.roles), guild.roles, botTop);
    SavedRoleItems(f, guild, t, guildId);
    forall id | id in kept ensures id != "" && Assignable(guild.roles, botTop, id) {
      assert FindRole(guild.roles, id).value in guild.roles;
    }
    GrantRunOfAssignable(kept, guild.roles, botTop, failures);
  }

  /** The join handler finds the saved embed and hands its wrapped URL and footer objects to
      the builder as they are. */
  lemma SavedEmbedAtJoin(f: WelcomeForm)
    ensures EmbedData(Encode(EmbedBlob(f))) == Some(EmbedBlob(f))
    ensures var p := BuildEmbed(EmbedBlob(f));
      && p.title == (if Given(f.title) then Some(JStr(f.title.value)) else None)
      && p.description == (if Given(f.description) then Some(JStr(f.description.value)) else None)
      && p.image == (if Given(f.image) then Some(JObj(map["url" := JStr(f.image.value)])) else None)
      && p.thumbnail == (if Given(f.thumbnail) then Some(JObj(map["url" := JStr(f.thumbnail.value)])) else None)
      && p.footerText == (if Given(f.footer) then Some(JObj(map["text" := JStr(f.footer.value)])) else None)
      && p.colour == Some(ColourOf(FieldOr(f.color, BRAND_COLOUR)))
  {
    BlobProps(f);
    BuildFromSavedKeys(EmbedBlob(f), f);
  }

  /** The builder calls for any object holding the keys the save writes. */
  lemma BuildFromSavedKeys(d: JValue, f: WelcomeForm)
    requires d != JNull
    requires Prop(d, "titulo") == Some(TextOrNull(f.title))
    requires Prop(d, "descripcion") == Some(TextOrNull(f.description))
    requires Prop(d, "color") == Some(FieldOr(f.color, BRAND_COLOUR))
    requires Prop(d, "imagen") == Some(Wrapped("url", f.image))
    requires Prop(d, "thumbnail") == Some(Wrapped("url", f.thumbnail))
    requires Prop(d, "footer") == Some(Wrapped("text", f.footer))
    ensures var p := BuildEmbed(d);
      && p.title == (if Given(f.title) then Some(JStr(f.title.value)) else None)
      && p.description == (if Given(f.description) then Some(JStr(f.description.value)) else None)
      && p.image == (if Given(f.image) then Some(JObj(map["url" := JStr(f.image.value)])) else None)
      && p.thumbnail == (if Given(f.thumbnail) then Some(JObj(map["url" := JStr(f.thumbnail.value)])) else None)
      && p.footerText == (if Given(f.footer) then Some(JObj(map["text" := JStr(f.footer.value)])) else None)
      && p.colour == Some(ColourOf(FieldOr(f.color, BRAND_COLOUR)))
  {
    SetterOfText(f.title);
    SetterOfText(f.description);
    SetterOfWrapped("url", f.image);
    SetterOfWrapped("url", f.thumbnail);
    SetterOfWrapped("text", f.footer);
  }

  /** A saved text field reaches its setter exactly when it was submitted nonempty. */
  lemma SetterOfText(v: Option<string>)
    ensures IfTruthy(Some(TextOrNull(v))) == if Given(v) then Some(JStr(v.value)) else None
  {
  }

  /** A saved wrapped field reaches its setter, still wrapped, exactly when it was submitted
      nonempty. */
  lemma SetterOfWrapped(key: string, v: Option<string>)
    ensures IfTruthy(Some(Wrapped(key, v))) == if Given(v) then Some(JObj(map[key := JStr(v.value)])) else None
  {
  }

  /** A colour picked as `#rrggbb` reaches the builder as its 24-bit value, and an empty
      colour field as the brand colour 0x5865F2. */
  lemma SavedColourAtJoin(f: WelcomeForm, n: nat)
    requires n < 0x1000000
    ensures f.color == Some("#" + FormatHex(n, 6)) ==> BuildEmbed(EmbedBlob(f)).colour == Some(HexColour(Int(n)))
    ensures !Given(f.color) ==> BuildEmbed(EmbedBlob(f)).colour == Some(HexColour(Int(0x5865F2)))
  {
    SavedEmbedAtJoin(f);
    ParseFormattedColour(n);
    BrandColourValue();
  }

  /** The bot greets on the saved guild exactly when the enable checkbox was ticked. */
  lemma SavedEnableSwitch(t: WelcomeTable, guildId: string, guild: CachedGuild, f: WelcomeForm)
    ensures var (u, _) := SaveWelcome(t, guildId, Some(guild), f, true);
      SelectEnabled(u, guildId).Some? <==> f.enabled == Some("on")
  {
  }

  /** After a successful save the welcome page shows the submitted embed fields, as
      `SavedEmbedReadsBack` reads them, and exactly the role ids the save kept. */
  lemma SavedConfigShown(t: WelcomeTable, guildId: string, guild: CachedGuild, f: WelcomeForm)
    ensures var (u, _) := SaveWelcome(t, guildId, Some(guild), f, true);
      var v := ViewConfig(true, SelectRow(u, guildId));
      && v.Some? && v.value.row == Some(SavedRow(t, guildId, guild, f))
      && v.value.embed == Some(Normalised(EmbedView(
           FieldOr(f.title, ""), FieldOr(f.description, ""), FieldOr(f.color, BRAND_COLOUR),
           FieldOrNull(f.image), FieldOrNull(f.thumbnail), FieldOrNull(f.footer))))
      && v.value.roles == KeepAssignable(SelectedRoles(f.roles), guild.roles, BotPosition(guild.botTop))
  {
    SavedEmbedReadsBack(f);
    SavedRolesReadBack(KeepAssignable(SelectedRoles(f.roles), guild.roles, BotPosition(guild.botTop)));
  }
}
