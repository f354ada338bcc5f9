/** `actualizarEstadisticas` (bot.js): a debounced recount of guilds, members and channels,
    written to the single statistics row. */
module Stats {
  import opened Wrappers

  /** INTERVALO_ACTUALIZACION, in milliseconds. */
  const REFRESH_INTERVAL: int := 60000

  /** One guild as the refresh sees it: the member and channel counts its fetches return
      (None when the fetch rejects), and the cached values used instead. */
  datatype GuildCounts = GuildCounts(
    fetchedMembers: Option<nat>,   // `guild.members.fetch(...)` size
    memberCount: Option<nat>,      // `guild.memberCount`, possibly absent
    fetchedChannels: Option<nat>,  // `guild.channels.fetch()` size
    cachedChannels: nat)           // `guild.channels.cache.size`

  /** The fetched member count, else `guild.memberCount || 0`. */
  function MemberTally(g: GuildCounts): nat {
    match g.fetchedMembers
    case Some(n) => n
    case None => g.memberCount.GetOr(0)
  }

  /** The fetched channel count, else the cached one. */
  function ChannelTally(g: GuildCounts): nat {
    match g.fetchedChannels
    case Some(n) => n
    case None => g.cachedChannels
  }

  function TotalMembers(gs: seq<GuildCounts>): nat
    decreases |gs|
  {
    if gs == [] then 0 else TotalMembers(gs[..|gs| - 1]) + MemberTally(gs[|gs| - 1])
  }

  function TotalChannels(gs: seq<GuildCounts>): nat
    decreases |gs|
  {
    if gs == [] then 0 else TotalChannels(gs[..|gs| - 1]) + ChannelTally(gs[|gs| - 1])
  }

  /** total_servidores, total_usuarios, total_canales. */
  datatype Totals = Totals(servers: nat, users: nat, channels: nat)

  function Aggregate(gs: seq<GuildCounts>): (t: Totals)
    ensures t.servers == |gs|
    ensures gs == [] ==> t == Totals(0, 0, 0)
  {
    Totals(|gs|, TotalMembers(gs), TotalChannels(gs))
  }

  /** Sums split over concatenation: every guild contributes exactly its own tally. */
  lemma {:induction false} TotalsConcat(a: seq<GuildCounts>, b: seq<GuildCounts>)
    ensures TotalMembers(a + b) == TotalMembers(a) + TotalMembers(b)
    ensures TotalChannels(a + b) == TotalChannels(a) + TotalChannels(b)
    decreases |b|
  {
    if b == [] {
      assert a + b == a;
    } else {
      var b' := b[..|b| - 1];
      assert (a + b)[..|a + b| - 1] == a + b';
      assert (a + b)[|a + b| - 1] == b[|b| - 1];
      TotalsConcat(a, b');
    }
  }

  /** A guild whose fetch fails changes the totals only by its own contribution, which is
      then its cached count: the other guilds' real counts stay in the sum. */
  lemma FailedFetchIsLocal(gs: seq<GuildCounts>, i: nat, g: GuildCounts)
    requires i < |gs|
    ensures TotalMembers(gs[i := g]) + MemberTally(gs[i]) == TotalMembers(gs) + MemberTally(g)
    ensures TotalChannels(gs[i := g]) + ChannelTally(gs[i]) == TotalChannels(gs) + ChannelTally(g)
  {
    var before, after := gs[..i], gs[i + 1..];
    assert gs == before + [gs[i]] + after;
    assert gs[i := g] == before + [g] + after;
    TotalsConcat(before + [gs[i]], after);
    TotalsConcat(before, [gs[i]]);
    TotalsConcat(before + [g], after);
    TotalsConcat(before, [g]);
    assert [gs[i]][..0] == [] && [g][..0] == [];
  }

  /** What the returned promise settles to: `undefined` when debounced, the totals after a
      successful write, a rejection after a failed one. */
  datatype RefreshResult = Skipped | Refreshed(totals: Totals) | Failed

  /** The `estadisticas` table; `row` is the row with id 1, if it exists. */
  class StatsTable {
    var row: Option<Totals>

    constructor (initial: Option<Totals>)
      ensures row == initial
    {
      row := initial;
    }

    /** `UPDATE estadisticas SET ... WHERE id = 1`: changes the row if there is one. */
    method Update(t: Totals)
      modifies this
      ensures row == if old(row).Some? then Some(t) else None
    {
      if row.Some? {
        row := Some(t);
      }
    }
  }

  /** The module-level `ultimaActualizacion` and the refresh that reads and sets it. */
  class StatsRefresher {
    var lastUpdate: int

    constructor ()
      ensures lastUpdate == 0
    {
      lastUpdate := 0;
    }

    /** A call recomputes when forced or when the window since the last success is over. */
    predicate Due(force: bool, now: int)
      reads this
    {
      force || now - lastUpdate >= REFRESH_INTERVAL
    }

    /** `now` is `Date.now()`, `guilds` the cached guilds with their fetch results, and
        `writeOk` whether the UPDATE succeeds. */
    method Refresh(force: bool, now: int, guilds: seq<GuildCounts>, table: StatsTable, writeOk: bool)
      returns (r: RefreshResult)
      modifies this, table
      ensures !old(Due(force, now)) ==> r == Skipped && lastUpdate == old(lastUpdate) && table.row == old(table.row)
      ensures old(Due(force, now)) && writeOk ==>
        && r == Refreshed(Aggregate(guilds))
        && lastUpdate == now
        && table.row == (if old(table.row).Some? then Some(Aggregate(guilds)) else None)
      ensures old(Due(force, now)) && !writeOk ==>
        r == Failed && lastUpdate == old(lastUpdate) && table.row == old(table.row)
    {
      if !force && now - lastUpdate < REFRESH_INTERVAL {
        return Skipped;
      }
      var totals: Totals;
      if |guilds| == 0 {
        totals := Totals(0, 0, 0);
      } else {
        var servers := |guilds|;
        var users, channels := 0, 0;
        var i := 0;
        while i < |guilds|
          invariant 0 <= i <= |guilds|
          invariant users == TotalMembers(guilds[..i])
          invariant channels == TotalChannels(guilds[..i])
          decreases |guilds| - i
        {
          assert guilds[..i + 1][..i] == guilds[..i];
          users := users + MemberTally(guilds[i]);
          channels := channels + ChannelTally(guilds[i]);
          i := i + 1;
        }
        assert guilds[..i] == guilds;
        totals := Totals(servers, users, channels);
      }
      if !writeOk {
        return Failed;
      }
      table.Update(totals);
      lastUpdate := now;
      r := Refreshed(totals);
    }
  }

  /** Two unforced calls less than a minute apart after a success: the second does nothing. */
  method RefreshTwiceWithinWindow(refresher: StatsRefresher, table: StatsTable, now: int, later: int, guilds: seq<GuildCounts>)
    returns (first: RefreshResult, second: RefreshResult)
    requires now <= later < now + REFRESH_INTERVAL
    modifies refresher, table
    ensures first.Refreshed? ==> second == Skipped && refresher.lastUpdate == now
  {
    first := refresher.Refresh(false, now, guilds, table, true);
    second := refresher.Refresh(false, later, guilds, table, true);
  }
}
