/** The chat platform's objects as the join handler and the dashboard read them. */
module Platform {
  import opened Wrappers

  /** A guild role: its id, display name and colour, its rank in the guild's hierarchy, and
      whether an integration manages it. */
  datatype GuildRole = GuildRole(id: string, name: string, color: nat, position: int, managed: bool)

  /** `guild.roles.cache.get(id)`: the role with that id, if the guild has one. */
  function FindRole(roles: seq<GuildRole>, id: string): (r: Option<GuildRole>)
    ensures r.Some? <==> exists k :: 0 <= k < |roles| && roles[k].id == id
    ensures r.Some? ==> r.value in roles && r.value.id == id
    decreases |roles|
  {
    if roles == [] then None
    else if roles[0].id == id then Some(roles[0])
    else
      var r := FindRole(roles[1..], id);
      assert forall k :: 1 <= k < |roles| ==> roles[k] == roles[1..][k - 1];
      r
  }

  /** `user.toString()`: the mention form of a user. */
  function Mention(userId: string): string {
    "<@" + userId + ">"
  }
}
