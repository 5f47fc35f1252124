/**
 * `PlayListItemSelector`: which queue entry each user has picked in the
 * queue view, one entry per user.
 */
module Selection {
  import opened Wrappers

  class PlayListItemSelector {
    var registry: map<string, string>

    constructor ()
      ensures registry == map[]
    {
      registry := map[];
    }

    /**
     * `getSelectedId`: the user's selection, or nothing when there is none.
     * An empty identifier is falsy and reads as nothing too.
     */
    function GetSelectedId(user: string): (r: Option<string>)
      reads this
      ensures r.Some? <==> user in registry && registry[user] != ""
      ensures r.Some? ==> r.value == registry[user]
    {
      var id := if user in registry then registry[user] else "";
      if id != "" then Some(id) else None
    }

    /** `select`: overwrite the user's one entry; other users' selections stay. */
    method Select(user: string, musicId: string)
      modifies this
      ensures registry == old(registry)[user := musicId]
      ensures GetSelectedId(user) == if musicId == "" then None else Some(musicId)
      ensures forall u :: u != user ==> GetSelectedId(u) == old(GetSelectedId(u))
    {
      registry := registry[user := musicId];
    }

    /** `remove`: delete the user's entry; other users' selections stay. */
    method Remove(user: string)
      modifies this
      ensures registry == old(registry) - {user}
      ensures GetSelectedId(user) == None
      ensures forall u :: u != user ==> GetSelectedId(u) == old(GetSelectedId(u))
    {
      registry := registry - {user};
    }
  }
}
