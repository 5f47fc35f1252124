/**
 * The process-wide map from guild to session (`MusicQueue.map` with
 * `create`, `getByGuildId` and `removeByGuildId`), and the connection's
 * Disconnected handler, which can end a session through it.
 */
module Registry {
  import opened Wrappers
  import opened QueueItem
  import opened Session

  class SessionRegistry {
    var sessions: map<string, MusicQueue>

    /** Each guild's key holds that guild's session, and every session keeps its own invariant. */
    ghost predicate Valid()
      reads this, sessions.Values
    {
      forall g | g in sessions :: sessions[g].guildId == g && sessions[g].Valid()
    }

    constructor ()
      ensures Valid() && sessions == map[]
    {
      sessions := map[];
    }

    /** `getByGuildId`: the guild's session, or nothing. */
    function GetByGuildId(guildId: string): (r: Option<MusicQueue>)
      reads this, sessions.Values
      requires Valid()
      ensures r.Some? <==> guildId in sessions
      ensures r.Some? ==> r.value.guildId == guildId && r.value.Valid()
    {
      if guildId in sessions then Some(sessions[guildId]) else None
    }

    /**
     * `create`: the guild's existing session when there is one (a repeated
     * join changes nothing), otherwise a new, empty session stored under the guild.
     */
    method Create(guildId: string) returns (q: MusicQueue)
      requires Valid()
      modifies this
      ensures Valid()
      ensures guildId in sessions && sessions[guildId] == q && q.guildId == guildId
      ensures guildId in old(sessions) ==> q == old(sessions)[guildId] && sessions == old(sessions)
      ensures guildId !in old(sessions) ==>
                && fresh(q) && sessions == old(sessions)[guildId := q]
                && q.queue == [] && q.current == None && q.loop == QueueOps.NoLoop
                && q.player == Idle && q.events == [] && !q.connectionDestroyed
    {
      if guildId in sessions {
        q := sessions[guildId];
      } else {
        q := new MusicQueue(guildId);
        sessions := sessions[guildId := q];
      }
    }

    /** `removeByGuildId`: destroy the guild's session if there is one, and always delete the key. */
    method RemoveByGuildId(guildId: string)
      requires Valid()
      modifies this, if guildId in sessions then {sessions[guildId]} else {}
      ensures Valid()
      ensures sessions == old(sessions) - {guildId}
      ensures guildId in old(sessions) ==>
                var s := old(sessions)[guildId];
                && s.connectionDestroyed
                && s.events == old(s.events) + [Destroyed]
                && s.queue == old(s.queue) && s.current == old(s.current)
                && s.player == old(s.player) && s.loop == old(s.loop)
    {
      if guildId in sessions {
        var s := sessions[guildId];
        s.Destroy();
      }
      sessions := sessions - {guildId};
    }

    /**
     * The connection's transition into Disconnected: pause, then wait for the
     * connection to re-enter Signalling or Connecting within five seconds.
     * `recovered` stands for the outcome of that race. On recovery the session
     * resumes; when the wait times out, or when `pause` throws because nothing
     * is current, the session is destroyed and removed.
     */
    method OnDisconnected(guildId: string, recovered: bool)
      requires Valid()
      modifies this, if guildId in sessions then {sessions[guildId]} else {}
      ensures Valid()
      ensures guildId !in old(sessions) ==> sessions == old(sessions)
      ensures guildId in old(sessions) ==>
                var s := old(sessions)[guildId];
                && s.queue == old(s.queue) && s.current == old(s.current) && s.loop == old(s.loop)
                && (old(s.current).Some? && recovered ==>
                      && sessions == old(sessions) && s.player == Playing
                      && s.connectionDestroyed == old(s.connectionDestroyed)
                      && s.events == old(s.events) + [PauseEvent(s.current.value), ResumeEvent(s.current.value)])
                && (old(s.current).Some? && !recovered ==>
                      && sessions == old(sessions) - {guildId} && s.connectionDestroyed
                      && s.events == old(s.events) + [PauseEvent(s.current.value), Destroyed])
                && (old(s.current).None? ==>
                      && sessions == old(sessions) - {guildId} && s.connectionDestroyed
                      && s.events == old(s.events) + [Destroyed])
                && (!(old(s.current).Some? && recovered) ==>
                      s.player == if old(s.player) == Playing then Paused else old(s.player))
    {
      if guildId !in sessions {
        return;
      }
      var s := sessions[guildId];
      var ok := s.Pause();
      if ok && recovered {
        ok := s.Resume();
      } else {
        RemoveByGuildId(guildId);
      }
    }
  }

  /** Joining twice returns the same session: at most one session per guild. */
  method JoinTwice(r: SessionRegistry, guildId: string)
    requires r.Valid()
    modifies r
  {
    var q1 := r.Create(guildId);
    var q2 := r.Create(guildId);
    assert q1 == q2 && r.GetByGuildId(guildId) == Some(q1);
  }
}
