/**
 * `MusicQueue`: one guild's playback session. The queue array, the current
 * item (`resource.metadata.song`), the loop mode and the player's status are
 * fields that the methods update in place; everything the session emits is
 * appended, in order, to an event log.
 */
module Session {
  import opened Wrappers
  import opened QueueItem
  import opened QueueOps

  /** The audio player's status, reduced to what the session reads and causes. */
  datatype PlayerStatus = Idle | Playing | Paused

  /** The events the session emits, with their payloads. */
  datatype Event =
    | Added(item: Item)
    | PlaylistAdded(items: seq<Item>)
    | MovedToTop(item: Item)
    | Removed(items: seq<Item>)
    | Cleared
    | Play(item: Item)
    | PlayEnd
    | PauseEvent(item: Item)
    | ResumeEvent(item: Item)
    | Skipped(next: Option<Item>)
    | Destroyed

  class MusicQueue {
    const guildId: string
    var queue: seq<Item>
    var current: Option<Item>
    var loop: LoopType
    var player: PlayerStatus
    var connectionDestroyed: bool
    var events: seq<Event>

    /**
     * The session invariant: something is current exactly when the player is
     * not idle, and an idle player leaves nothing waiting in the queue.
     */
    ghost predicate Valid()
      reads this
    {
      && (player == Idle <==> current.None?)
      && (player == Idle ==> queue == [])
    }

    /** The waiting items and the current one. */
    function State(): Playlist
      reads this
    {
      Playlist(queue, current)
    }

    constructor (guildId: string)
      ensures Valid() && this.guildId == guildId
      ensures queue == [] && current == None && loop == NoLoop && player == Idle
      ensures !connectionDestroyed && events == []
    {
      this.guildId := guildId;
      queue, current, loop, player := [], None, NoLoop, Idle;
      connectionDestroyed, events := false, [];
    }

    /**
     * `playNext`: apply the next-item rule, start playing the chosen item and
     * emit `play`, or, with nothing waiting, clear the current item and emit
     * `playEnd`. Creating the audio stream is not modelled.
     */
    method PlayNext()
      modifies this
      ensures State() == Advance(old(State()), old(loop))
      ensures player == if |old(queue)| > 0 then Playing else old(player)
      ensures events == old(events) + [if |old(queue)| > 0 then Play(current.value) else PlayEnd]
      ensures loop == old(loop) && connectionDestroyed == old(connectionDestroyed)
    {
      if |queue| > 0 {
        var song: Item;
        if loop == SongLoop {
          if current.Some? {
            song := current.value;
          } else {
            song, queue := queue[0], queue[1..];
          }
        } else if loop == QueueLoop {
          if current.Some? {
            queue := queue + [current.value];
          }
          song, queue := queue[0], queue[1..];
        } else {
          song, queue := queue[0], queue[1..];
        }
        current, player := Some(song), Playing;
        events := events + [Play(song)];
      } else {
        current := None;
        events := events + [PlayEnd];
      }
    }

    /** The player's transition into Idle (the track ended): run `playNext`. */
    method OnPlayerIdle()
      modifies this
      ensures Valid()
      ensures State() == Advance(old(State()), old(loop))
      ensures player == if |old(queue)| > 0 then Playing else Idle
      ensures events == old(events) + [if |old(queue)| > 0 then Play(current.value) else PlayEnd]
      ensures loop == old(loop) && connectionDestroyed == old(connectionDestroyed)
    {
      player := Idle;
      PlayNext();
    }

    /** `add`: push at the tail, emit `add`, and start playing when the player is idle. */
    method Add(song: Item)
      requires Valid()
      modifies this
      ensures Valid()
      ensures old(player) == Idle ==>
                queue == [] && current == Some(song) && player == Playing
                && events == old(events) + [Added(song), Play(song)]
      ensures old(player) != Idle ==>
                queue == old(queue) + [song] && current == old(current) && player == old(player)
                && events == old(events) + [Added(song)]
      ensures loop == old(loop) && connectionDestroyed == old(connectionDestroyed)
    {
      queue := queue + [song];
      events := events + [Added(song)];
      if player == Idle {
        PlayNext();
      }
    }

    /** `addPlaylist`: push all items at the tail in order, emit, and start playing when idle. */
    method AddPlaylist(songs: seq<Item>)
      requires Valid()
      modifies this
      ensures Valid()
      ensures old(player) == Idle && |songs| > 0 ==>
                queue == songs[1..] && current == Some(songs[0]) && player == Playing
                && events == old(events) + [PlaylistAdded(songs), Play(songs[0])]
      ensures old(player) == Idle && |songs| == 0 ==>
                queue == [] && current == None && player == Idle
                && events == old(events) + [PlaylistAdded(songs), PlayEnd]
      ensures old(player) != Idle ==>
                queue == old(queue) + songs && current == old(current) && player == old(player)
                && events == old(events) + [PlaylistAdded(songs)]
      ensures loop == old(loop) && connectionDestroyed == old(connectionDestroyed)
    {
      queue := queue + songs;
      events := events + [PlaylistAdded(songs)];
      if player == Idle {
        PlayNext();
      }
    }

    /** `top(index)`: move the item at the index to the front and emit `top` with it. */
    method Top(index: int)
      requires Valid()
      requires 0 < |queue| && index < |queue|
      modifies this`queue, this`events
      ensures Valid()
      ensures queue == MoveToFront(old(queue), index)
      ensures events == old(events) + [MovedToTop(queue[0])]
    {
      var (removed, rest) := SpliceOne(queue, index);
      queue := removed + rest;
      events := events + [MovedToTop(removed[0])];
    }

    /** `remove(index)`: `splice(index, 1)` and emit `remove` with what was spliced out. */
    method Remove(index: int)
      requires Valid()
      modifies this`queue, this`events
      ensures Valid()
      ensures queue == SpliceOne(old(queue), index).1
      ensures events == old(events) + [Removed(SpliceOne(old(queue), index).0)]
    {
      var (removed, rest) := SpliceOne(queue, index);
      queue := rest;
      events := events + [Removed(removed)];
    }

    /** `clear`: empty the queue; the current item keeps playing. */
    method Clear()
      requires Valid()
      modifies this`queue, this`events
      ensures Valid()
      ensures queue == [] && current == old(current) && player == old(player)
      ensures events == old(events) + [Cleared]
    {
      queue := [];
      events := events + [Cleared];
    }

    /** `currentSong`: the item bound to the player's resource, if any. */
    function CurrentSong(): (r: Option<Item>)
      reads this
      requires Valid()
      ensures r.Some? <==> player != Idle
    {
      current
    }

    /** `isPaused`. */
    function IsPaused(): (r: bool)
      reads this
      requires Valid()
      ensures r ==> CurrentSong().Some?
    {
      player == Paused
    }

    /**
     * `pause`: pause the player (a no-op unless it is playing), then emit
     * `pause` with the current item. With no current item reading its
     * metadata throws: `ok` is false and no event is emitted.
     */
    method Pause() returns (ok: bool)
      requires Valid()
      modifies this`player, this`events
      ensures Valid()
      ensures ok <==> current.Some?
      ensures player == if old(player) == Playing then Paused else old(player)
      ensures events == if ok then old(events) + [PauseEvent(current.value)] else old(events)
    {
      if player == Playing {
        player := Paused;
      }
      if current.None? {
        return false;
      }
      events := events + [PauseEvent(current.value)];
      ok := true;
    }

    /** `resume`: unpause the player (a no-op unless paused), then emit `resume`; throws like `pause`. */
    method Resume() returns (ok: bool)
      requires Valid()
      modifies this`player, this`events
      ensures Valid()
      ensures ok <==> current.Some?
      ensures player == if old(player) == Paused then Playing else old(player)
      ensures events == if ok then old(events) + [ResumeEvent(current.value)] else old(events)
    {
      if player == Paused {
        player := Playing;
      }
      if current.None? {
        return false;
      }
      events := events + [ResumeEvent(current.value)];
      ok := true;
    }

    /**
     * `skip`: stop the player and take exactly one `playNext` step, emit
     * `skip` with the new current item, and return the skipped one. With no
     * current item reading its metadata throws first: nothing changes and
     * nothing is returned.
     */
    method Skip() returns (skipped: Option<Item>)
      requires Valid()
      modifies this
      ensures Valid()
      ensures skipped == old(current)
      ensures old(current).None? ==> unchanged(this)
      ensures old(current).Some? ==>
                && State() == Advance(old(State()), old(loop))
                && player == (if |old(queue)| > 0 then Playing else Idle)
                && events == old(events) + [if |old(queue)| > 0 then Play(current.value) else PlayEnd, Skipped(current)]
      ensures loop == old(loop) && connectionDestroyed == old(connectionDestroyed)
    {
      if current.None? {
        return None;
      }
      skipped := current;
      player := Idle;
      PlayNext();
      events := events + [Skipped(current)];
    }

    /** `setLoop`: takes effect at the next `playNext`. */
    method SetLoop(mode: LoopType)
      modifies this`loop
      ensures loop == mode
    {
      loop := mode;
    }

    /** `destroy`: tear down the voice connection and emit `destroy`. */
    method Destroy()
      modifies this`connectionDestroyed, this`events
      ensures connectionDestroyed && events == old(events) + [Destroyed]
    {
      connectionDestroyed := true;
      events := events + [Destroyed];
    }
  }

  /**
   * A client of the contracts above: on an empty idle session, `add(a)` plays
   * a at once; with b and c added behind it, `skip` returns a and plays b,
   * leaving [c] waiting.
   */
  method SkipScenario(a: Item, b: Item, c: Item)
  {
    var s := new MusicQueue("guild");
    s.Add(a);
    assert s.current == Some(a) && s.queue == [];
    s.Add(b);
    s.Add(c);
    assert s.queue == [b, c];
    var skipped := s.Skip();
    assert skipped == Some(a);
    assert s.current == Some(b) && s.queue == [c];
    assert s.events[|s.events| - 1] == Skipped(Some(b));
  }
}
