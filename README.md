# Per-guild music queue engine

A Dafny model of the playback queue engine of a chat-bot music feature
(`src/libs/music.js`). Each guild has one session (`MusicQueue`) holding an
ordered queue of items, the item currently bound to the audio player (or
none), a loop mode (none, song, queue) and the player's status. A
process-wide registry maps guild to session. A per-user selector remembers
which queue entry a user picked in the queue view. The queue is shown in
pages of twenty.

Modules, one file each:

- `Wrappers`: `Option` and `Result`.
- `QueueItem`: the `MusicQueueItem` value, the split of a duration into
  minutes and seconds, its `m:s` text, and a reader that recovers the
  seconds from that text.
- `QueueOps`: the pure queue transformations. These are JavaScript's
  `splice(index, 1)` index rule, move-to-front for `top`, `find` by unique
  id, `queue[index]`, and `Advance`, the rule `playNext` uses to choose the
  next item in each loop mode. It also holds `AdvanceAsWritten`, the
  queue-loop branch as the source writes it (see Findings).
- `Pagination`: `queueList` (JavaScript `slice`, including its negative
  bounds) and `getQueueMaxPage`.
- `Session`: the class `MusicQueue`. Its methods update `queue`, `current`,
  `loop` and `player` in place and append every emitted event to `events`.
  `Valid()` is the session invariant: something is current exactly when the
  player is not idle, and an idle player has nothing waiting.
- `Registry`: the class `SessionRegistry` (the static `MusicQueue.map`) and
  the connection's Disconnected handler.
- `Selection`: the class `PlayListItemSelector`.

Things outside the core are parameters of the model:

- The audio player's status is a field with three values.
- The stream and resource creation in `playNext` is only the setting of `current`.
- `randomUUID()` is the `uniqueId` argument of `MakeItem`.
- The outcome of the five-second reconnection race is the `recovered` argument of `OnDisconnected`.

Behaviours of the code worth noting:

- The duration text is `${minutes}:${seconds}` without zero padding (185 s gives `3:5`, not `03:05`).
- `remove` with an index past the end emits `remove` with an empty list. It is not silent.
- A negative index to `remove` or `top` counts from the end, as `splice` does.
- `skip` calls `playNext` itself after `player.stop()` rather than waiting for the idle transition.
- `addPlaylist` emits `addPlayList`. The model's event is `PlaylistAdded`.

## Model

| member | source | states |
|---|---|---|
| `QueueItem.SplitDuration` | src/libs/music.js:47-48 | minutes * 60 + seconds equals the duration and 0 <= seconds < 60, for every integer duration |
| `QueueItem.SplitDurationUnique` | src/libs/music.js:47-48 | that pair is the only one with those two properties, so the split is floor division |
| `QueueItem.DurationTextRoundTrip` | src/libs/music.js:48 | reading the `m:s` text back gives the original seconds, for every integer |
| `QueueItem.DurationTextInjective` | src/libs/music.js:48 | distinct durations never render to the same text |
| `QueueItem.NatToString` | src/libs/music.js:48 | a non-negative number prints as a non-empty run of decimal digits with no leading zero (only 0 itself starts with '0') |
| `QueueItem.IntToString` | src/libs/music.js:48 | a number prints as a non-empty text that starts with '-' exactly when it is negative, and otherwise consists of decimal digits; there is no leading zero, after the sign or without one, except for "0" itself |
| `QueueItem.DurationText` | src/libs/music.js:48 | the text is the printed minutes, then the first ':', then the printed seconds |
| `QueueItem.MakeItem` | src/libs/music.js:40-50 | the item carries the fresh unique id, and its duration text reads back as the given seconds |
| `QueueOps.SpliceStart` | src/libs/music.js:183 | the splice position: a valid index is itself; -len <= i < 0 counts from the end; below that clamps to 0 and past the end to len |
| `QueueOps.SpliceOne` | src/libs/music.js:188-191 | splice(i, 1) removes at most one item and conserves the multiset; whenever the resolved start k (negative indices included) lies inside the queue, it removes [q[k]] and leaves q[..k] + q[k+1..]; an index past the end removes nothing |
| `QueueOps.MoveToFront` | src/libs/music.js:182-186 | `top`: same length and multiset, the chosen item leads, and the rest is the queue with that item spliced out, in order |
| `QueueOps.MoveToFrontValidIndex` | src/libs/music.js:182-186 | for 0 <= i < len the result is [q[i]] + q[..i] + q[i+1..], and top(0) changes nothing |
| `QueueOps.Find` | src/libs/music.js:278-280 | finds an item exactly when some item has the unique id, and then returns the first such item |
| `QueueOps.Get` | src/libs/music.js:287-289 | an item exactly for indices 0 <= i < len, and then an item of the queue |
| `QueueOps.Advance` | src/libs/music.js:205-248 | the playNext rule: an empty queue leaves nothing current and nothing waiting. Otherwise the modes act as follows. none: head-pop. song with a current item: unchanged. song without one: head-pop. queue with a current item: the current item goes to the tail, then head-pop |
| `QueueOps.QueueLoopConserves` | src/libs/music.js:216-221 | in queue loop the held items (queue plus current) are the same multiset and the queue length is unchanged |
| `QueueOps.AdvanceNeverAdds` | src/libs/music.js:205-248 | playNext never holds an item it did not hold before |
| `QueueOps.SongLoopRepeats` | src/libs/music.js:211-215 | with song loop and a current item, any number of playNext steps leaves the state unchanged |
| `QueueOps.QueueLoopStep` | src/libs/music.js:216-221 | one queue-loop step keeps an item current and the queue length, and rotates the cycle (current, then queue) left by one |
| `QueueOps.QueueLoopRotates` | src/libs/music.js:216-221 | after n queue-loop steps the cycle (current, then queue) is rotated left by n |
| `QueueOps.QueueLoopPeriod` | src/libs/music.js:216-221 | after len + 1 queue-loop steps the state is the original one |
| `QueueOps.AdvanceAsWritten` | src/libs/music.js:205-224 | as written, playNext throws exactly when the queue is non-empty in queue-loop mode; otherwise it is the intended rule |
| `QueueOps.QueueLoopAsWrittenThrows` | src/libs/music.js:217 | queue [b], current a, queue loop: as written it throws; the intended rule plays b and leaves [a] |
| `Pagination.Slice` | src/libs/music.js:669 | a slice is never longer than the queue; both bounds are resolved by `SpliceStart`'s rule, whose contract covers the negative and out-of-range cases |
| `Pagination.QueueList` | src/libs/music.js:663-670 | at most 20 items; for page >= 1 it is queue[(p-1)*20 .. min(p*20, len)], or empty when that start is past the end; page 0 is empty |
| `Pagination.MaxPage` | src/libs/music.js:672-676 | the ceiling of len / 20: the least r with r * 20 >= len |
| `Pagination.PageNonEmptyIff` | src/libs/music.js:663-676 | for page >= 0 a page is non-empty exactly when 1 <= page <= MaxPage, so any page past MaxPage is empty |
| `Pagination.PageFullBeforeLast` | src/libs/music.js:663-676 | every page before the last holds exactly 20 items |
| `Pagination.PagesArePrefix` | src/libs/music.js:663-676 | pages 1 .. n together are the first min(20 n, len) items in order |
| `Pagination.AllPagesShowQueue` | src/libs/music.js:663-676 | pages 1 .. MaxPage together are exactly the queue |
| `Session.MusicQueue.constructor` | src/libs/music.js:101-152 | a new session: empty queue, nothing current, loop none, idle player, no events |
| `Session.MusicQueue.PlayNext` | src/libs/music.js:205-249 | the state becomes Advance of the old state; the player plays when the queue was non-empty; emits play with the new item or playEnd |
| `Session.MusicQueue.OnPlayerIdle` | src/libs/music.js:134-136 | the player going idle runs one playNext step and keeps the invariant |
| `Session.MusicQueue.Add` | src/libs/music.js:158-166 | emits add. An idle player starts the new item at once with nothing left waiting. Otherwise the item is appended after the untouched old queue and nothing else changes |
| `Session.MusicQueue.AddPlaylist` | src/libs/music.js:172-180 | the items are appended in order, or played from the first one when the player was idle; an empty playlist on an idle player ends with playEnd |
| `Session.MusicQueue.Top` | src/libs/music.js:182-186 | the queue becomes MoveToFront of the old one; emits top with the moved item; current and player untouched |
| `Session.MusicQueue.Remove` | src/libs/music.js:188-191 | the queue becomes what splice(i, 1) leaves; emits remove with the spliced-out list (empty for an index past the end) |
| `Session.MusicQueue.Clear` | src/libs/music.js:193-196 | the queue is empty, the current item and player are unchanged, emits clear |
| `Session.MusicQueue.CurrentSong` | src/libs/music.js:198-203 | an item exactly when the player is not idle |
| `Session.MusicQueue.IsPaused` | src/libs/music.js:261-263 | a paused session always has a current item |
| `Session.MusicQueue.Pause` | src/libs/music.js:251-254 | the player pauses only if it was playing; when something is current, emits pause with it; otherwise reports the throw and emits nothing |
| `Session.MusicQueue.Resume` | src/libs/music.js:256-259 | the player unpauses only if it was paused; when something is current, emits resume with it; otherwise reports the throw and emits nothing |
| `Session.MusicQueue.Skip` | src/libs/music.js:265-271 | returns the old current item. With none, nothing changes. With one, the state is one Advance step, and playNext's event is followed by skip carrying the new current item |
| `Session.MusicQueue.SetLoop` | src/libs/music.js:283-285 | only the loop mode changes |
| `Session.MusicQueue.Destroy` | src/libs/music.js:273-276 | the connection is destroyed and destroy is emitted |
| `Registry.SessionRegistry.constructor` | src/libs/music.js:54 | the registry starts with no sessions |
| `Registry.SessionRegistry.GetByGuildId` | src/libs/music.js:76-78 | a session exactly when the guild has one, and it is that guild's |
| `Registry.SessionRegistry.Create` | src/libs/music.js:62-69 | an existing session is returned and the map is unchanged; otherwise a fresh empty session is stored under the guild |
| `Registry.SessionRegistry.RemoveByGuildId` | src/libs/music.js:84-95 | the key is always deleted; a session that was present is destroyed and emits destroy, and its queue, current item, player and loop mode are unchanged |
| `Registry.SessionRegistry.OnDisconnected` | src/libs/music.js:105-126 | the queue, current item and loop mode are kept. With a current item and recovery, the session stays registered with its connection live, emits pause then resume, and the player plays. A timeout destroys and removes it. So does nothing being current, because pause throws. Whenever the session is removed, the player has been through pause: a playing player is left paused, any other status is kept |
| `Selection.PlayListItemSelector.constructor` | src/libs/music.js:682 | the selector starts with no selections |
| `Selection.PlayListItemSelector.GetSelectedId` | src/libs/music.js:698-701 | the user's id when one is stored and non-empty, nothing otherwise |
| `Selection.PlayListItemSelector.Select` | src/libs/music.js:689-691 | the user's single entry is overwritten and other users are unaffected |
| `Selection.PlayListItemSelector.Remove` | src/libs/music.js:707-709 | the user's entry is gone and other users are unaffected |

## Findings

| source | as written | input that shows it | evidently intended | confidence | as-written member | corrected member |
|---|---|---|---|---|---|---|
| src/libs/music.js:217 | the queue-loop branch of `playNext` assigns to the undeclared name `currentSong`. Class bodies are strict code, so this throws `ReferenceError` before the current item is re-queued or the head popped | loop mode queue, queue [b], current a: playNext throws, and b is never played | push the current item to the tail, then shift the head (`let currentSong = ...`) | high, not executed | `QueueOps.QueueLoopAsWrittenThrows` | `QueueOps.QueueLoopConserves` |

`QueueOps.AdvanceAsWritten` models the whole of `playNext` as written. The
session class uses the corrected rule `QueueOps.Advance`.

## Left out

- Session.MusicQueue.Top: requires a non-empty queue and an index below its length. With an index past the end, `splice` removes nothing and `unshift(undefined)` puts `undefined` at the front, which a queue of items cannot hold. The callers check the id with `findSongById` first.
- QueueOps.MoveToFront: the same requirement as `Top`, for the same reason.
- Session.MusicQueue.Skip: models exactly one `playNext` step. `player.stop()` plays silence padding first, so the player's later transition to idle, which would call `playNext` a second time, is not modelled.
- Audio streaming: `YtdlCore.download`, `createAudioResource`, `player.play` and the stream's `error` event are reduced to setting `current` and the player status. The model has no resource-failure path.
- The player's AutoPaused and Buffering statuses are folded into Playing.
- The voice connection object is left out: `subscribe`, its `error` logging, and the empty Signalling, Ready and Destroyed handlers. `destroy()` is a `connectionDestroyed` flag.
- Registry.SessionRegistry.Create: the connection argument is not modelled. For an existing guild the source also ignores it.
- The five-second `entersState` race is the `recovered` argument of `OnDisconnected`. Concurrent events during the wait are not modelled.
- `randomUUID` is a parameter. The model does not prove uniqueness of ids.
- EventEmitter listeners are left out. Events are only an ordered log.
- The `length` getter is `|queue|`, read directly.
- The exported wrappers are left out: `checkHasMusicQueue`, `getMusicQueue`, `join`, `leave`, `addQueue` (media resolution over the network), and the logging wrappers around pause, resume, skip, remove, top, setLoop, getLoop and findSongById (src/libs/music.js:301-655). They look up the registry and log.
- Numbers are integers. Fractional durations and page numbers are not modelled.
- JavaScript numbers are IEEE doubles, and the model's are unbounded integers. The printed text agrees only below 1e21, where JavaScript switches to exponent notation ("1e+21"). Integer arithmetic is exact only below 2^53.
- `duration` is documented as a string (src/libs/music.js:37), and `/` and `-` coerce it to a number. Only numeric durations are modelled. A non-numeric string would give NaN and print "NaN:NaN".
- The order of untouched items is stated per operation (`SpliceOne`, `MoveToFront`, `Add`, `AddPlaylist`), not as a lemma over arbitrary sequences of operations.
