/**
 * The pure part of a guild's queue engine: the sequence transformations the
 * `MusicQueue` methods apply to their `queue` array (JavaScript's `splice`
 * index rule, move-to-front, find), the loop modes, and the rule `playNext`
 * uses to choose the next item.
 */
module QueueOps {
  import opened Wrappers
  import opened QueueItem

  /** `loopType`: "none", "song" or "queue". */
  datatype LoopType = NoLoop | SongLoop | QueueLoop

  /** The part of a session `playNext` reads and writes: the waiting items and the current one. */
  datatype Playlist = Playlist(queue: seq<Item>, current: Option<Item>)

  // ---------------------------------------------------------------------
  // Array.prototype.splice(index, 1)

  /**
   * The position `splice` starts at: a negative index counts from the end and
   * is clamped at 0, a non-negative one is clamped at the length.
   */
  function SpliceStart(len: nat, index: int): (k: nat)
    ensures k <= len
    ensures 0 <= index <= len ==> k == index
    ensures 0 - len <= index < 0 ==> k == len + index
    ensures index < 0 - len ==> k == 0
    ensures index > len ==> k == len
  {
    if index < 0 then (if len + index < 0 then 0 else len + index)
    else if index < len then index else len
  }

  /**
   * `queue.splice(index, 1)`: the removed elements (zero or one) and the queue
   * that remains.
   */
  function SpliceOne(q: seq<Item>, index: int): (r: (seq<Item>, seq<Item>))
    ensures |r.0| <= 1 && |r.0| + |r.1| == |q|
    ensures multiset(r.0) + multiset(r.1) == multiset(q)
    ensures 0 <= index < |q| ==> r.0 == [q[index]] && r.1 == q[..index] + q[index + 1..]
    ensures 0 - |q| <= index < 0 ==> r.0 == [q[|q| + index]]
    ensures index >= |q| ==> r.0 == [] && r.1 == q
    ensures var k := SpliceStart(|q|, index); k < |q| ==> r.0 == [q[k]] && r.1 == q[..k] + q[k + 1..]
  {
    var k := SpliceStart(|q|, index);
    if k < |q| then
      assert q == q[..k] + [q[k]] + q[k + 1..];
      ([q[k]], q[..k] + q[k + 1..])
    else
      ([], q)
  }

  /**
   * `top(index)`: `splice(index, 1)` and then `unshift` of the removed item.
   * The index must name an element; with an index past the end the source
   * would unshift `undefined`.
   */
  function MoveToFront(q: seq<Item>, index: int): (r: seq<Item>)
    requires 0 < |q| && index < |q|
    ensures |r| == |q|
    ensures r[0] == q[SpliceStart(|q|, index)]
    ensures r[1..] == SpliceOne(q, index).1
    ensures multiset(r) == multiset(q)
  {
    var (removed, rest) := SpliceOne(q, index);
    removed + rest
  }

  /** For a valid index `i`, the old `q[i]` leads and everything else keeps its order. */
  lemma MoveToFrontValidIndex(q: seq<Item>, i: int)
    requires 0 <= i < |q|
    ensures MoveToFront(q, i) == [q[i]] + q[..i] + q[i + 1..]
    ensures MoveToFront(q, 0) == q
  {
    assert q == q[..0] + [q[0]] + q[1..];
  }

  // ---------------------------------------------------------------------
  // Lookups

  /**
   * `queue.find(song => song.uniqueId === id)`: the first item carrying the
   * identifier, or nothing when no item does.
   */
  function Find(q: seq<Item>, id: string): (r: Option<Item>)
    ensures r.Some? <==> exists k :: 0 <= k < |q| && q[k].uniqueId == id
    ensures r.Some? ==> exists k :: 0 <= k < |q| && q[k] == r.value && r.value.uniqueId == id
                                  && forall j :: 0 <= j < k ==> q[j].uniqueId != id
  {
    if |q| == 0 then None
    else if q[0].uniqueId == id then Some(q[0])
    else
      var r := Find(q[1..], id);
      assert forall k :: 1 <= k < |q| ==> q[k] == q[1..][k - 1];
      if r.Some? then
        var k' :| 0 <= k' < |q| - 1 && q[1..][k'] == r.value && r.value.uniqueId == id
                  && forall j :: 0 <= j < k' ==> q[1..][j].uniqueId != id;
        assert q[k' + 1] == r.value;
        r
      else r
  }

  /** `queue[index]`: the item at a position, `undefined` outside the queue. */
  function Get(q: seq<Item>, index: int): (r: Option<Item>)
    ensures r.Some? <==> 0 <= index < |q|
    ensures r.Some? ==> r.value in q
  {
    if 0 <= index < |q| then Some(q[index]) else None
  }

  // ---------------------------------------------------------------------
  // The playNext rule

  /**
   * The choice `playNext` makes (the intended rule, see `AdvanceAsWritten`):
   * an empty queue ends playback; otherwise the loop mode decides.
   *  - "none": the head is popped and becomes current;
   *  - "song": a current item is played again and the queue is untouched;
   *    with no current item the head is popped;
   *  - "queue": a current item is pushed to the tail, then the head is popped.
   */
  function Advance(p: Playlist, loop: LoopType): (r: Playlist)
    ensures |p.queue| == 0 ==> r == Playlist([], None)
    ensures |p.queue| > 0 ==> r.current.Some?
    ensures |p.queue| > 0 && (loop == NoLoop || p.current.None?) ==>
              r.current == Some(p.queue[0]) && r.queue == p.queue[1..]
    ensures |p.queue| > 0 && loop == SongLoop && p.current.Some? ==> r == p
    ensures |p.queue| > 0 && loop == QueueLoop && p.current.Some? ==>
              r.current == Some(p.queue[0]) && r.queue == p.queue[1..] + [p.current.value]
  {
    if |p.queue| > 0 then
      match loop
      case SongLoop =>
        if p.current.Some? then p else Playlist(p.queue[1..], Some(p.queue[0]))
      case QueueLoop =>
        var q := if p.current.Some? then p.queue + [p.current.value] else p.queue;
        Playlist(q[1..], Some(q[0]))
      case NoLoop =>
        Playlist(p.queue[1..], Some(p.queue[0]))
    else
      Playlist([], None)
  }

  /** The items held by a playlist: the waiting ones and the current one. */
  function Held(p: Playlist): multiset<Item> {
    multiset(p.queue) + (if p.current.Some? then multiset{p.current.value} else multiset{})
  }

  /**
   * In queue-loop mode on a non-empty queue no item is lost or duplicated:
   * the old current item reappears at the tail, once, and the queue keeps its length.
   */
  lemma QueueLoopConserves(p: Playlist)
    requires |p.queue| > 0 && p.current.Some?
    ensures Held(Advance(p, QueueLoop)) == Held(p)
    ensures |Advance(p, QueueLoop).queue| == |p.queue|
  {
    var r := Advance(p, QueueLoop);
    assert p.queue == [p.queue[0]] + p.queue[1..];
  }

  /** In every loop mode, `playNext` never holds an item it did not hold before. */
  lemma AdvanceNeverAdds(p: Playlist, loop: LoopType)
    ensures Held(Advance(p, loop)) <= Held(p)
  {
    if |p.queue| > 0 {
      assert p.queue == [p.queue[0]] + p.queue[1..];
    }
  }

  /** `n` successive `playNext` steps with no other change in between. */
  function AdvanceN(p: Playlist, loop: LoopType, n: nat): (r: Playlist)
    decreases n
  {
    if n == 0 then p else AdvanceN(Advance(p, loop), loop, n - 1)
  }

  /** With song loop on and something playing, every `playNext` re-selects the same item. */
  lemma {:induction false} SongLoopRepeats(p: Playlist, n: nat)
    requires |p.queue| > 0 && p.current.Some?
    ensures AdvanceN(p, SongLoop, n) == p
    decreases n
  {
    if n > 0 {
      SongLoopRepeats(p, n - 1);
    }
  }

  /** The queue-loop cycle: the current item followed by the waiting ones. */
  function Cycle(p: Playlist): (c: seq<Item>)
    requires p.current.Some?
  {
    [p.current.value] + p.queue
  }

  /** One queue-loop step rotates the cycle left by one. */
  lemma QueueLoopStep(p: Playlist)
    requires |p.queue| > 0 && p.current.Some?
    ensures Advance(p, QueueLoop).current.Some?
    ensures |Advance(p, QueueLoop).queue| == |p.queue|
    ensures Cycle(Advance(p, QueueLoop)) == Cycle(p)[1..] + [Cycle(p)[0]]
  {
  }

  /** Rotating left by one and then by n - 1 is rotating left by n. */
  lemma RotateCompose(c: seq<Item>, n: nat)
    requires 1 <= n <= |c|
    ensures var c1 := c[1..] + [c[0]]; c1[n - 1..] + c1[..n - 1] == c[n..] + c[..n]
  {
    var c1 := c[1..] + [c[0]];
    assert c1[n - 1..] == c[n..] + [c[0]];
    assert c1[..n - 1] == c[1..n];
    assert c[..n] == [c[0]] + c[1..n];
  }

  /** After `n` queue-loop steps the cycle has rotated left by `n`. */
  lemma {:induction false} QueueLoopRotates(p: Playlist, n: nat)
    requires |p.queue| > 0 && p.current.Some?
    requires n <= |p.queue| + 1
    ensures AdvanceN(p, QueueLoop, n).current.Some?
    ensures |AdvanceN(p, QueueLoop, n).queue| == |p.queue|
    ensures Cycle(AdvanceN(p, QueueLoop, n)) == Cycle(p)[n..] + Cycle(p)[..n]
    decreases n
  {
    if n == 0 {
      assert Cycle(p)[0..] + Cycle(p)[..0] == Cycle(p);
    } else {
      var p1 := Advance(p, QueueLoop);
      QueueLoopStep(p);
      QueueLoopRotates(p1, n - 1);
      RotateCompose(Cycle(p), n);
    }
  }

  /** Queue loop plays the whole cycle and comes back: after |queue| + 1 steps the state is the original one. */
  lemma QueueLoopPeriod(p: Playlist)
    requires |p.queue| > 0 && p.current.Some?
    ensures AdvanceN(p, QueueLoop, |p.queue| + 1) == p
  {
    var n := |p.queue| + 1;
    QueueLoopRotates(p, n);
    var r := AdvanceN(p, QueueLoop, n);
    assert Cycle(r) == Cycle(p);
    assert r.current.value == Cycle(r)[0];
    assert r.queue == Cycle(r)[1..];
  }

  // ---------------------------------------------------------------------
  // The queue-loop branch as the source writes it

  /** What a statement of `playNext` can throw. */
  datatype ScriptError = ReferenceError(name: string)

  /**
   * `playNext` as written: its queue-loop branch starts by assigning to the
   * undeclared name `currentSong`, which throws in an ECMAScript module before
   * anything else happens. Every other path is the intended rule.
   */
  function AdvanceAsWritten(p: Playlist, loop: LoopType): (r: Result<Playlist, ScriptError>)
    ensures r.Failure? <==> |p.queue| > 0 && loop == QueueLoop
    ensures r.Success? ==> r.value == Advance(p, loop)
  {
    if |p.queue| > 0 && loop == QueueLoop then Failure(ReferenceError("currentSong"))
    else Success(Advance(p, loop))
  }

  /**
   * The input that shows it: queue [b], a current item a, queue loop on. As
   * written, playNext throws and a never reaches the tail; the intended rule
   * plays b and leaves [a] waiting.
   */
  lemma QueueLoopAsWrittenThrows(a: Item, b: Item)
    ensures AdvanceAsWritten(Playlist([b], Some(a)), QueueLoop).Failure?
    ensures Advance(Playlist([b], Some(a)), QueueLoop) == Playlist([a], Some(b))
  {
  }
}
