/**
 * `queueList` and `getQueueMaxPage`: the queue shown twenty items per page,
 * pages numbered from 1.
 */
module Pagination {
  import opened QueueItem
  import opened QueueOps

  /** Items per page (`OFFSET`). */
  const PageSize := 20

  /**
   * `Array.prototype.slice(start, end)`: each bound is resolved by the same
   * rule as `splice`'s start (negative counts from the end, clamped to [0, len]).
   */
  function Slice(q: seq<Item>, start: int, end: int): (r: seq<Item>)
    ensures |r| <= |q|
  {
    var from, to := SpliceStart(|q|, start), SpliceStart(|q|, end);
    if from < to then q[from..to] else []
  }

  /** `queueList(channel, page)`: slice from `(page - 1) * 20` to `page * 20`. */
  function QueueList(q: seq<Item>, page: int): (r: seq<Item>)
    ensures |r| <= PageSize
    ensures page >= 1 && (page - 1) * PageSize < |q| ==>
              r == q[(page - 1) * PageSize .. if page * PageSize < |q| then page * PageSize else |q|]
    ensures page >= 1 && (page - 1) * PageSize >= |q| ==> r == []
    ensures page == 0 ==> r == []
  {
    Slice(q, (page - 1) * PageSize, page * PageSize)
  }

  /** `getQueueMaxPage`: `Math.ceil(length / 20)`. */
  function MaxPage(len: nat): (r: nat)
    ensures r * PageSize >= len
    ensures r > 0 ==> (r - 1) * PageSize < len
  {
    (len + PageSize - 1) / PageSize
  }

  /**
   * For every page from 0 upwards, the page is non-empty exactly when it is
   * one of pages 1 .. MaxPage; in particular any page past MaxPage is empty.
   */
  lemma PageNonEmptyIff(q: seq<Item>, page: int)
    requires page >= 0
    ensures QueueList(q, page) != [] <==> 1 <= page <= MaxPage(|q|)
  {
    var m := MaxPage(|q|);
    if 1 <= page <= m {
      assert (page - 1) * PageSize <= (m - 1) * PageSize;
    } else if page > m {
      assert (page - 1) * PageSize >= m * PageSize;
    }
  }

  /** Every page before the last is full. */
  lemma PageFullBeforeLast(q: seq<Item>, page: int)
    requires 1 <= page < MaxPage(|q|)
    ensures |QueueList(q, page)| == PageSize
  {
    var m := MaxPage(|q|);
    assert page * PageSize <= (m - 1) * PageSize;
  }

  /** Pages 1 .. n, one after another. */
  function Pages(q: seq<Item>, n: nat): seq<Item>
    decreases n
  {
    if n == 0 then [] else Pages(q, n - 1) + QueueList(q, n)
  }

  /** Pages 1 .. n together are exactly the first min(20 n, |q|) items. */
  lemma {:induction false} PagesArePrefix(q: seq<Item>, n: nat)
    ensures Pages(q, n) == q[..if n * PageSize < |q| then n * PageSize else |q|]
    decreases n
  {
    if n > 0 {
      PagesArePrefix(q, n - 1);
      var lo := (n - 1) * PageSize;
      var hi := if n * PageSize < |q| then n * PageSize else |q|;
      if lo < |q| {
        assert q[..hi] == q[..lo] + q[lo..hi];
      }
    }
  }

  /** Reading every page from 1 to MaxPage shows the whole queue, in order, once. */
  lemma AllPagesShowQueue(q: seq<Item>)
    ensures Pages(q, MaxPage(|q|)) == q
  {
    PagesArePrefix(q, MaxPage(|q|));
  }
}
