/**
 * One playable entry of a guild's queue (`MusicQueueItem`), and the
 * rendering of its duration as the text `minutes:seconds`.
 */
module QueueItem {
  import opened Wrappers

  /** A queue entry. `duration` holds the rendered text, as the source stores it. */
  datatype Item = Item(
    uniqueId: string,     // process-generated identity (randomUUID in the source)
    id: string,           // the video identifier
    title: string,
    author: string,
    url: string,
    thumbnail: string,
    duration: string,
    requestedBy: string)  // the requesting user's identifier

  /** The seconds per minute used by the duration split. */
  const SecondsPerMinute := 60

  /**
   * The split of a duration in seconds into whole minutes and the remaining
   * seconds: `Math.floor(duration / 60)` and `duration - minutes * 60`.
   * Dafny's `/` with a positive divisor rounds toward negative infinity, as
   * `Math.floor` does, so negative durations split the same way.
   */
  function SplitDuration(seconds: int): (r: (int, int))
    ensures r.0 * SecondsPerMinute + r.1 == seconds
    ensures 0 <= r.1 < SecondsPerMinute
  {
    var minutes := seconds / SecondsPerMinute;
    (minutes, seconds - minutes * SecondsPerMinute)
  }

  /** The split is the only pair with those two properties. */
  lemma SplitDurationUnique(seconds: int, m: int, s: int)
    requires m * SecondsPerMinute + s == seconds && 0 <= s < SecondsPerMinute
    ensures SplitDuration(seconds) == (m, s)
  {
    var r := SplitDuration(seconds);
    assert (m - r.0) * SecondsPerMinute == r.1 - s;
  }

  // ---------------------------------------------------------------------
  // Decimal text of integers, as a JavaScript template literal prints them.

  function DigitChar(d: nat): (c: char)
    requires d < 10
  {
    "0123456789"[d]
  }

  predicate IsDigit(c: char) {
    '0' <= c <= '9'
  }

  /** A non-empty string of decimal digits. */
  predicate AllDigits(s: string) {
    |s| > 0 && forall k :: 0 <= k < |s| ==> IsDigit(s[k])
  }

  function DigitValue(c: char): (d: nat)
    requires IsDigit(c)
    ensures d < 10
  {
    c as int - '0' as int
  }

  /** Decimal digits of `n`, most significant first, without leading zeros. */
  function NatToString(n: nat): (s: string)
    ensures AllDigits(s)
    ensures s[0] == '0' ==> n == 0
    decreases n
  {
    if n < 10 then [DigitChar(n)] else NatToString(n / 10) + [DigitChar(n % 10)]
  }

  /** Integers print as their digits, negatives preceded by a minus sign. */
  function IntToString(i: int): (s: string)
    ensures |s| > 0 && (s[0] == '-' <==> i < 0)
    ensures forall k :: 0 <= k < |s| && (k > 0 || i >= 0) ==> IsDigit(s[k])
    ensures i >= 0 && s[0] == '0' ==> s == "0"
    ensures i < 0 ==> |s| > 1 && s[1] != '0'
  {
    if i < 0 then "-" + NatToString(-i) else NatToString(i)
  }

  /** The value of a non-empty string of decimal digits. */
  function DigitsValue(s: string): (n: nat)
    requires AllDigits(s)
    decreases |s|
  {
    if |s| == 1 then DigitValue(s[0])
    else DigitsValue(s[..|s| - 1]) * 10 + DigitValue(s[|s| - 1])
  }

  /** Reads back the text `IntToString` writes, or nothing. */
  function ParseInt(s: string): (r: Option<int>)
  {
    if |s| > 0 && s[0] == '-' && AllDigits(s[1..]) then Some(0 - DigitsValue(s[1..]) as int)
    else if AllDigits(s) then Some(DigitsValue(s))
    else None
  }

  lemma {:induction false} NatToStringRoundTrip(n: nat)
    ensures DigitsValue(NatToString(n)) == n
    decreases n
  {
    if n >= 10 {
      var s := NatToString(n);
      var prefix := NatToString(n / 10);
      assert s[..|s| - 1] == prefix;
      NatToStringRoundTrip(n / 10);
    } else {
      assert "0123456789"[n] as int - '0' as int == n;
    }
  }

  lemma IntToStringRoundTrip(i: int)
    ensures ParseInt(IntToString(i)) == Some(i)
  {
    var s := IntToString(i);
    if i < 0 {
      var n := NatToString(-i);
      assert s == "-" + n;
      assert s[1..] == n;
      assert AllDigits(n);
      NatToStringRoundTrip(-i);
      assert ParseInt(s) == Some(0 - DigitsValue(n) as int);
    } else {
      assert s == NatToString(i);
      assert s[0] != '-';
      assert AllDigits(s);
      NatToStringRoundTrip(i);
    }
  }

  /** No printed integer contains the separator ':'. */
  lemma IntToStringHasNoColon(i: int)
    ensures forall k :: 0 <= k < |IntToString(i)| ==> IntToString(i)[k] != ':'
  {
    if i < 0 {
      var s := IntToString(i);
      assert forall k :: 1 <= k < |s| ==> s[k] == NatToString(-i)[k - 1];
    }
  }

  // ---------------------------------------------------------------------
  // The duration text and its reader.

  /** `${minutes}:${seconds}`: the seconds are not zero-padded ("3:5"). */
  function DurationText(seconds: int): (t: string)
    ensures ColonIndex(t) < |t|
    ensures t[..ColonIndex(t)] == IntToString(SplitDuration(seconds).0)
    ensures t[ColonIndex(t) + 1..] == IntToString(SplitDuration(seconds).1)
  {
    var (m, s) := SplitDuration(seconds);
    var a, b := IntToString(m), IntToString(s);
    var t := a + ":" + b;
    IntToStringHasNoColon(m);
    assert forall j :: 0 <= j < |a| ==> t[j] != ':' by {
      forall j | 0 <= j < |a| ensures t[j] != ':' { assert t[j] == a[j]; }
    }
    assert t[|a|] == ':';
    assert ColonIndex(t) == |a|;
    assert t[..|a|] == a && t[|a| + 1..] == b;
    t
  }

  /** Position of the first ':' in `t`, or `|t|` when there is none. */
  function ColonIndex(t: string): (k: nat)
    ensures k <= |t|
    ensures k < |t| ==> t[k] == ':'
    ensures forall j :: 0 <= j < k ==> t[j] != ':'
  {
    if |t| == 0 then 0
    else if t[0] == ':' then 0
    else 1 + ColonIndex(t[1..])
  }

  /** Reads a duration text back into seconds, or nothing when it is not one. */
  function ParseDuration(t: string): (r: Option<int>)
  {
    var k := ColonIndex(t);
    if k == |t| then None
    else match (ParseInt(t[..k]), ParseInt(t[k + 1..]))
      case (Some(m), Some(s)) =>
        if 0 <= s < SecondsPerMinute then Some(m * SecondsPerMinute + s) else None
      case _ => None
  }

  /** Every duration text reads back as the seconds it was made from. */
  lemma DurationTextRoundTrip(seconds: int)
    ensures ParseDuration(DurationText(seconds)) == Some(seconds)
  {
    var (m, s) := SplitDuration(seconds);
    IntToStringRoundTrip(m);
    IntToStringRoundTrip(s);
  }

  /** Distinct durations never render to the same text. */
  lemma DurationTextInjective(x: int, y: int)
    requires DurationText(x) == DurationText(y)
    ensures x == y
  {
    DurationTextRoundTrip(x);
    DurationTextRoundTrip(y);
  }

  /**
   * The `MusicQueueItem` constructor: the fresh identifier stands in for
   * `randomUUID()`, and the duration in seconds is stored as its text.
   */
  function MakeItem(uniqueId: string, id: string, title: string, author: string,
                    url: string, thumbnail: string, seconds: int, requestedBy: string): (r: Item)
    ensures r.uniqueId == uniqueId
    ensures ParseDuration(r.duration) == Some(seconds)
  {
    DurationTextRoundTrip(seconds);
    Item(uniqueId, id, title, author, url, thumbnail, DurationText(seconds), requestedBy)
  }
}
