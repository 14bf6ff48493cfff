/** The playlist navigator of hook/usePlaylistControls.tsx: given the track
    count, the cursor (index and epoch key), the shuffle flag and the repeat
    mode, it computes where next, previous, jump and restart lead.

    The hook's callbacks end in `setIndex` / `setTrackKey`; here each returns
    the new cursor instead. `Math.random` is an oracle: `draws` lists the
    values `Math.floor(Math.random() * len)` would produce, in order. */
module Navigator {

  datatype RepeatMode = Off | One | All

  /** The current track index and the epoch key that remounts the progress
      display whenever it changes. */
  datatype Cursor = Cursor(index: int, key: nat)

  /** What `goNext` reports to its caller. */
  datatype Report = Report(didChange: bool, atEnd: bool)

  datatype Step = Step(cursor: Cursor, report: Report)

  predicate InRange(len: nat, c: Cursor)
  {
    len == 0 || 0 <= c.index < len
  }

  // ---------------------------------------------------------------------
  // The random oracle and pickRandomIndex
  // ---------------------------------------------------------------------

  /** The oracle is well behaved for a pick that must avoid `exclude`: every
      draw lies in [0, len) and some draw differs from `exclude`. Without the
      second half the source's rejection loop would never end. */
  predicate DrawsDeliver(len: nat, exclude: int, draws: seq<nat>)
  {
    && (forall k :: 0 <= k < |draws| ==> draws[k] < len)
    && (exists k :: 0 <= k < |draws| && draws[k] != exclude)
  }

  /** The position of the first draw that differs from `exclude`. */
  function FirstOther(exclude: int, draws: seq<nat>): (k: nat)
    requires exists k :: 0 <= k < |draws| && draws[k] != exclude
    ensures k < |draws| && draws[k] != exclude
    ensures forall t :: 0 <= t < k ==> draws[t] == exclude
  {
    if draws[0] != exclude then 0
    else
      assert exists k :: 0 <= k < |draws[1..]| && draws[1..][k] != exclude by {
        var k :| 0 <= k < |draws| && draws[k] != exclude;
        assert draws[1..][k - 1] == draws[k];
      }
      1 + FirstOther(exclude, draws[1..])
  }

  /** The value pickRandomIndex returns when Math.random yields `draws`. */
  function RandomPick(len: nat, exclude: int, draws: seq<nat>): (r: int)
    requires len > 1 ==> DrawsDeliver(len, exclude, draws)
    ensures len <= 1 ==> r == 0
    ensures len > 1 ==> 0 <= r < len && r != exclude
    ensures len > 1 ==> exists k :: 0 <= k < |draws| && r == draws[k]
  {
    if len <= 1 then 0 else draws[FirstOther(exclude, draws)]
  }

  /** pickRandomIndex: redraw until the value differs from `exclude`. */
  method PickRandomIndex(len: nat, exclude: int, draws: seq<nat>) returns (i: int)
    requires len > 1 ==> DrawsDeliver(len, exclude, draws)
    ensures i == RandomPick(len, exclude, draws)
  {
    if len <= 1 {
      return 0;
    }
    ghost var first := FirstOther(exclude, draws);
    i := exclude;
    var used := 0;  // how many draws have been consumed
    while i == exclude
      invariant used <= first + 1
      invariant used <= first ==> i == exclude
      invariant used == first + 1 ==> i == draws[first]
      decreases first + 1 - used
    {
      i := draws[used];
      used := used + 1;
    }
  }

  // ---------------------------------------------------------------------
  // goToIndex, goNext, goPrev, restartTrack
  // ---------------------------------------------------------------------

  /** goToIndex: clamp the target into the list and bump the key; an empty
      list is left alone. */
  function GoToIndex(len: nat, c: Cursor, n: int): (r: Cursor)
    ensures len == 0 ==> r == c
    ensures len > 0 ==> 0 <= r.index < len && r.key == c.key + 1
    ensures len > 0 && 0 <= n < len ==> r.index == n
    ensures len > 0 && n < 0 ==> r.index == 0
    ensures len > 0 && n >= len ==> r.index == len - 1
  {
    if len == 0 then c
    else
      var atLeastZero := if n >= 0 then n else 0;
      Cursor(if atLeastZero <= len - 1 then atLeastZero else len - 1, c.key + 1)
  }

  /** goNext: the new cursor and the {didChange, atEnd} report. */
  function GoNext(len: nat, c: Cursor, shuffle: bool, repeat: RepeatMode, draws: seq<nat>): (r: Step)
    requires shuffle && len > 1 ==> DrawsDeliver(len, c.index, draws)
    ensures r.report.didChange == !r.report.atEnd
    ensures r.report.atEnd <==> len == 0 || (!shuffle && c.index + 1 >= len && repeat != All)
    ensures r.report.atEnd ==> r.cursor == c
    ensures r.report.didChange ==> 0 <= r.cursor.index < len && r.cursor.key == c.key + 1
    ensures shuffle && len > 1 ==> r.cursor.index != c.index
    ensures !shuffle && 0 <= c.index && c.index + 1 < len ==> r.cursor.index == c.index + 1
    ensures !shuffle && len > 0 && c.index + 1 >= len && repeat == All ==> r.cursor.index == 0
  {
    if len == 0 then Step(c, Report(false, true))
    else if shuffle then Step(GoToIndex(len, c, RandomPick(len, c.index, draws)), Report(true, false))
    else if c.index + 1 < len then Step(GoToIndex(len, c, c.index + 1), Report(true, false))
    else if repeat == All then Step(GoToIndex(len, c, 0), Report(true, false))
    else Step(c, Report(false, true))
  }

  /** goPrev: never reports an end; from the first track it wraps (repeat
      all) or stays put, and the key is bumped either way. */
  function GoPrev(len: nat, c: Cursor, shuffle: bool, repeat: RepeatMode, draws: seq<nat>): (r: Cursor)
    requires shuffle && len > 1 ==> DrawsDeliver(len, c.index, draws)
    ensures len == 0 ==> r == c
    ensures len > 0 ==> 0 <= r.index < len && r.key == c.key + 1
    ensures shuffle && len > 1 ==> r.index != c.index
    ensures !shuffle && 0 < c.index <= len ==> r.index == c.index - 1
    ensures !shuffle && len > 0 && c.index <= 0 && repeat == All ==> r.index == len - 1
    ensures !shuffle && len > 0 && c.index <= 0 && repeat != All ==> r.index == 0
  {
    if len == 0 then c
    else if shuffle then GoToIndex(len, c, RandomPick(len, c.index, draws))
    else if c.index - 1 >= 0 then GoToIndex(len, c, c.index - 1)
    else if repeat == All then GoToIndex(len, c, len - 1)
    else GoToIndex(len, c, 0)
  }

  /** restartTrack: same track, fresh epoch. It has no empty-list guard. */
  function RestartTrack(c: Cursor): (r: Cursor)
    ensures r.index == c.index && r.key == c.key + 1
  {
    Cursor(c.index, c.key + 1)
  }

  // ---------------------------------------------------------------------
  // toggleShuffle and cycleRepeat
  // ---------------------------------------------------------------------

  function ToggleShuffle(b: bool): (r: bool)
    ensures r != b
  {
    !b
  }

  /** off -> all -> one -> off */
  function CycleRepeat(m: RepeatMode): (r: RepeatMode)
    ensures r != m
    ensures m == Off ==> r == All
    ensures m == All ==> r == One
    ensures m == One ==> r == Off
  {
    match m
    case Off => All
    case All => One
    case One => Off
  }

  lemma ToggleShuffleInvolution(b: bool)
    ensures ToggleShuffle(ToggleShuffle(b)) == b
  {
  }

  lemma CycleRepeatPeriod(m: RepeatMode)
    ensures CycleRepeat(CycleRepeat(CycleRepeat(m))) == m
    ensures CycleRepeat(m) != m && CycleRepeat(CycleRepeat(m)) != m
  {
  }

  // ---------------------------------------------------------------------
  // Properties over several steps
  // ---------------------------------------------------------------------

  /** The cursor after `n` presses of next with shuffle off. */
  function NextN(len: nat, c: Cursor, repeat: RepeatMode, n: nat): (r: Cursor)
    ensures n == 0 ==> r == c
  {
    if n == 0 then c
    else GoNext(len, NextN(len, c, repeat, n - 1), false, repeat, []).cursor
  }

  /** Every move keeps the cursor inside a non-empty list. */
  lemma {:induction false} MovesStayInRange(len: nat, c: Cursor, repeat: RepeatMode, n: nat)
    requires InRange(len, c)
    ensures InRange(len, NextN(len, c, repeat, n))
  {
    if n > 0 {
      MovesStayInRange(len, c, repeat, n - 1);
    }
  }

  /** Without wrap-around, `n` presses walk forward one track at a time and
      bump the key once per track. */
  lemma {:induction false} WalkForward(len: nat, c: Cursor, repeat: RepeatMode, n: nat)
    requires 0 <= c.index && c.index + n < len
    ensures NextN(len, c, repeat, n) == Cursor(c.index + n, c.key + n)
  {
    if n > 0 {
      WalkForward(len, c, repeat, n - 1);
    }
  }

  /** Playing through from the first track with repeat off: next reports the
      end exactly when the cursor sits on the last track, and not before. */
  lemma PlayThroughOnce(len: nat, key: nat, k: nat)
    requires k < len
    ensures NextN(len, Cursor(0, key), Off, k) == Cursor(k, key + k)
    ensures GoNext(len, NextN(len, Cursor(0, key), Off, k), false, Off, []).report.atEnd <==> k == len - 1
  {
    WalkForward(len, Cursor(0, key), Off, k);
  }

  /** At the end with repeat off, further presses change nothing. */
  lemma {:induction false} StuckAtEnd(len: nat, c: Cursor, n: nat)
    requires len > 0 && c.index == len - 1
    ensures NextN(len, c, Off, n) == c
  {
    if n > 0 {
      StuckAtEnd(len, c, n - 1);
    }
  }

  /** With repeat all, `len` presses come back to the starting track, having
      bumped the key `len` times. */
  lemma RepeatAllCycles(len: nat, c: Cursor)
    requires 0 <= c.index < len
    ensures NextN(len, c, All, len) == Cursor(c.index, c.key + len)
  {
    var i := c.index;
    var toEnd := len - 1 - i;
    WalkForward(len, c, All, toEnd);
    assert NextN(len, c, All, toEnd + 1) == Cursor(0, c.key + toEnd + 1);
    NextNSplit(len, c, All, toEnd + 1, i);
    WalkForward(len, Cursor(0, c.key + toEnd + 1), All, i);
  }

  /** Presses compose: m + n presses are m presses followed by n. */
  lemma {:induction false} NextNSplit(len: nat, c: Cursor, repeat: RepeatMode, m: nat, n: nat)
    ensures NextN(len, c, repeat, m + n) == NextN(len, NextN(len, c, repeat, m), repeat, n)
  {
    if n > 0 {
      NextNSplit(len, c, repeat, m, n - 1);
    }
  }

}
