/** The self-timed progress clock of ui/PlaybackProgress.tsx.

    The component keeps its own elapsed counter, advanced by an interval
    while the player is playing, clamped to the resolved total, and a
    `didComplete` latch whose rising edge invokes `onComplete`. The
    component's effects run after each render; each event below (an
    interval tick, a new `totalMs` prop, a new `state` prop) is one render
    followed by the effects it triggers. The functions give the meaning of
    each event; the class `PlaybackProgress` performs them on its fields. */
module Progress {

  import opened PlayerState

  // ---------------------------------------------------------------------
  // formatTimeFromMs
  // ---------------------------------------------------------------------

  predicate IsDigit(ch: char) { '0' <= ch <= '9' }

  predicate IsDigits(s: string)
  {
    forall i :: 0 <= i < |s| ==> IsDigit(s[i])
  }

  function DigitChar(d: nat): (ch: char)
    requires d < 10
    ensures IsDigit(ch) && (ch - '0') as nat == d
  {
    "0123456789"[d]
  }

  /** `n.toString()` for a non-negative integer. */
  function DecimalString(n: nat): (s: string)
    ensures 1 <= |s| && IsDigits(s)
    ensures s[0] == '0' <==> n == 0
    ensures n < 10 <==> |s| == 1
    ensures n < 100 ==> |s| <= 2
  {
    if n < 10 then [DigitChar(n)] else DecimalString(n / 10) + [DigitChar(n % 10)]
  }

  /** The number a string of decimal digits denotes. */
  function DecimalValue(s: string): (n: nat)
    requires IsDigits(s)
  {
    if s == [] then 0 else DecimalValue(s[..|s| - 1]) * 10 + (s[|s| - 1] - '0') as nat
  }

  lemma {:induction false} DecimalRoundTrip(n: nat)
    ensures DecimalValue(DecimalString(n)) == n
  {
    var s := DecimalString(n);
    if n >= 10 {
      DecimalRoundTrip(n / 10);
      assert s[..|s| - 1] == DecimalString(n / 10);
    }
  }

  /** A leading zero does not change the value. */
  lemma {:induction false} LeadingZero(s: string)
    requires IsDigits(s)
    ensures IsDigits("0" + s) && DecimalValue("0" + s) == DecimalValue(s)
  {
    var z := "0" + s;
    if s != [] {
      LeadingZero(s[..|s| - 1]);
      assert z[..|z| - 1] == "0" + s[..|s| - 1];
    }
  }

  /** `s.padStart(width, fill)`. */
  function PadStart(s: string, width: nat, fill: char): (r: string)
    ensures |r| == if |s| >= width then |s| else width
    ensures r[|r| - |s|..] == s
    ensures forall i :: 0 <= i < |r| - |s| ==> r[i] == fill
    decreases width - |s|
  {
    if |s| >= width then s
    else
      var r := PadStart([fill] + s, width, fill);
      PadStep(r, s, fill);
      r
  }

  /** One more fill character in front keeps `s` as the suffix. */
  lemma PadStep(r: string, s: string, fill: char)
    requires |r| >= |s| + 1 && r[|r| - (|s| + 1)..] == [fill] + s
    requires forall i :: 0 <= i < |r| - (|s| + 1) ==> r[i] == fill
    ensures r[|r| - |s|..] == s
    ensures forall i :: 0 <= i < |r| - |s| ==> r[i] == fill
  {
    var k := |r| - (|s| + 1);
    assert r[k] == r[k..][0] == fill;
    assert r[|r| - |s|..] == r[k..][1..];
  }

  /** A number as `toString` writes it: a lone digit, or no leading zero. */
  predicate NoLeadingZero(s: string)
  {
    |s| == 1 || (|s| > 1 && s[0] != '0')
  }

  /** `r` reads as "m:ss" for `t` whole seconds: a ':' three from the end,
      digits on both sides, minutes without a leading zero, a seconds field
      below 60, and the two fields add back up to `t`. */
  predicate ShowsSeconds(r: string, t: nat)
  {
    && 4 <= |r| && r[|r| - 3] == ':'
    && IsDigits(MinutesPart(r)) && IsDigits(SecondsPart(r))
    && NoLeadingZero(MinutesPart(r))
    && DecimalValue(SecondsPart(r)) < 60
    && DecimalValue(MinutesPart(r)) * 60 + DecimalValue(SecondsPart(r)) == t
  }

  /** formatTimeFromMs: "m:ss" of the whole seconds in `ms`, negative
      durations shown as zero. The minutes field is unpadded. */
  function FormatTimeFromMs(ms: int): (r: string)
    ensures ShowsSeconds(r, Max0(ms / 1000))
    ensures ms < 1000 ==> r == "0:00"
  {
    var t := WholeSeconds(ms);
    FormatSeconds(t)
  }

  /** "m:ss" of `t` whole seconds. */
  function FormatSeconds(t: nat): (r: string)
    ensures ShowsSeconds(r, t)
    ensures t == 0 ==> r == "0:00"
  {
    var split := SplitMinutes(t);
    FieldsShowSeconds(split.0, split.1, t);
    FormatFields(split.0, split.1)
  }

  /** Whole minutes and the seconds left over (`Math.floor(t / 60)`, `t % 60`). */
  function SplitMinutes(t: nat): (p: (nat, nat))
    ensures p.1 < 60 && p.0 * 60 + p.1 == t
    ensures t == 0 ==> p == (0, 0)
  {
    MinutesAndSeconds(t);
    (t / 60, t % 60)
  }

  /** `Math.max(0, Math.floor(ms / 1000))`: Dafny's division by a positive
      constant already rounds down, negative operands included. */
  function WholeSeconds(ms: int): (t: nat)
    ensures t == Max0(ms / 1000)
    ensures ms < 1000 ==> t == 0
  {
    Max0(ms / 1000)
  }

  /** "m:ss" for `m` minutes and `s` seconds shows `m * 60 + s` seconds. */
  lemma FieldsShowSeconds(m: nat, s: nat, t: nat)
    requires s < 60 && m * 60 + s == t
    ensures ShowsSeconds(FormatFields(m, s), t)
  {
    var r := FormatFields(m, s);
    var a, b := DecimalValue(MinutesPart(r)), DecimalValue(SecondsPart(r));
    assert a == m && b == s;
  }

  lemma MinutesAndSeconds(t: nat)
    ensures (t / 60) * 60 + t % 60 == t && t % 60 < 60
    ensures t == 0 ==> t / 60 == 0 && t % 60 == 0
  {
  }

  /** "m:ss" for `m` minutes and `s` seconds. */
  function FormatFields(m: nat, s: nat): (r: string)
    requires s < 60
    ensures 4 <= |r| && r[|r| - 3] == ':'
    ensures IsDigits(MinutesPart(r)) && IsDigits(SecondsPart(r))
    ensures NoLeadingZero(MinutesPart(r))
    ensures DecimalValue(MinutesPart(r)) == m && DecimalValue(SecondsPart(r)) == s
    ensures m == 0 && s == 0 ==> r == "0:00"
  {
    var minutes := DecimalString(m);
    var seconds := PadStart(DecimalString(s), 2, '0');
    DecimalRoundTrip(m);
    SecondsField(s);
    JoinFields(minutes, seconds);
    minutes + ":" + seconds
  }

  /** The seconds field is two digits that read back as `s`. */
  lemma SecondsField(s: nat)
    requires s < 60
    ensures var f := PadStart(DecimalString(s), 2, '0');
      |f| == 2 && IsDigits(f) && DecimalValue(f) == s && (s == 0 ==> f == "00")
  {
    var d := DecimalString(s);
    DecimalRoundTrip(s);
    if |d| == 1 {
      var f := PadStart(d, 2, '0');
      assert f == "0" + d;
      LeadingZero(d);
    }
  }

  /** The text before the ":ss" suffix. */
  function MinutesPart(r: string): (m: string)
    requires |r| >= 3
    ensures |m| == |r| - 3
  {
    r[..|r| - 3]
  }

  /** The last two characters. */
  function SecondsPart(r: string): (s: string)
    requires |r| >= 2
    ensures |s| == 2
  {
    r[|r| - 2..]
  }

  lemma JoinFields(a: string, b: string)
    requires |b| == 2
    ensures var r := a + ":" + b;
      |r| == |a| + 3 && r[|r| - 3] == ':' && MinutesPart(r) == a && SecondsPart(r) == b
  {
    var r := a + ":" + b;
    assert r[..|r| - 3] == a;
    assert r[|r| - 2..] == b;
  }

  /** `Math.max(0, x)` on integers. */
  function Max0(x: int): (r: nat)
    ensures x >= 0 ==> r == x
    ensures x < 0 ==> r == 0
  {
    if x >= 0 then x else 0
  }

  /** resolvedTotalMs: `Math.max(0, Math.floor(totalMs))`; the model's
      durations are whole milliseconds, so the floor is the identity. */
  function ResolvedTotal(totalMs: int): (r: nat)
    ensures totalMs >= 0 ==> r == totalMs
    ensures totalMs < 0 ==> r == 0
  {
    Max0(totalMs)
  }

  // ---------------------------------------------------------------------
  // The clock as a value
  // ---------------------------------------------------------------------

  /** The component's state: the `state` prop, the resolved total, the
      elapsed counter, the completion latch and whether an interval is
      armed (`intervalRef.current !== null`). */
  datatype Clock = Clock(mode: Mode, total: nat, elapsed: nat, didComplete: bool, ticking: bool)

  datatype Event =
    | Tick                       // the interval callback runs
    | TotalChanged(totalMs: int) // the parent passes a new totalMs
    | ModeChanged(to: Mode)      // the parent passes a new state

  /** What holds after every render's effects have run. */
  predicate Consistent(c: Clock)
  {
    && c.elapsed <= c.total
    && (c.didComplete ==> c.mode == Playing)
    && c.ticking == (c.mode == Playing && c.total > 0)
    && (c.mode == Playing && c.total > 0 && c.elapsed >= c.total ==> c.didComplete)
  }

  /** The completion effect: while playing a non-zero total, reaching the
      total sets the latch. */
  function Latch(c: Clock): (r: Clock)
    ensures r.didComplete <==> c.didComplete || (c.mode == Playing && c.total != 0 && c.elapsed >= c.total)
    ensures r.(didComplete := c.didComplete) == c
  {
    if c.mode == Playing && c.total != 0 && c.elapsed >= c.total && !c.didComplete
    then c.(didComplete := true)
    else c
  }

  /** A fresh component, as mounted under a new `key`. */
  function Mount(mode: Mode, totalMs: int): (c: Clock)
    ensures Consistent(c)
    ensures c.mode == mode && c.total == ResolvedTotal(totalMs)
    ensures c.elapsed == 0 && !c.didComplete
  {
    var total := ResolvedTotal(totalMs);
    Latch(Clock(mode, total, 0, false, mode == Playing && total > 0))
  }

  /** The interval callback: advance by `tickMs`, capped at the total. */
  function OnTick(c: Clock, tickMs: nat): (r: Clock)
    ensures Consistent(c) ==> Consistent(r)
    ensures !c.ticking ==> r == c
    ensures c.ticking ==> r.elapsed == (if c.elapsed + tickMs >= c.total then c.total else c.elapsed + tickMs)
    ensures Consistent(c) ==> r.elapsed >= c.elapsed
    ensures r.mode == c.mode && r.total == c.total && r.ticking == c.ticking
  {
    if !c.ticking then c
    else
      var next := c.elapsed + tickMs;
      Latch(c.(elapsed := if next >= c.total then c.total else next))
  }

  /** A new `totalMs` prop: re-clamp elapsed, re-arm the interval, re-check
      completion. An unchanged resolved total triggers no effect. */
  function OnTotalChanged(c: Clock, totalMs: int): (r: Clock)
    ensures Consistent(c) ==> Consistent(r)
    ensures r.total == ResolvedTotal(totalMs)
    ensures Consistent(c) ==> r.elapsed == if c.elapsed <= r.total then c.elapsed else r.total
    ensures r.mode == c.mode
  {
    var total := ResolvedTotal(totalMs);
    if total == c.total then c
    else
      var clamped := if c.elapsed <= total then c.elapsed else total;
      Latch(c.(total := total, elapsed := clamped, ticking := c.mode == Playing && total > 0))
  }

  /** A new `state` prop: leaving playing clears the latch; the interval runs
      only while playing. The same state again triggers no effect. */
  function OnModeChanged(c: Clock, m: Mode): (r: Clock)
    ensures Consistent(c) ==> Consistent(r)
    ensures r.mode == m && r.total == c.total && r.elapsed == c.elapsed
    ensures Consistent(c) && m != Playing ==> !r.didComplete && !r.ticking
  {
    if m == c.mode then c
    else
      var cleared := if m != Playing then false else c.didComplete;
      Latch(c.(mode := m, didComplete := cleared, ticking := m == Playing && c.total > 0))
  }

  function StepClock(c: Clock, e: Event, tickMs: nat): (r: Clock)
    ensures Consistent(c) ==> Consistent(r)
  {
    match e
    case Tick => OnTick(c, tickMs)
    case TotalChanged(t) => OnTotalChanged(c, t)
    case ModeChanged(m) => OnModeChanged(c, m)
  }

  /** `onComplete` is invoked when an event raises the latch. */
  predicate Fires(c: Clock, e: Event, tickMs: nat)
  {
    !c.didComplete && StepClock(c, e, tickMs).didComplete
  }

  /** The latch rises only while playing a non-zero total that has been
      reached, and falls only when the mode leaves playing. */
  lemma LatchRule(c: Clock, e: Event, tickMs: nat)
    requires Consistent(c)
    ensures Fires(c, e, tickMs) ==>
      var r := StepClock(c, e, tickMs); r.mode == Playing && r.total > 0 && r.elapsed >= r.total
    ensures c.didComplete && !StepClock(c, e, tickMs).didComplete ==> StepClock(c, e, tickMs).mode != Playing
  {
  }

  /** The clock after a sequence of events. */
  function Run(c: Clock, events: seq<Event>, tickMs: nat): (r: Clock)
    decreases |events|
  {
    if events == [] then c else Run(StepClock(c, events[0], tickMs), events[1..], tickMs)
  }

  /** How many times `onComplete` is invoked over a sequence of events. */
  function FireCount(c: Clock, events: seq<Event>, tickMs: nat): (count: nat)
    decreases |events|
  {
    if events == [] then 0
    else
      (if Fires(c, events[0], tickMs) then 1 else 0)
      + FireCount(StepClock(c, events[0], tickMs), events[1..], tickMs)
  }

  /** A stretch of events during which the player never leaves playing. */
  predicate StaysPlaying(events: seq<Event>)
  {
    forall i :: 0 <= i < |events| ==> (events[i].ModeChanged? ==> events[i].to == Playing)
  }

  /** Within one playing run `onComplete` is invoked at most once, and not
      at all once it has been. */
  lemma {:induction false} AtMostOncePerRun(c: Clock, events: seq<Event>, tickMs: nat)
    requires Consistent(c) && c.mode == Playing && StaysPlaying(events)
    ensures FireCount(c, events, tickMs) <= 1
    ensures c.didComplete ==> FireCount(c, events, tickMs) == 0
    decreases |events|
  {
    if events != [] {
      var next := StepClock(c, events[0], tickMs);
      assert next.mode == Playing;
      assert c.didComplete ==> next.didComplete;
      assert StaysPlaying(events[1..]) by {
        forall i | 0 <= i < |events[1..]| ensures (events[1..][i].ModeChanged? ==> events[1..][i].to == Playing) {
          assert events[1..][i] == events[i + 1];
        }
      }
      AtMostOncePerRun(next, events[1..], tickMs);
    }
  }

  /** `n` interval ticks. */
  function Ticks(n: nat): (s: seq<Event>)
    ensures |s| == n && forall i :: 0 <= i < n ==> s[i] == Tick
  {
    if n == 0 then [] else [Tick] + Ticks(n - 1)
  }

  /** Enough ticks while playing a non-zero total do complete the track,
      and `onComplete` is invoked exactly once on the way. */
  lemma {:induction false} CompletesOnce(c: Clock, n: nat, tickMs: nat)
    requires Consistent(c) && c.mode == Playing && c.total > 0 && !c.didComplete
    requires tickMs > 0 && n * tickMs >= c.total - c.elapsed
    ensures FireCount(c, Ticks(n), tickMs) == 1
    ensures Run(c, Ticks(n), tickMs).elapsed == c.total
    decreases n
  {
    assert n > 0;
    var next := OnTick(c, tickMs);
    assert Ticks(n)[0] == Tick && Ticks(n)[1..] == Ticks(n - 1);
    if c.elapsed + tickMs >= c.total {
      assert next.didComplete;
      AtMostOncePerRun(next, Ticks(n - 1), tickMs);
      TicksKeepTotal(next, n - 1, tickMs);
    } else {
      assert next.elapsed == c.elapsed + tickMs && !next.didComplete;
      assert (n - 1) * tickMs == n * tickMs - tickMs;
      CompletesOnce(next, n - 1, tickMs);
    }
  }

  /** Once elapsed has reached the total, ticking keeps it there. */
  lemma {:induction false} TicksKeepTotal(c: Clock, n: nat, tickMs: nat)
    requires Consistent(c) && c.elapsed == c.total
    ensures Run(c, Ticks(n), tickMs).elapsed == c.total
  {
    if n > 0 {
      assert Ticks(n)[0] == Tick && Ticks(n)[1..] == Ticks(n - 1);
      TicksKeepTotal(OnTick(c, tickMs), n - 1, tickMs);
    }
  }

  // ---------------------------------------------------------------------
  // The component
  // ---------------------------------------------------------------------

  /** One mounted PlaybackProgress. It reads only `state`, `totalMs` and
      `tickMs`; the parent's `elapsedMs` prop is not part of its props. */
  class PlaybackProgress {
    var mode: Mode
    var total: nat
    var elapsed: nat
    var didComplete: bool
    var ticking: bool
    const tickMs: nat

    function State(): Clock
      reads this
    {
      Clock(mode, total, elapsed, didComplete, ticking)
    }

    ghost predicate Valid()
      reads this
    {
      Consistent(State())
    }

    /** Mounting, which also happens whenever the parent's key changes. */
    constructor (mode: Mode, totalMs: int, tickMs: nat)
      ensures Valid()
      ensures State() == Mount(mode, totalMs) && this.tickMs == tickMs
    {
      this.mode := mode;
      this.tickMs := tickMs;
      var resolved := ResolvedTotal(totalMs);
      total := resolved;
      elapsed := 0;
      didComplete := false;
      ticking := mode == Playing && resolved > 0;
    }

    /** The completion effect; reports whether it raised the latch. */
    method CheckComplete() returns (fired: bool)
      modifies this`didComplete
      ensures State() == Latch(old(State()))
      ensures fired <==> !old(didComplete) && didComplete
    {
      fired := false;
      if mode != Playing { return; }
      if total == 0 { return; }
      if elapsed >= total && !didComplete {
        didComplete := true;
        fired := true;
      }
    }

    /** The interval fires. `fired` says whether onComplete is invoked. */
    method Tick() returns (fired: bool)
      requires Valid()
      modifies this
      ensures Valid()
      ensures State() == OnTick(old(State()), tickMs)
      ensures fired <==> Fires(old(State()), Event.Tick, tickMs)
    {
      fired := false;
      if !ticking { return; }
      var next := elapsed + tickMs;
      if next >= total {
        elapsed := total;
      } else {
        elapsed := next;
      }
      fired := CheckComplete();
    }

    /** The parent re-renders with a new `totalMs`. */
    method TotalChanged(totalMs: int) returns (fired: bool)
      requires Valid()
      modifies this
      ensures Valid()
      ensures State() == OnTotalChanged(old(State()), totalMs)
      ensures fired <==> Fires(old(State()), Event.TotalChanged(totalMs), tickMs)
    {
      fired := false;
      var resolved := ResolvedTotal(totalMs);
      if resolved == total { return; }
      total := resolved;
      if elapsed > total {
        elapsed := total;
      }
      ticking := mode == Playing && total > 0;
      fired := CheckComplete();
    }

    /** The parent re-renders with a new `state`. */
    method ModeChanged(m: Mode) returns (fired: bool)
      requires Valid()
      modifies this
      ensures Valid()
      ensures State() == OnModeChanged(old(State()), m)
      ensures fired <==> Fires(old(State()), Event.ModeChanged(m), tickMs)
    {
      fired := false;
      if m == mode { return; }
      mode := m;
      if m != Playing {
        didComplete := false;
      }
      ticking := m == Playing && total > 0;
      fired := CheckComplete();
    }
  }

}
