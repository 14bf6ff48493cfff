/** The transport state machine of MusicPlayer.tsx.

    The component holds the playback mode, the playlist cursor, the shuffle
    flag, the repeat mode and two cancellable timeouts: one that finishes a
    play/pause toggle and one that finishes a track switch. Timer firings are
    explicit events (`FireToggle`, `FireSwitch`); the delays themselves are
    not modelled. Several `setState` calls in one callback are assignments
    to the same field, so the last one wins. */
module Player {

  import opened PlayerState
  import opened Navigator
  import Progress

  datatype Option<T> = None | Some(value: T)

  /** What the switch callback's `action` does: onNext, onPrev, onRestart. */
  datatype SwitchAction = NextTrack | PrevTrack | RestartCurrent

  /** An armed track-switch timeout: its action, the `wasPlaying` it
      computed, and the shuffle flag and repeat mode its closure captured
      when it was armed (the action reads those, not the current ones). */
  datatype PendingSwitch = PendingSwitch(action: SwitchAction, wasPlaying: bool, shuffle: bool, repeat: RepeatMode)

  /** The mode a play/pause toggle heads for. */
  function ToggleTarget(m: Mode): (r: Mode)
    ensures r != Loading
    ensures m == Playing <==> r == Paused
  {
    if m == Playing then Paused else Playing
  }

  /** The draws the random oracle must deliver for a switch to end. */
  predicate DrawsFor(len: nat, index: int, p: PendingSwitch, draws: seq<nat>)
  {
    p.shuffle && p.action != RestartCurrent && len > 1 ==> DrawsDeliver(len, index, draws)
  }

  /** The cursor a switch's action leaves behind. */
  function SwitchCursor(len: nat, c: Cursor, p: PendingSwitch, draws: seq<nat>): Cursor
    requires DrawsFor(len, c.index, p, draws)
  {
    match p.action
    case NextTrack => GoNext(len, c, p.shuffle, p.repeat, draws).cursor
    case PrevTrack => GoPrev(len, c, p.shuffle, p.repeat, draws)
    case RestartCurrent => RestartTrack(c)
  }

  class MusicPlayer {
    const trackCount: nat
    var mode: Mode
    var index: int
    var key: nat
    var shuffle: bool
    var repeat: RepeatMode
    var switchTimer: Option<PendingSwitch>   // switchTimerRef
    var toggleTimer: Option<Mode>            // playToggleTimerRef, with the mode it commits
    var mounted: bool

    /** The cursor stays in the list; while mounted the mode is loading
        exactly when one timeout is armed, and never are both armed; after
        unmounting none is. */
    ghost predicate Valid()
      reads this
    {
      && (trackCount > 0 ==> 0 <= index < trackCount)
      && (trackCount == 0 ==> index == 0)
      && !(switchTimer.Some? && toggleTimer.Some?)
      && (mounted ==> (mode == Loading <==> switchTimer.Some? || toggleTimer.Some?))
      && (!mounted ==> switchTimer.None? && toggleTimer.None?)
      && (toggleTimer.Some? ==> toggleTimer.value != Loading)
    }

    constructor (trackCount: nat)
      ensures Valid() && mounted && this.trackCount == trackCount
      ensures mode == Paused && index == 0 && key == 0
      ensures !shuffle && repeat == Off
      ensures switchTimer.None? && toggleTimer.None?
    {
      this.trackCount := trackCount;
      mode := Paused;
      index, key := 0, 0;
      shuffle, repeat := false, Off;
      switchTimer, toggleTimer := None, None;
      mounted := true;
    }

    /** clearSwitchTimer: cancel the switch timeout, if any. */
    method ClearSwitchTimer()
      modifies this`switchTimer
      ensures switchTimer.None?
    {
      if switchTimer.Some? {
        switchTimer := None;
      }
    }

    /** clearPlayToggleTimer: cancel the toggle timeout, if any. */
    method ClearPlayToggleTimer()
      modifies this`toggleTimer
      ensures toggleTimer.None?
    {
      if toggleTimer.Some? {
        toggleTimer := None;
      }
    }

    /** The unmount cleanup: both timeouts are cancelled. */
    method Unmount()
      requires Valid()
      modifies this
      ensures Valid() && !mounted
      ensures switchTimer.None? && toggleTimer.None?
      ensures mode == old(mode) && index == old(index) && key == old(key)
      ensures shuffle == old(shuffle) && repeat == old(repeat)
    {
      ClearSwitchTimer();
      ClearPlayToggleTimer();
      mounted := false;
    }

    /** togglePlay: ignored while loading; otherwise enter loading and arm a
        timeout that commits the opposite mode. */
    method TogglePlay()
      requires Valid() && mounted
      modifies this
      ensures Valid()
      ensures old(mode) == Loading ==> unchanged(this)
      ensures old(mode) != Loading ==>
        && mode == Loading && toggleTimer == Some(ToggleTarget(old(mode)))
        && switchTimer == old(switchTimer) && mounted
        && index == old(index) && key == old(key) && shuffle == old(shuffle) && repeat == old(repeat)
    {
      if mode == Loading {
        return;
      }
      ClearPlayToggleTimer();
      var next := ToggleTarget(mode);
      mode := Loading;
      toggleTimer := Some(next);
    }

    /** The toggle timeout fires: commit its mode and drop the handle. A
        cancelled timeout never fires. */
    method FireToggle()
      requires Valid()
      modifies this
      ensures Valid()
      ensures old(toggleTimer).None? ==> unchanged(this)
      ensures old(toggleTimer).Some? ==>
        && mode == old(toggleTimer).value && mode != Loading
        && toggleTimer.None? && switchTimer == old(switchTimer) && mounted == old(mounted)
        && index == old(index) && key == old(key) && shuffle == old(shuffle) && repeat == old(repeat)
    {
      if toggleTimer.None? {
        return;
      }
      mode := toggleTimer.value;
      toggleTimer := None;
    }

    /** runTrackSwitch: ignored while loading; otherwise remember whether
        playback was on, enter loading and arm the switch timeout. */
    method RunTrackSwitch(action: SwitchAction)
      requires Valid() && mounted
      modifies this
      ensures Valid()
      ensures old(mode) == Loading ==> unchanged(this)
      ensures old(mode) != Loading ==>
        && mode == Loading
        && switchTimer == Some(PendingSwitch(action, old(mode) == Playing, old(shuffle), old(repeat)))
        && toggleTimer == old(toggleTimer) && mounted
        && index == old(index) && key == old(key) && shuffle == old(shuffle) && repeat == old(repeat)
    {
      if mode == Loading {
        return;
      }
      var wasPlaying := mode == Playing;
      ClearSwitchTimer();
      mode := Loading;
      switchTimer := Some(PendingSwitch(action, wasPlaying, shuffle, repeat));
    }

    method OnNext()
      requires Valid() && mounted
      modifies this
      ensures Valid()
      ensures old(mode) == Loading ==> unchanged(this)
      ensures old(mode) != Loading ==>
        && mode == Loading
        && switchTimer == Some(PendingSwitch(NextTrack, old(mode) == Playing, old(shuffle), old(repeat)))
        && toggleTimer == old(toggleTimer) && mounted
        && index == old(index) && key == old(key) && shuffle == old(shuffle) && repeat == old(repeat)
    {
      RunTrackSwitch(NextTrack);
    }

    method OnPrev()
      requires Valid() && mounted
      modifies this
      ensures Valid()
      ensures old(mode) == Loading ==> unchanged(this)
      ensures old(mode) != Loading ==>
        && mode == Loading
        && switchTimer == Some(PendingSwitch(PrevTrack, old(mode) == Playing, old(shuffle), old(repeat)))
        && toggleTimer == old(toggleTimer) && mounted
        && index == old(index) && key == old(key) && shuffle == old(shuffle) && repeat == old(repeat)
    {
      RunTrackSwitch(PrevTrack);
    }

    method OnRestart()
      requires Valid() && mounted
      modifies this
      ensures Valid()
      ensures old(mode) == Loading ==> unchanged(this)
      ensures old(mode) != Loading ==>
        && mode == Loading
        && switchTimer == Some(PendingSwitch(RestartCurrent, old(mode) == Playing, old(shuffle), old(repeat)))
        && toggleTimer == old(toggleTimer) && mounted
        && index == old(index) && key == old(key) && shuffle == old(shuffle) && repeat == old(repeat)
    {
      RunTrackSwitch(RestartCurrent);
    }

    /** The switch timeout fires: run the action, then restore the mode
        from `wasPlaying`, then drop the handle. The restore comes last, so
        the pause onNext's action writes at the end of the list is lost. */
    method FireSwitch(draws: seq<nat>)
      requires Valid()
      requires switchTimer.Some? ==> DrawsFor(trackCount, index, switchTimer.value, draws)
      modifies this
      ensures Valid()
      ensures old(switchTimer).None? ==> unchanged(this)
      ensures old(switchTimer).Some? ==>
        && Cursor(index, key) == SwitchCursor(trackCount, Cursor(old(index), old(key)), old(switchTimer).value, draws)
        && mode == (if old(switchTimer).value.wasPlaying then Playing else Paused)
        && switchTimer.None? && toggleTimer == old(toggleTimer) && mounted == old(mounted)
        && shuffle == old(shuffle) && repeat == old(repeat)
    {
      if switchTimer.None? {
        return;
      }
      var p := switchTimer.value;
      var _ := RunAction(p, draws);
      mode := if p.wasPlaying then Playing else Paused;
      switchTimer := None;
    }

    /** The switch callback as evidently intended: the pause that onNext's
        action commits at the end of the list (repeat off) is kept. */
    method FireSwitchIntended(draws: seq<nat>)
      requires Valid()
      requires switchTimer.Some? ==> DrawsFor(trackCount, index, switchTimer.value, draws)
      modifies this
      ensures Valid()
      ensures old(switchTimer).None? ==> unchanged(this)
      ensures old(switchTimer).Some? ==>
        var p := old(switchTimer).value;
        var atEnd := p.action == NextTrack
          && GoNext(trackCount, Cursor(old(index), old(key)), p.shuffle, p.repeat, draws).report.atEnd;
        && Cursor(index, key) == SwitchCursor(trackCount, Cursor(old(index), old(key)), p, draws)
        && mode == (if atEnd && p.repeat == Off then Paused else if p.wasPlaying then Playing else Paused)
        && switchTimer.None? && toggleTimer == old(toggleTimer) && mounted == old(mounted)
        && shuffle == old(shuffle) && repeat == old(repeat)
    {
      if switchTimer.None? {
        return;
      }
      var p := switchTimer.value;
      var paused := RunAction(p, draws);
      if !paused {
        mode := if p.wasPlaying then Playing else Paused;
      }
      switchTimer := None;
    }

    /** The action of a switch callback; `pausedAtEnd` says whether it
        committed "paused" (onNext at the end of the list, repeat off). */
    method RunAction(p: PendingSwitch, draws: seq<nat>) returns (pausedAtEnd: bool)
      requires DrawsFor(trackCount, index, p, draws)
      modifies this`index, this`key, this`mode
      ensures Cursor(index, key) == SwitchCursor(trackCount, Cursor(old(index), old(key)), p, draws)
      ensures pausedAtEnd <==> (p.action == NextTrack && p.repeat == Off
        && GoNext(trackCount, Cursor(old(index), old(key)), p.shuffle, p.repeat, draws).report.atEnd)
      ensures mode == if pausedAtEnd then Paused else old(mode)
    {
      pausedAtEnd := false;
      match p.action
      case NextTrack =>
        var res := GoNext(trackCount, Cursor(index, key), p.shuffle, p.repeat, draws);
        index, key := res.cursor.index, res.cursor.key;
        if res.report.atEnd && p.repeat == Off {
          mode := Paused;
          pausedAtEnd := true;
        }
      case PrevTrack =>
        var c := GoPrev(trackCount, Cursor(index, key), p.shuffle, p.repeat, draws);
        index, key := c.index, c.key;
      case RestartCurrent =>
        var c := RestartTrack(Cursor(index, key));
        index, key := c.index, c.key;
    }

    /** handleProgressComplete: only while playing; repeat one restarts the
        track, anything else moves on as onNext does. */
    method HandleProgressComplete()
      requires Valid() && mounted
      modifies this
      ensures Valid()
      ensures old(mode) != Playing ==> unchanged(this)
      ensures old(mode) == Playing ==>
        && mode == Loading
        && switchTimer == Some(PendingSwitch(
             if old(repeat) == One then RestartCurrent else NextTrack, true, old(shuffle), old(repeat)))
        && toggleTimer.None? && mounted
        && index == old(index) && key == old(key) && shuffle == old(shuffle) && repeat == old(repeat)
    {
      if mode != Playing {
        return;
      }
      if repeat == One {
        OnRestart();
        return;
      }
      OnNext();
    }

    /** controls.toggleShuffle, wired straight to the shuffle button. */
    method ToggleShuffle()
      requires Valid()
      modifies this`shuffle
      ensures Valid() && shuffle == Navigator.ToggleShuffle(old(shuffle))
    {
      shuffle := Navigator.ToggleShuffle(shuffle);
    }

    /** controls.cycleRepeat, wired straight to the repeat button. */
    method CycleRepeat()
      requires Valid()
      modifies this`repeat
      ensures Valid() && repeat == Navigator.CycleRepeat(old(repeat))
    {
      repeat := Navigator.CycleRepeat(repeat);
    }
  }

  /** A three-track player, started and skipped forward twice: playing the
      last track with shuffle and repeat off and nothing pending. */
  method PlayingLastOfThree(intended: bool) returns (player: MusicPlayer)
    ensures fresh(player) && player.Valid() && player.mounted
    ensures player.trackCount == 3 && player.index == 2 && player.key == 2
    ensures player.mode == Playing && !player.shuffle && player.repeat == Off
    ensures player.switchTimer.None? && player.toggleTimer.None?
  {
    player := new MusicPlayer(3);
    player.TogglePlay();
    player.FireToggle();
    assert player.mode == Playing && player.index == 0;
    player.OnNext();
    if intended { player.FireSwitchIntended([]); } else { player.FireSwitch([]); }
    assert player.mode == Playing && player.index == 1 && player.key == 1;
    player.OnNext();
    if intended { player.FireSwitchIntended([]); } else { player.FireSwitch([]); }
  }

  /** A clock mounted playing a 200 ms track, ticked to its end. */
  method FinishedClock() returns (clock: Progress.PlaybackProgress, fired: bool)
    ensures fresh(clock) && clock.Valid() && fired
    ensures clock.mode == Playing && clock.total == 200 && clock.elapsed == 200 && clock.didComplete
    ensures clock.tickMs == 100
  {
    clock := new Progress.PlaybackProgress(Playing, 200, 100);
    fired := clock.Tick();
    assert clock.elapsed == 100 && !fired;
    fired := clock.Tick();
  }

  /** The switch callback as written: its mode afterwards depends only on
      whether playback was on, so onNext at the end of the list with repeat
      off resumes playing. Three tracks, playing the last one: its progress
      clock completes, the player switches, finds the end and comes back to
      playing on the same key, so the clock is not remounted and completes
      again at once. */
  method EndOfPlaylistReplays() returns (finalMode: Mode, finalKey: nat, firedAgain: bool)
    ensures finalMode == Playing && finalKey == 2 && firedAgain
  {
    var player := PlayingLastOfThree(false);
    var clock, fired := FinishedClock();

    player.HandleProgressComplete();
    assert player.mode == Loading && player.switchTimer == Some(PendingSwitch(NextTrack, true, false, Off));
    fired := clock.ModeChanged(player.mode);
    assert !clock.didComplete && clock.elapsed == 200;
    player.FireSwitch([]);
    assert player.mode == Playing && player.key == 2;
    // The key did not change, so the same clock sees the new mode.
    firedAgain := clock.ModeChanged(player.mode);
    finalMode, finalKey := player.mode, player.key;
  }

  /** The same run with the intended switch callback: the player stops at
      the end of the list and the clock stays quiet. */
  method EndOfPlaylistStops() returns (finalMode: Mode, firedAgain: bool)
    ensures finalMode == Paused && !firedAgain
  {
    var player := PlayingLastOfThree(true);
    var clock, fired := FinishedClock();

    player.HandleProgressComplete();
    assert player.mode == Loading && player.switchTimer == Some(PendingSwitch(NextTrack, true, false, Off));
    fired := clock.ModeChanged(player.mode);
    assert !clock.didComplete;
    player.FireSwitchIntended([]);
    assert player.mode == Paused;
    firedAgain := clock.ModeChanged(player.mode);
    var ticked := clock.Tick();
    firedAgain := firedAgain || ticked;
    finalMode := player.mode;
  }

}
