# Music player transport, playlist navigator and progress clock

This project models the sequential core of a React music-player widget:

- **the playlist navigator** (`usePlaylistControls`). From the track count, the cursor (track index plus epoch key), the shuffle flag and the repeat mode (`off | all | one`), it computes next, previous, jump and restart. It also toggles shuffle and cycles the repeat mode. `Math.random` is an oracle here: a caller-supplied sequence of draws.
- **the transport state machine** (`MusicPlayer`). It has three modes (`paused | playing | loading`) and two cancellable timeouts: one that finishes a play/pause toggle and one that finishes a track switch. Each timeout firing is an explicit event. Several `setState` calls in one callback are plain assignments, so the last one wins.
- **the self-timed progress clock** (`PlaybackProgress`). It keeps its own elapsed counter, advanced by an interval tick while playing and capped at the resolved total. It re-clamps when the total changes. A `didComplete` latch rises once per playing run, and its rising edge invokes `onComplete`. Formatting as `m:ss` is covered too.

Files:

- `player_state.dfy`: the shared `Mode` datatype.
- `navigator.dfy`: module `Navigator`. The navigator is written as functions returning the new cursor. `PickRandomIndex` is a method with its rejection loop. The file also holds lemmas over sequences of presses.
- `progress.dfy`: module `Progress`.
  - Decimal formatting and `formatTimeFromMs`.
  - The clock as a value: the `Clock` datatype and one function per event.
  - Lemmas over runs of events.
  - The class `PlaybackProgress`, whose methods perform the effects on its fields and are proved equal to those functions.
- `player.dfy`: module `Player`, with the class `MusicPlayer`. Its `Valid()` is the timer invariant: mode is `loading` exactly when one timeout is armed, and never both. It also has two scenario methods, `EndOfPlaylistReplays` and `EndOfPlaylistStops`, that connect the player to a progress clock, and two helpers that set those scenarios up.

Points where the code behaves differently from what a reader might expect:

- **The at-end pause is lost.** `onNext`'s action writes `setState("paused")` when the navigator reports the end with repeat `off` (`src/components/MusicPlayer.tsx:208-210`), which shows the intent to stop at the end of the playlist. But the switch callback runs the action first and then sets the mode from `wasPlaying` (`src/components/MusicPlayer.tsx:199-200`), so that write is overwritten. `MusicPlayer.FireSwitch` always ends in the pre-switch mode. See "## Findings".
- **Shuffle on a single track.** With one track, shuffle picks index 0, which is the current index. It still bumps the key and reports `{didChange: true, atEnd: false}`.
- **A total of zero is accepted.** The clock works with `resolvedTotalMs = max(0, totalMs)`, so a zero or negative `totalMs` becomes 0. With a zero total the interval is never armed and the latch never rises.
- **`onComplete` can be invoked again.** The latch rises at most once per playing run (`AtMostOncePerRun`). But the effect at `src/components/music-player/ui/PlaybackProgress.tsx:78-81` also re-runs, with the latch still up, whenever the parent passes a new `onComplete`. Those extra calls reach `handleProgressComplete` while the player is already `loading`. `HandleProgressComplete` leaves a non-playing player unchanged, so they do nothing.
- **The clock ignores the parent's `elapsedMs`.** `MusicPlayer` passes `elapsedMs={elapsedMs}`, but `PlaybackProgress` does not declare or read that prop. Its clock is its own counter, reset only by the remount under `key={trackKey}`.

## Model

| member | source | states |
|---|---|---|
| `Navigator.FirstOther` | src/components/music-player/hook/usePlaylistControls.tsx:12 | the rejection loop stops at the first draw that differs from `exclude`; every earlier draw equals it |
| `Navigator.RandomPick` | src/components/music-player/hook/usePlaylistControls.tsx:9-14 | with at most one track the pick is 0; otherwise it is one of the draws, lies in `[0, len)` and differs from `exclude` |
| `Navigator.PickRandomIndex` | src/components/music-player/hook/usePlaylistControls.tsx:9-14 | the redraw loop returns exactly `RandomPick`: the first draw other than `exclude`, or 0 for `len <= 1` |
| `Navigator.GoToIndex` | src/components/music-player/hook/usePlaylistControls.tsx:41-49 | an empty list changes neither index nor key; otherwise the index is the target clamped into `[0, len-1]` and the key goes up by exactly 1 |
| `Navigator.GoNext` | src/components/music-player/hook/usePlaylistControls.tsx:51-71 | `didChange == !atEnd`; at end exactly when the list is empty or, without shuffle, at the last track with repeat not `all`; at end nothing changes; otherwise the index is in range and the key +1; without shuffle it advances by one, or wraps to 0 under repeat `all`; shuffle with more than one track never picks the current index |
| `Navigator.GoPrev` | src/components/music-player/hook/usePlaylistControls.tsx:73-93 | an empty list is unchanged; otherwise the key goes up by 1 and the index is in range; without shuffle it steps back one, and from the first track wraps to `len-1` with repeat `all` and otherwise stays at 0; it never reports an end |
| `Navigator.RestartTrack` | src/components/music-player/hook/usePlaylistControls.tsx:103-105 | same index, key +1 |
| `Navigator.ToggleShuffle` | src/components/music-player/hook/usePlaylistControls.tsx:95-97 | the flag always flips |
| `Navigator.CycleRepeat` | src/components/music-player/hook/usePlaylistControls.tsx:99-101 | off goes to all, all to one, one to off; the mode always changes |
| `Navigator.ToggleShuffleInvolution` | src/components/music-player/hook/usePlaylistControls.tsx:95-97 | toggling shuffle twice is the identity |
| `Navigator.CycleRepeatPeriod` | src/components/music-player/hook/usePlaylistControls.tsx:99-101 | three cycles are the identity and one or two are not |
| `Navigator.MovesStayInRange` | src/components/music-player/hook/usePlaylistControls.tsx:41-71 | after any number of next presses with shuffle off, under any repeat mode, the cursor is still inside the list (shuffle and previous moves keep it in range step by step, by the contracts of `GoNext` and `GoPrev`) |
| `Navigator.WalkForward` | src/components/music-player/hook/usePlaylistControls.tsx:59-63 | short of the last track, `n` next presses move `n` tracks forward and bump the key `n` times |
| `Navigator.PlayThroughOnce` | src/components/music-player/hook/usePlaylistControls.tsx:51-71 | from track 0 with repeat off, the k-th press lands on track k, and next reports the end exactly when k is the last track |
| `Navigator.StuckAtEnd` | src/components/music-player/hook/usePlaylistControls.tsx:65-70 | at the last track with repeat off, further next presses change neither index nor key |
| `Navigator.RepeatAllCycles` | src/components/music-player/hook/usePlaylistControls.tsx:59-68 | with repeat all, `len` next presses return to the starting track having bumped the key `len` times |
| `Progress.DecimalString` | src/components/music-player/ui/PlaybackProgress.tsx:18 | `toString` of a whole number: one or more digits, the first of which is '0' only for 0 (no leading zero), exactly one below 10, at most two below 100 |
| `Progress.DecimalRoundTrip` | src/components/music-player/ui/PlaybackProgress.tsx:18 | the digits read back as the number they were made from |
| `Progress.PadStart` | src/components/music-player/ui/PlaybackProgress.tsx:18 | `padStart`: the result is at least `width` long and ends with the input; everything before it is the fill character |
| `Progress.SecondsField` | src/components/music-player/ui/PlaybackProgress.tsx:17-18 | the padded seconds are two digits that read back as the seconds; zero seconds is "00" |
| `Progress.FormatFields` | src/components/music-player/ui/PlaybackProgress.tsx:18 | "m:ss" has a ':' three from the end, digits on both sides, minutes without a leading zero, and fields that read back as `m` and `s` |
| `Progress.FormatTimeFromMs` | src/components/music-player/ui/PlaybackProgress.tsx:14-19 | the minutes field has no leading zero; the seconds field is two digits below 60; minutes*60 + seconds equals `max(0, floor(ms/1000))`; under one second, negatives included, the text is "0:00" |
| `Progress.MinutesAndSeconds` | src/components/music-player/ui/PlaybackProgress.tsx:16-17 | splitting whole seconds into minutes and seconds loses nothing |
| `Progress.ResolvedTotal` | src/components/music-player/ui/PlaybackProgress.tsx:27 | a non-negative total is kept; a negative one becomes 0 |
| `Progress.Latch` | src/components/music-player/ui/PlaybackProgress.tsx:68-75 | the latch is up afterwards exactly when it was up, or the clock is playing a non-zero total it has reached; nothing else changes |
| `Progress.Mount` | src/components/music-player/ui/PlaybackProgress.tsx:21-32 | a fresh clock (the component remounted under a new key) starts at 0 with the latch down, and is consistent |
| `Progress.OnTick` | src/components/music-player/ui/PlaybackProgress.tsx:49-56 | with no interval armed nothing changes; otherwise elapsed becomes `min(elapsed + tickMs, total)`; elapsed never decreases; consistency is kept |
| `Progress.OnTotalChanged` | src/components/music-player/ui/PlaybackProgress.tsx:38-40 | the new resolved total is stored and elapsed re-clamped to `min(elapsed, total)`, keeping `elapsed <= total` |
| `Progress.OnModeChanged` | src/components/music-player/ui/PlaybackProgress.tsx:34-36 | the new mode is stored; any mode but playing clears the latch and disarms the interval; consistency is kept |
| `Progress.StepClock` | src/components/music-player/ui/PlaybackProgress.tsx:34-81 | every event keeps the clock consistent: `elapsed <= total`, latch only while playing, interval armed exactly while playing a non-zero total, and a reached total while playing has raised the latch |
| `Progress.LatchRule` | src/components/music-player/ui/PlaybackProgress.tsx:68-75 | `onComplete` fires only when playing a non-zero total that elapsed has reached; the latch falls only when the mode leaves playing |
| `Progress.AtMostOncePerRun` | src/components/music-player/ui/PlaybackProgress.tsx:78-81 | over any events that keep the player playing, `onComplete` fires at most once, and not at all if it already has |
| `Progress.CompletesOnce` | src/components/music-player/ui/PlaybackProgress.tsx:48-56 | playing a non-zero total, enough ticks bring elapsed to the total and fire `onComplete` exactly once |
| `Progress.TicksKeepTotal` | src/components/music-player/ui/PlaybackProgress.tsx:52-54 | once elapsed equals the total, further ticks keep it there |
| `Progress.PlaybackProgress.constructor` | src/components/music-player/ui/PlaybackProgress.tsx:21-32 | mounting yields the `Mount` state |
| `Progress.PlaybackProgress.CheckComplete` | src/components/music-player/ui/PlaybackProgress.tsx:68-75 | the completion effect performs `Latch` and reports its rising edge |
| `Progress.PlaybackProgress.Tick` | src/components/music-player/ui/PlaybackProgress.tsx:49-56 | an interval firing performs `OnTick` then the completion effect; it reports whether `onComplete` is invoked |
| `Progress.PlaybackProgress.TotalChanged` | src/components/music-player/ui/PlaybackProgress.tsx:38-40 | a new `totalMs` prop performs `OnTotalChanged`; it reports whether `onComplete` is invoked |
| `Progress.PlaybackProgress.ModeChanged` | src/components/music-player/ui/PlaybackProgress.tsx:34-36 | a new `state` prop performs `OnModeChanged`; it reports whether `onComplete` is invoked |
| `Player.ToggleTarget` | src/components/MusicPlayer.tsx:178 | toggling heads for paused from playing and for playing otherwise, never for loading |
| `Player.MusicPlayer.constructor` | src/components/MusicPlayer.tsx:34-52 | initially paused at index 0, key 0, shuffle off, repeat off, both timer handles null |
| `Player.MusicPlayer.ClearSwitchTimer` | src/components/MusicPlayer.tsx:54-59 | the switch handle is null afterwards, and nothing else changes, so a second call is a no-op |
| `Player.MusicPlayer.ClearPlayToggleTimer` | src/components/MusicPlayer.tsx:61-66 | the toggle handle is null afterwards, and nothing else changes, so a second call is a no-op |
| `Player.MusicPlayer.Unmount` | src/components/MusicPlayer.tsx:68-73 | unmounting cancels both timeouts; afterwards no timer event changes anything |
| `Player.MusicPlayer.TogglePlay` | src/components/MusicPlayer.tsx:174-186 | a no-op while loading; otherwise mode becomes loading and the toggle timeout is armed with the opposite mode; the cursor is untouched |
| `Player.MusicPlayer.FireToggle` | src/components/MusicPlayer.tsx:182-185 | a pending toggle commits its target mode and nulls the handle; with none pending nothing changes |
| `Player.MusicPlayer.RunTrackSwitch` | src/components/MusicPlayer.tsx:188-203 | a no-op while loading; otherwise it records `wasPlaying` and the captured shuffle and repeat, sets loading and arms the switch timeout; the invariant holds |
| `Player.MusicPlayer.OnNext` | src/components/MusicPlayer.tsx:205-211 | arms a switch whose action is goNext |
| `Player.MusicPlayer.OnPrev` | src/components/MusicPlayer.tsx:213 | arms a switch whose action is goPrev |
| `Player.MusicPlayer.OnRestart` | src/components/MusicPlayer.tsx:215 | arms a switch whose action is restartTrack |
| `Player.MusicPlayer.RunAction` | src/components/MusicPlayer.tsx:205-215 | the action moves the cursor as the navigator says; onNext's action writes paused exactly at the end of the list with repeat off |
| `Player.MusicPlayer.FireSwitch` | src/components/MusicPlayer.tsx:198-202 | a pending switch moves the cursor as its navigator action says and then sets the mode to `wasPlaying ? playing : paused`, whatever the action wrote; it nulls the handle; with none pending nothing changes |
| `Player.MusicPlayer.FireSwitchIntended` | src/components/MusicPlayer.tsx:205-211 | the corrected callback: the same cursor, but ending paused when onNext reached the end with repeat off |
| `Player.MusicPlayer.HandleProgressComplete` | src/components/MusicPlayer.tsx:217-226 | nothing unless playing; with repeat one it arms a restart, otherwise exactly what onNext arms; afterwards the player is loading, so a repeated call is a no-op |
| `Player.MusicPlayer.ToggleShuffle` | src/components/MusicPlayer.tsx:275 | the shuffle button flips the flag |
| `Player.MusicPlayer.CycleRepeat` | src/components/MusicPlayer.tsx:276 | the repeat button cycles the repeat mode |
| `Player.EndOfPlaylistReplays` | src/components/MusicPlayer.tsx:198-210 | three tracks with repeat off: the last track completes and the player switches and ends up playing again on the same key, so the same clock completes again |
| `Player.EndOfPlaylistStops` | src/components/MusicPlayer.tsx:205-211 | the same run with the corrected callback ends paused, and the clock does not complete again |

## Findings

| source | as written | input that shows it | evidently intended | confidence | as-written member | corrected member |
|---|---|---|---|---|---|---|
| src/components/MusicPlayer.tsx:198-210 | the switch callback runs the action, then sets the mode from `wasPlaying`, overwriting the `paused` onNext's action writes at the end of the list | three tracks, shuffle off, repeat off, playing the last track to its end: the mode returns to playing with the same key, so the progress clock is not remounted and completes again, and the loop repeats | stop in paused at the end of the playlist | not executed | `Player.EndOfPlaylistReplays` | `Player.MusicPlayer.FireSwitchIntended` |

`MusicPlayer.FireSwitch` keeps the behaviour as written. Every other member and lemma about the transport describes the widget as it behaves. `FireSwitchIntended`, with the scenario `EndOfPlaylistStops`, shows the corrected callback and the property it restores.

## Left out

- Audio element effects (`src/components/MusicPlayer.tsx:95-172`): source assignment, `load`, `play().catch`, `pause`, volume, `requestAnimationFrame` sampling, and the `loadedmetadata` and `ended` listeners. All of these are media and DOM input/output. Their seconds-to-milliseconds conversions are floating point. The `ended` listener calls the same `handleProgressComplete` that is modelled.
- useAudioEngine.tsx: it repeats the same audio logic and is not part of this model.
- The parent's own `elapsedMs` and `totalMs` state: only the audio effects write them. The `totalMs` the clock receives is a parameter of `PlaybackProgress.constructor` and `PlaybackProgress.TotalChanged`.
- Timer delays (`SWITCH_LOADING_MS`, `PLAY_TOGGLE_LOADING_MS`, the 100 ms tick): firings are explicit events, and wall-clock time is not modelled.
- Wiring between components: `key={trackKey}` remounting, the `state` prop and `onComplete` are shown only in the scenario methods. No composed object is modelled.
- Re-invocations of `onComplete` after a parent re-render with a new callback: only the rising edge is modelled. Why the extra calls are harmless is explained above.
- `Navigator.RandomPick`, `Navigator.PickRandomIndex`: `Math.random` is an oracle. Draws are already floored into `[0, len)`. The rejection loop is assumed to end: some draw must differ from the excluded index.
- `Progress.PlaybackProgress.constructor`: `tickMs` is a natural number, so negative or fractional intervals are not modelled.
- `Progress.FormatTimeFromMs`: milliseconds are whole numbers, so `Math.floor` of a fraction is not modelled.
- `Progress.ResolvedTotal`: the total is a whole number of milliseconds, so the `Math.floor` of `src/components/music-player/ui/PlaybackProgress.tsx:27` is the identity and is not modelled.
- The volume slider, the progress percentage and width (`src/components/music-player/ui/PlaybackProgress.tsx:83-84`): these are floating point over DOM geometry.
- Presentation components: album art, equalizer, buttons and motion variants. The main button's loading guard on play/pause repeats `TogglePlay`'s own guard, and its guard on previous and next repeats `RunTrackSwitch`'s.
- `Player.MusicPlayer.ToggleShuffle`, `Player.MusicPlayer.CycleRepeat`: the main button disables the shuffle and repeat buttons while the player is `loading` (`src/components/music-player/ui/MainButton.tsx:34`), and `MusicPlayer` wires them without a guard of its own. The model leaves that button-level guard out, so these two methods also allow a flip during a pending switch or toggle, which the widget blocks. Every invariant is proved for this larger set of behaviours.
- The static track catalog: only its length matters, and it is `MusicPlayer.trackCount`.
