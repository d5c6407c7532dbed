# Backchannel ("aizuchi") scheduler — a Dafny model

This project models the core of `AizuchiSystem` (`aizuchi.js`), the part of a
dialogue experiment that listens to a speaker and emits short acknowledgement
tokens ("うん", "はい", "ええ") at phrase ends. It has two parts:

- **Pitch detection** (`pitch.dfy`, module `PitchDetector`): `detectF0` finds
  the fundamental frequency of one frame by normalised autocorrelation. It
  scans the lags `[floor(sr/500), floor(sr/50))` in increasing order. It keeps
  a running maximum that starts at 0 and moves only on a strictly greater
  value. It reports `sr / lag` for the lag that set the maximum, or 0 when the
  maximum is below 0.5. The model is a method with the same loops. Its
  contract is an independent characterisation (`IsPitchEstimate`): 0 exactly
  when no lag of the band is voiced, otherwise the frequency of the *first*
  lag with the best normalised correlation. On a silent frame the original
  computes 0/0 = NaN, and `NaN > max` is false; this is kept as the `NaN`
  constructor of `Confidence`.
- **Backchannel scheduler** (`scheduler.dfy`, module `Scheduler`;
  `traces.dfy`, module `Traces`): the state holds
  - the pitch history (`f0Array`),
  - the last cue time (`lastAizuchiTime`),
  - the armed cue, if any. It stands for the interval and timeout handles and
    the `speakingDetected` flag they share.

  Three kinds of callback act on the state, each as a pure step function:
  - the per-frame `update` (`Update`, or `UpdateWithFrame` with the frame),
  - the 50 ms voice-activity poll (`Poll`),
  - the 550 ms confirmation timeout (`Timeout`), which calls `showAizuchi`.

  A cleared timer never delivers. The model encodes this by making a poll or
  timeout with nothing armed a no-op. `Traces.Run` delivers a sequence of
  events in order, the way the browser's single-threaded event loop does. The
  lemmas over runs cover cooldown spacing, history growth and cancellation.
- `scenarios.dfy` (module `Scenarios`) runs two end-to-end scenarios on
  concrete events: a steady 200 Hz voice, then a 150 Hz frame, then either
  silence or speech.

A cue `Emit(token)` is the one output of `showAizuchi`: the token it logs
with `console.log` (aizuchi.js:75). Samples, powers, correlations and pitch
averages are `real`. Times are whole milliseconds (`int`). Host facilities
are parameters: the clock reading is each event's `now`, the random number is
the timeout event's `draw` in [0, 1), and voice activity is the poll event's
boolean.

## Model

| member | source | states |
|---|---|---|
| PitchDetector.DetectF0 | aizuchi.js:23-51 | The result is 0 exactly when no lag of the 50–500 Hz band reaches normalised correlation 0.5 (this covers zero power and no positive correlation). Otherwise it is `sampleRate / L`, where `L` is the first lag of the band with the maximal normalised correlation (strict `>` keeps the first of equal maxima). A non-zero result is above 50 Hz. It can be slightly above 500 Hz, since the first lag is rounded down: at 44100 Hz the first lag 88 gives 501.1 Hz. |
| PitchDetector.SignalPower | aizuchi.js:29-32 | The running sum equals the frame's sum of squared samples. |
| PitchDetector.Correlation | aizuchi.js:38-41 | The running sum equals the sum of x[i]·x[i+lag] over the overlap. The overlap is empty, and the sum 0, when the lag reaches past the frame. |
| PitchDetector.LagBounds | aizuchi.js:34-35 | For a sample rate of at least 500 Hz the lag band is never empty and its first lag is at least 1, so `sampleRate / lag` never divides by zero. |
| PitchDetector.LagPitchAboveFloor | aizuchi.js:35-46 | Every lag below `floor(sr/50)` gives a frequency strictly above 50 Hz. |
| PitchDetector.SilentFrameUnvoiced | aizuchi.js:29-50 | An all-zero frame has zero power, so every normalised correlation is NaN and no lag is voiced. |
| PitchDetector.ShortFrameUnvoiced | aizuchi.js:37-50 | A frame no longer than the first lag has no overlap at any lag of the band, so no lag is voiced. |
| PitchDetector.SilentFrameEstimate | aizuchi.js:29-50 | Every pitch estimate of an all-zero frame is 0. |
| PitchDetector.ShortFrameEstimate | aizuchi.js:37-50 | Every pitch estimate of a frame no longer than the first lag is 0. |
| PitchDetector.FirstBestLagUnique | aizuchi.js:44-47 | At most one lag of a range is the first with the best normalised correlation. |
| PitchDetector.EstimateUnique | aizuchi.js:37-50 | A frame and a sample rate admit a single pitch estimate, so DetectF0's result is determined by its inputs. |
| Scheduler.CancelPending | aizuchi.js:80-89 | After cancelling, nothing is armed, whatever was armed before. History and last cue time are unchanged. |
| Scheduler.CancelIdempotent | aizuchi.js:80-89 | Cancelling twice is the same as cancelling once. |
| Scheduler.TokenIndex | aizuchi.js:74 | `floor(draw * 3)` for a draw in [0, 1) is a valid index into the token list. |
| Scheduler.ShowAizuchi | aizuchi.js:68-78 | Emits exactly when at least 2000 ms have passed since the last cue. The token is one of the three catalogue tokens. Emitting records `now` and empties the history. Not emitting changes nothing. The armed cue is never touched. |
| Scheduler.Update | aizuchi.js:91-110 | Never emits. Inside the cooldown, or for an unvoiced estimate, changes nothing. Otherwise appends the estimate to the history. If the estimate lies below 80% of the new average, it replaces any armed cue with one armed at `now`. It never arms otherwise. |
| Scheduler.Poll | aizuchi.js:113-121 | Never emits. A delivered poll that hears voice cancels the armed cue. Any other poll, including one with nothing armed, changes nothing. |
| Scheduler.Timeout | aizuchi.js:124-129 | An undelivered timeout changes nothing. A delivered one leaves nothing armed. It emits exactly when no speech was flagged and the cooldown has passed. Emitting empties the history and records `now`. |
| Scheduler.InitInvariant | aizuchi.js:5-6 | A scheduler built at time t starts with an empty history, last cue time t and nothing armed, and satisfies the invariant. |
| Scheduler.StepPreservesInvariant | aizuchi.js:91-129 | Every event keeps the invariant. The history holds only positive estimates. An armed cue was armed at least 2000 ms after the last cue, with no speech flagged. |
| Scheduler.DeliveredTimeoutEmits | aizuchi.js:124-129 | In a reachable state a delivered timeout always emits, because its cooldown test and `!speakingDetected` test always pass. This relies on the clock reading advancing with the timer delay (see Left out). It leaves an empty history, last cue time `now` and nothing armed. |
| Scheduler.StepHistory | aizuchi.js:77-103 | One event changes the history in only three ways. A voiced tick outside the cooldown appends to it. An emitted cue empties it. Every other event leaves it alone. An emitted cue always empties it. |
| Scheduler.AverageF0 | aizuchi.js:53-56 | The average of an empty history is 0. For a non-empty one, the average times the length is the sum of the entries. |
| Scheduler.AverageAtLeast | aizuchi.js:53-56 | The average of a non-empty history is at least any lower bound on its entries. |
| Scheduler.AverageAtMost | aizuchi.js:53-56 | The average of a non-empty history is at most any bound on its entries. |
| Scheduler.DropNeedsHigherEarlierPitch | aizuchi.js:102-107 | The drop test fails when the new estimate is at least every earlier one. An arming needs an earlier, higher pitch. |
| Scheduler.FirstVoicedTickNeverArms | aizuchi.js:102-107 | A tick on an empty history (one-element history after the push) never arms a cue. |
| Scheduler.UpdateWithFrame | aizuchi.js:91-100 | Inside the cooldown the frame is not examined and nothing changes. Otherwise the result is `Update` applied to a valid pitch estimate of the frame. |
| Traces.StepCueTime | aizuchi.js:69-77 | An emitted cue is outside the cooldown, becomes the last cue time and has a catalogue token. Without a cue, the last cue time stays. |
| Traces.RunCuesSpaced | aizuchi.js:69-77 | Along any run, any two cues are at least 2000 ms apart. Every cue comes at least 2000 ms after the previous last cue, and every token is in the catalogue. |
| Traces.NoCueDuringStartup | aizuchi.js:6-10 | No cue is emitted within 2000 ms of construction. |
| Traces.RunPreservesInvariant | aizuchi.js:91-129 | The invariant holds at the end of every run from a state that satisfies it. |
| Traces.HistoryGrowsUntilCue | aizuchi.js:102-103 | Along a run that emits no cue, the history before is a prefix of the history after. |
| Traces.SilenceChangesNothing | aizuchi.js:102-117 | Unvoiced ticks and polls that hear no voice change nothing and emit nothing. |
| Traces.SilenceConfirms | aizuchi.js:124-129 | From an armed reachable state, silence followed by the due timeout emits exactly one cue, at the timeout's time, with the token the draw picks. It leaves an empty history and nothing armed. |
| Traces.ClearedTimersDeliverNothing | aizuchi.js:80-89 | With nothing armed, polls, timeouts and unvoiced ticks in any interleaving change nothing and emit nothing. |
| Traces.VoiceCancels | aizuchi.js:113-121 | A delivered poll that hears voice cancels the armed cue. After it, no cue is emitted by that cue's timer events, interleaved with any unvoiced frames. |
| Traces.NewerArmingWins | aizuchi.js:107-129 | A re-arming tick at `t` leaves exactly one cue armed, at `t`. The older cue's timeout, due before the new one's, is no longer delivered. |
| Scenarios.VoicedAverages | aizuchi.js:53-56 | The steady voice keeps the average at 200 Hz. Appending the 150 Hz frame brings it to 190 Hz. |
| Scenarios.VoicedTicksArm | aizuchi.js:100-108 | Four 200 Hz ticks and then a 150 Hz tick arm a cue, since 150 is below 80% of the 190 Hz average. |
| Scenarios.DropThenSilenceEmitsOnce | aizuchi.js:91-129 | After the drop, silence gives exactly one cue, at arm time + 550 ms. |
| Scenarios.DropThenSpeechEmitsNothing | aizuchi.js:113-129 | After the drop, speech 300 ms later gives no cue and leaves nothing armed. |

## Left out

- `checkVolumeLevel` (aizuchi.js:58-66) is left out, along with its
  `VOLUME_THRESHOLD`. Its RMS/decibel arithmetic uses `sqrt` and `log10`.
  Voice activity is a boolean carried by each poll event.
- Floating point is not modelled: no Float32 storage of samples, no double
  rounding in the sums or the average. Samples, powers, correlations and
  averages are exact reals. The NaN of 0/0 is kept.
- `Normalise` maps every division by a zero power to NaN. In exact
  arithmetic a zero sum of squares means every sample is zero, so the
  correlation is zero and the division is 0/0. That implication is not
  proved: the solver's non-linear real arithmetic does not close it reliably.
- PitchDetector.DetectF0 requires a sample rate of at least 500 Hz. Below
  that the first lag is 0. For a frame with non-zero power at 50 ≤ sr < 500,
  the original reports `sampleRate / 0` (Infinity), because lag 0 normalises
  to 1. Below 50 Hz the band is empty, and a silent frame gives 0 (NaN never
  exceeds the maximum). Audio contexts run at 3000 Hz or more.
- The host clock (`Date.now`) is not called: every event carries its time.
  Likewise, `setInterval`/`setTimeout` scheduling is not modelled; the events
  those timers deliver are inputs. `Math.random` becomes the timeout's draw.
  The frame read (`getFloatTimeDomainData`) becomes a parameter. The
  constructor's start-up log line (aizuchi.js:20) is left out.
- Poll times are not restricted to multiples of 50 ms after arming. The model
  accepts a poll at any time at least 50 ms after arming, so the properties
  cover every cadence. Which of the poll and the timeout runs first when both
  are due is the host's choice. The model follows the delivery order, as the
  code does, with no deadline comparison.
- Event times are assumed to advance with the timers' delays, as a monotonic
  clock would: a timeout is delivered only at a clock reading at least 550 ms
  after its arming tick. `Date.now` is wall-clock time. If it stepped back,
  the original would still run the timeout, and `showAizuchi`'s cooldown test
  could suppress a due cue. Scheduler.DeliveredTimeoutEmits holds only under
  this assumption.
- Stale timer ids are not modelled. After the timeout has run, the original
  keeps non-null ids in `isSpeakingCheck` and `pendingAizuchi`, and a later
  cancel clears them to no effect. In the model the state after the timeout
  simply has nothing armed.
- The constructor's `audioCtx`/`analyzer` wiring is left out. The unused third constructor argument (the experiment
  mode) is left out.
- The page flow, rendering, recording and upload in `index.js` are left out:
  they are UI and I/O. The storage endpoint in `server.js` is left out: it is
  HTTP and file-system plumbing.
- The accuracy of the estimate on a pure sine tone (within one lag step of the
  tone's frequency) is not stated. It needs trigonometry on reals.

Three behaviours of `aizuchi.js` that the model keeps as written:

- Only an exactly zero power is guarded (through NaN). A tiny non-zero power
  is divided as usual.
- A zero-length frame is not rejected. Its estimate is 0.
- A voice-activity poll cancels the cue whenever it runs before the timeout.
  It compares no times.
