/** The backchannel ("aizuchi") scheduler: from the pitch estimate of every
    frame it keeps a running pitch baseline, arms a cue when the pitch drops
    20% below that baseline, cancels the cue if the speaker goes on talking,
    and otherwise emits it 550 ms after arming, at most once per 2000 ms.

    The original is an object with mutable fields driven by the browser: a
    per-frame `update`, and two timer callbacks (a 50 ms voice-activity poll
    and a one-shot confirmation timeout). Here its state is an immutable
    `State`, and each of the three kinds of callback is a pure function from
    the state before to the state after plus the cue it emits, if any. Clock
    readings, the random draw and the voice-activity verdict are parameters.
    Times are whole milliseconds.
 */
module Scheduler {
  import PitchDetector

  /** Relative pitch drop below the running average that marks a phrase end. */
  const F0Threshold: real := 0.2
  /** Minimum time between two emitted cues, in ms. */
  const CooldownMs: int := 2000
  /** Wait for the phrase end to be confirmed, in ms. */
  const PhraseEndDelayMs: int := 250
  /** Further delay before the cue is emitted, in ms. */
  const AizuchiDelayMs: int := 300
  /** Period of the voice-activity poll while a cue is armed, in ms. */
  const CheckIntervalMs: int := 50

  /** The backchannel tokens a cue is drawn from. */
  const AizuchiTypes: seq<string> := ["うん", "はい", "ええ"]

  /** The armed cue, if any. `Armed` stands for the pair of live timers (the
      poll interval and the confirmation timeout) created together at
      `armedAt`, and for the `speakingDetected` flag their callbacks share.
      Having one field for both timers is what makes "at most one armed cue"
      hold by construction. */
  datatype Pending = NoPending | Armed(armedAt: int, speakingDetected: bool)

  /** The scheduler's state: the voiced pitch estimates since the last cue (or
      since start-up), the time of the last cue (or of start-up), and the armed
      cue. */
  datatype State = State(history: seq<real>, lastCueTime: int, pending: Pending)

  /** What a callback reports: nothing, or a cue with the token that
      showAizuchi logs. */
  datatype Cue = NoCue | Emit(token: string)

  /** The state after a callback together with the cue it emitted. */
  datatype Outcome = Outcome(next: State, cue: Cue)

  /** The state of a scheduler constructed at time `now`: the last-cue time
      starts at construction, so the cooldown also covers start-up. */
  function Init(now: int): State {
    State([], now, NoPending)
  }

  /** Left-to-right sum of a pitch history. */
  function Sum(h: seq<real>): real {
    if |h| == 0 then 0.0 else Sum(h[..|h| - 1]) + h[|h| - 1]
  }

  /** getAverageF0: the mean of the history, or 0 when it is empty. */
  function AverageF0(h: seq<real>): (r: real)
    ensures |h| == 0 ==> r == 0.0
    ensures |h| > 0 ==> r * |h| as real == Sum(h)
  {
    if |h| == 0 then 0.0 else Sum(h) / |h| as real
  }

  /** Fewer than `CooldownMs` ms have passed since the last cue. */
  predicate InCooldown(s: State, now: int) {
    now - s.lastCueTime < CooldownMs
  }

  /** A voiced estimate `f0`, just appended to `history`, lies more than
      `F0Threshold` below the history's average. */
  predicate PitchDrop(history: seq<real>, f0: real) {
    f0 < AverageF0(history) * (1.0 - F0Threshold)
  }

  /** When the confirmation timeout of an armed cue is due. */
  function Due(p: Pending): int
    requires p.Armed?
  {
    p.armedAt + PhraseEndDelayMs + AizuchiDelayMs
  }

  /** cancelPendingAizuchi: clears both timers, whatever was armed. */
  function CancelPending(s: State): (r: State)
    ensures r.pending == NoPending
    ensures r.history == s.history && r.lastCueTime == s.lastCueTime
  {
    s.(pending := NoPending)
  }

  /** The token index floor(draw * 3) chosen by a random draw in [0, 1). */
  function TokenIndex(draw: real): (i: int)
    requires 0.0 <= draw < 1.0
    ensures 0 <= i < |AizuchiTypes|
  {
    (draw * |AizuchiTypes| as real).Floor
  }

  /** showAizuchi: outside the cooldown, emits a token chosen by `draw`,
      records `now` as the last cue time and empties the pitch history;
      inside it, does nothing. The armed cue is not touched. */
  function ShowAizuchi(s: State, now: int, draw: real): (o: Outcome)
    requires 0.0 <= draw < 1.0
    ensures o.cue.Emit? <==> !InCooldown(s, now)
    ensures o.cue.Emit? ==> o.cue.token in AizuchiTypes && o.next == State([], now, s.pending)
    ensures o.cue.NoCue? ==> o.next == s
  {
    if InCooldown(s, now) then
      Outcome(s, NoCue)
    else
      Outcome(State([], now, s.pending), Emit(AizuchiTypes[TokenIndex(draw)]))
  }

  /** update, given the pitch estimate `f0` of the current frame: within the
      cooldown nothing happens; otherwise a voiced estimate is appended to the
      history and, if it lies 20% below the new average, any armed cue is
      cancelled and a new one is armed at `now`. An update never emits. */
  function Update(s: State, now: int, f0: real): (o: Outcome)
    ensures o.cue == NoCue
    ensures InCooldown(s, now) || f0 <= 0.0 ==> o.next == s
    ensures !InCooldown(s, now) && f0 > 0.0 ==>
              o.next.history == s.history + [f0] && o.next.lastCueTime == s.lastCueTime
    ensures !InCooldown(s, now) && f0 > 0.0 && PitchDrop(s.history + [f0], f0) ==>
              o.next.pending == Armed(now, false)
    ensures !(f0 > 0.0 && PitchDrop(s.history + [f0], f0)) ==> o.next.pending == s.pending
  {
    if InCooldown(s, now) then
      Outcome(s, NoCue)
    else if f0 > 0.0 then
      var history := s.history + [f0];
      if PitchDrop(history, f0) then
        Outcome(State(history, s.lastCueTime, Armed(now, false)), NoCue)
      else
        Outcome(s.(history := history), NoCue)
    else
      Outcome(s, NoCue)
  }

  /** The poll interval of the armed cue is live and has had time to fire:
      it first fires `CheckIntervalMs` after arming. */
  predicate PollDelivered(s: State, now: int) {
    s.pending.Armed? && now >= s.pending.armedAt + CheckIntervalMs
  }

  /** The confirmation timeout of the armed cue is live and due. Event times
      are taken to advance with the timers' delays: the timeout is delivered
      at a clock reading at least 550 ms after the arming tick's. */
  predicate TimeoutDelivered(s: State, now: int) {
    s.pending.Armed? && now >= Due(s.pending)
  }

  /** The poll interval callback: voice activity cancels the armed cue. The
      original also sets `speakingDetected`, but it clears the timeout in the
      same callback, so that flag never reaches a timeout and is not kept
      (an armed cue always has it unset, see `Invariant`). A poll of a
      cleared interval is never delivered, so it changes nothing. */
  function Poll(s: State, now: int, voiceActive: bool): (o: Outcome)
    ensures o.cue == NoCue
    ensures PollDelivered(s, now) && voiceActive ==> o.next == CancelPending(s)
    ensures !(PollDelivered(s, now) && voiceActive) ==> o.next == s
  {
    if PollDelivered(s, now) && voiceActive then
      Outcome(CancelPending(s), NoCue)
    else
      Outcome(s, NoCue)
  }

  /** The confirmation timeout callback: stops the poll interval and, unless
      speech was detected, calls showAizuchi. The timeout has then run, so no
      timer of this cue is live any more. A cleared timeout is never
      delivered, so it changes nothing. */
  function Timeout(s: State, now: int, draw: real): (o: Outcome)
    requires 0.0 <= draw < 1.0
    ensures !TimeoutDelivered(s, now) ==> o == Outcome(s, NoCue)
    ensures TimeoutDelivered(s, now) ==> o.next.pending == NoPending
    ensures o.cue.Emit? <==>
              TimeoutDelivered(s, now) && !s.pending.speakingDetected && !InCooldown(s, now)
    ensures o.cue.Emit? ==> o.cue.token in AizuchiTypes && o.next.history == [] && o.next.lastCueTime == now
    ensures o.cue.NoCue? ==> o.next.history == s.history && o.next.lastCueTime == s.lastCueTime
  {
    if !TimeoutDelivered(s, now) then
      Outcome(s, NoCue)
    else
      var stopped := CancelPending(s);
      if !s.pending.speakingDetected then ShowAizuchi(stopped, now, draw) else Outcome(stopped, NoCue)
  }

  /** Something the host delivers to the scheduler: a frame's pitch estimate,
      a poll with the voice-activity verdict of the polled frame, or the
      confirmation timeout with the random draw for the token. */
  datatype Event =
    | Tick(now: int, f0: real)
    | PollVoice(now: int, voiceActive: bool)
    | TimeoutFires(now: int, draw: real)

  /** Random draws lie in [0, 1), as the host's random source promises. */
  predicate WellFormed(e: Event) {
    e.TimeoutFires? ==> 0.0 <= e.draw < 1.0
  }

  /** Delivers one event. */
  function Step(s: State, e: Event): Outcome
    requires WellFormed(e)
  {
    match e
    case Tick(now, f0) => Update(s, now, f0)
    case PollVoice(now, active) => Poll(s, now, active)
    case TimeoutFires(now, draw) => Timeout(s, now, draw)
  }

  /** What holds of every state the scheduler can reach: the history holds
      only voiced (positive) estimates, and an armed cue was armed outside the
      cooldown and has not seen speech. */
  ghost predicate Invariant(s: State) {
    (forall i :: 0 <= i < |s.history| ==> s.history[i] > 0.0)
    && (s.pending.Armed? ==>
          !s.pending.speakingDetected && s.pending.armedAt - s.lastCueTime >= CooldownMs)
  }

  /** A freshly constructed scheduler satisfies the invariant. */
  lemma InitInvariant(now: int)
    ensures Invariant(Init(now))
  {
  }

  /** Every event preserves the invariant. */
  lemma StepPreservesInvariant(s: State, e: Event)
    requires WellFormed(e)
    requires Invariant(s)
    ensures Invariant(Step(s, e).next)
  {
  }

  /** In a reachable state a delivered timeout always emits: the arming tick
      was outside the cooldown, no cue was emitted since, and the timeout
      comes 550 ms later still, so showAizuchi's own cooldown test and the
      `speakingDetected` test both pass. */
  lemma DeliveredTimeoutEmits(s: State, now: int, draw: real)
    requires Invariant(s)
    requires 0.0 <= draw < 1.0
    requires TimeoutDelivered(s, now)
    ensures Timeout(s, now, draw).cue.Emit?
    ensures Timeout(s, now, draw).next == State([], now, NoPending)
  {
  }

  /** How one event can change the history: appended to by a voiced tick
      outside the cooldown, emptied by an emitted cue, and otherwise left
      alone; and an emitted cue always empties it. */
  lemma StepHistory(s: State, e: Event)
    requires WellFormed(e)
    ensures var o := Step(s, e);
            o.next.history == s.history
            || (e.Tick? && e.f0 > 0.0 && !InCooldown(s, e.now) && o.next.history == s.history + [e.f0])
            || (o.cue.Emit? && o.next.history == [])
    ensures Step(s, e).cue.Emit? ==> Step(s, e).next.history == []
    ensures Step(s, e).cue.NoCue? && !e.Tick? ==> Step(s, e).next.history == s.history
  {
  }

  /** Cancelling is idempotent: cancelling twice is cancelling once. */
  lemma CancelIdempotent(s: State)
    ensures CancelPending(CancelPending(s)) == CancelPending(s)
  {
  }

  /** The sum of a history whose entries are all at most `m` is at most
      |h| * m. */
  lemma {:induction false} SumAtMost(h: seq<real>, m: real)
    requires forall i :: 0 <= i < |h| ==> h[i] <= m
    ensures Sum(h) <= |h| as real * m
  {
    if |h| > 0 {
      var init := h[..|h| - 1];
      assert forall i :: 0 <= i < |init| ==> init[i] == h[i];
      SumAtMost(init, m);
      assert (|h| - 1) as real * m + m == |h| as real * m;
    }
  }

  /** The average of a non-empty history whose entries are all at most `m`
      is at most `m`. */
  lemma AverageAtMost(h: seq<real>, m: real)
    requires |h| > 0
    requires forall i :: 0 <= i < |h| ==> h[i] <= m
    ensures AverageF0(h) <= m
  {
    SumAtMost(h, m);
    var n := |h| as real;
    assert Sum(h) / n <= (n * m) / n;
  }

  /** The sum of a history whose entries are all at least `m` is at least
      |h| * m. */
  lemma {:induction false} SumAtLeast(h: seq<real>, m: real)
    requires forall i :: 0 <= i < |h| ==> m <= h[i]
    ensures |h| as real * m <= Sum(h)
  {
    if |h| > 0 {
      var init := h[..|h| - 1];
      assert forall i :: 0 <= i < |init| ==> init[i] == h[i];
      SumAtLeast(init, m);
      assert (|h| - 1) as real * m + m == |h| as real * m;
    }
  }

  /** The average of a non-empty history whose entries are all at least `m`
      is at least `m`. */
  lemma AverageAtLeast(h: seq<real>, m: real)
    requires |h| > 0
    requires forall i :: 0 <= i < |h| ==> m <= h[i]
    ensures m <= AverageF0(h)
  {
    SumAtLeast(h, m);
    var n := |h| as real;
    assert (n * m) / n <= Sum(h) / n;
  }

  /** A phrase end needs an earlier pitch above the current one: if the new
      voiced estimate is at least every estimate already in the history, the
      drop test fails. In particular the first voiced tick after a cue (or
      after start-up) never arms. */
  lemma DropNeedsHigherEarlierPitch(history: seq<real>, f0: real)
    requires f0 > 0.0
    requires forall i :: 0 <= i < |history| ==> history[i] <= f0
    ensures !PitchDrop(history + [f0], f0)
  {
    var h := history + [f0];
    assert forall i :: 0 <= i < |h| ==> h[i] <= f0;
    AverageAtMost(h, f0);
  }

  /** A tick on an empty history (the first voiced tick after a cue or after
      start-up) leaves a one-element history, whose average is the tick's own
      estimate, so it never arms a cue. */
  lemma FirstVoicedTickNeverArms(s: State, now: int, f0: real)
    requires s.history == []
    ensures Update(s, now, f0).next.pending == s.pending
  {
    if f0 > 0.0 {
      DropNeedsHigherEarlierPitch(s.history, f0);
    }
  }

  /** update as the browser runs it: the cooldown is tested before a frame is
      read; otherwise the frame's pitch is estimated and fed to `Update`. */
  method UpdateWithFrame(s: State, now: int, frame: seq<real>, sampleRate: real) returns (o: Outcome)
    requires sampleRate >= PitchDetector.MinSampleRate
    ensures InCooldown(s, now) ==> o == Outcome(s, NoCue)
    ensures !InCooldown(s, now) ==>
              exists f0 :: PitchDetector.IsPitchEstimate(frame, sampleRate, f0) && o == Update(s, now, f0)
  {
    if InCooldown(s, now) {
      return Outcome(s, NoCue);
    }
    var f0 := PitchDetector.DetectF0(frame, sampleRate);
    o := Update(s, now, f0);
  }
}
