/** Runs of the backchannel scheduler: sequences of delivered events and the
    cues they emit. The host serialises the per-frame update and the two
    timer callbacks (a single-threaded event loop), so a run is simply the
    events in delivery order. The properties here relate many steps: cue
    spacing, the history's growth between cues, and the two ways an armed cue
    can end.
 */
module Traces {
  import opened Scheduler

  /** A cue emitted at `time` with its token. */
  datatype Emission = Emission(time: int, token: string)

  /** The state at the end of a run and the cues emitted along it, in order. */
  datatype RunResult = RunResult(final: State, cues: seq<Emission>)

  /** Every event of the run is well formed. */
  predicate AllWellFormed(es: seq<Event>) {
    forall e :: e in es ==> WellFormed(e)
  }

  /** The cues one event contributes to a run. */
  function Emitted(s: State, e: Event): seq<Emission>
    requires WellFormed(e)
  {
    var o := Step(s, e);
    if o.cue.Emit? then [Emission(e.now, o.cue.token)] else []
  }

  /** Delivers the events one after the other, collecting emitted cues with
      the time of the event that emitted them. */
  function Run(s: State, es: seq<Event>): RunResult
    requires AllWellFormed(es)
    decreases |es|
  {
    if |es| == 0 then
      RunResult(s, [])
    else
      var rest := Run(Step(s, es[0]).next, es[1..]);
      RunResult(rest.final, Emitted(s, es[0]) + rest.cues)
  }

  /** Any two cues of a sequence are at least the cooldown apart. */
  ghost predicate Spaced(cues: seq<Emission>) {
    forall i, j :: 0 <= i < j < |cues| ==> cues[j].time - cues[i].time >= CooldownMs
  }

  /** How one step moves the last-cue time: an emitted cue is outside the
      cooldown and becomes the new last cue; otherwise nothing moves. */
  lemma StepCueTime(s: State, e: Event)
    requires WellFormed(e)
    ensures Step(s, e).cue.Emit? ==>
              !InCooldown(s, e.now) && Step(s, e).next.lastCueTime == e.now
              && Step(s, e).cue.token in AizuchiTypes
    ensures Step(s, e).cue.NoCue? ==> Step(s, e).next.lastCueTime == s.lastCueTime
  {
  }

  /** Cooldown spacing: along any run, every cue comes at least the cooldown
      after the last cue before the run (or start-up), any two cues are at
      least the cooldown apart, and every token is one of the catalogue's. No
      ordering of event times is assumed: showAizuchi tests the cooldown
      itself. */
  lemma {:induction false} RunCuesSpaced(s: State, es: seq<Event>)
    requires AllWellFormed(es)
    decreases |es|
    ensures var r := Run(s, es);
            Spaced(r.cues)
            && (forall i :: 0 <= i < |r.cues| ==> r.cues[i].time - s.lastCueTime >= CooldownMs)
            && (forall i :: 0 <= i < |r.cues| ==> r.cues[i].token in AizuchiTypes)
  {
    if |es| > 0 {
      var o := Step(s, es[0]);
      StepCueTime(s, es[0]);
      RunCuesSpaced(o.next, es[1..]);
      var rest := Run(o.next, es[1..]);
      assert Run(s, es).cues == Emitted(s, es[0]) + rest.cues;
    }
  }

  /** No cue is emitted in the first `CooldownMs` after construction. */
  lemma NoCueDuringStartup(start: int, es: seq<Event>)
    requires AllWellFormed(es)
    ensures forall c :: c in Run(Init(start), es).cues ==> c.time >= start + CooldownMs
  {
    RunCuesSpaced(Init(start), es);
  }

  /** The invariant holds all along a run. */
  lemma {:induction false} RunPreservesInvariant(s: State, es: seq<Event>)
    requires AllWellFormed(es)
    requires Invariant(s)
    decreases |es|
    ensures Invariant(Run(s, es).final)
  {
    if |es| > 0 {
      StepPreservesInvariant(s, es[0]);
      RunPreservesInvariant(Step(s, es[0]).next, es[1..]);
    }
  }

  /** Between cues the history only grows: along a run that emits nothing,
      the history before is a prefix of the history after. */
  lemma {:induction false} HistoryGrowsUntilCue(s: State, es: seq<Event>)
    requires AllWellFormed(es)
    requires Run(s, es).cues == []
    decreases |es|
    ensures s.history <= Run(s, es).final.history
  {
    if |es| > 0 {
      var o := Step(s, es[0]);
      StepHistory(s, es[0]);
      HistoryGrowsUntilCue(o.next, es[1..]);
    }
  }

  /** A run over a concatenation is the run over the first part followed by
      the run over the second part from where the first ended. */
  lemma {:induction false} RunAppend(s: State, a: seq<Event>, b: seq<Event>)
    requires AllWellFormed(a) && AllWellFormed(b)
    decreases |a|
    ensures AllWellFormed(a + b)
    ensures Run(s, a + b)
            == RunResult(Run(Run(s, a).final, b).final, Run(s, a).cues + Run(Run(s, a).final, b).cues)
  {
    if |a| > 0 {
      var ab := a + b;
      assert ab[0] == a[0] && ab[1..] == a[1..] + b;
      var next := Step(s, a[0]).next;
      var here := Emitted(s, a[0]);
      RunAppend(next, a[1..], b);
      var mid := Run(next, a[1..]);
      var tail := Run(mid.final, b);
      assert Run(s, a) == RunResult(mid.final, here + mid.cues);
      assert Run(s, ab) == RunResult(tail.final, here + (mid.cues + tail.cues));
      assert (here + mid.cues) + tail.cues == here + (mid.cues + tail.cues);
    } else {
      assert a + b == b;
    }
  }

  /** Silence: ticks of unvoiced frames and polls that hear no voice. */
  predicate Silent(e: Event) {
    (e.Tick? && e.f0 <= 0.0) || (e.PollVoice? && !e.voiceActive)
  }

  /** Silent events change nothing and emit nothing. */
  lemma {:induction false} SilenceChangesNothing(s: State, es: seq<Event>)
    requires forall e :: e in es ==> Silent(e)
    ensures AllWellFormed(es)
    ensures Run(s, es) == RunResult(s, [])
  {
    if |es| > 0 {
      assert Silent(es[0]);
      SilenceChangesNothing(s, es[1..]);
    }
  }

  /** If the speaker stays silent after a cue is armed, the confirmation
      timeout emits exactly one cue, at the time it fires and with the token
      the draw picks, and leaves an empty history and nothing armed. */
  lemma SilenceConfirms(s: State, quiet: seq<Event>, now: int, draw: real)
    requires Invariant(s)
    requires s.pending.Armed?
    requires forall e :: e in quiet ==> Silent(e)
    requires now >= Due(s.pending)
    requires 0.0 <= draw < 1.0
    ensures AllWellFormed(quiet + [TimeoutFires(now, draw)])
    ensures var r := Run(s, quiet + [TimeoutFires(now, draw)]);
            r.cues == [Emission(now, AizuchiTypes[TokenIndex(draw)])]
            && r.final == State([], now, NoPending)
  {
    var fire := [TimeoutFires(now, draw)];
    SilenceChangesNothing(s, quiet);
    RunAppend(s, quiet, fire);
    DeliveredTimeoutEmits(s, now, draw);
  }

  /** Events that only the armed cue's own timers deliver. */
  predicate TimerEvent(e: Event) {
    e.PollVoice? || e.TimeoutFires?
  }

  /** Once nothing is armed, timer events are never delivered: polls and
      timeouts change nothing and emit nothing, and neither do the unvoiced
      ticks the per-frame update interleaves with them. */
  lemma {:induction false} ClearedTimersDeliverNothing(s: State, es: seq<Event>)
    requires s.pending == NoPending
    requires AllWellFormed(es)
    requires forall e :: e in es ==> TimerEvent(e) || Silent(e)
    ensures Run(s, es) == RunResult(s, [])
  {
    if |es| > 0 {
      assert TimerEvent(es[0]) || Silent(es[0]);
      ClearedTimersDeliverNothing(s, es[1..]);
    }
  }

  /** A poll that hears voice while a cue is armed cancels it: no cue is
      emitted afterwards, whatever its timers would have delivered, while the
      frames in between are unvoiced. (A voiced frame may arm a new cue.) */
  lemma VoiceCancels(s: State, t: int, later: seq<Event>)
    requires PollDelivered(s, t)
    requires AllWellFormed(later)
    requires forall e :: e in later ==> TimerEvent(e) || Silent(e)
    ensures AllWellFormed([PollVoice(t, true)] + later)
    ensures var r := Run(s, [PollVoice(t, true)] + later);
            r.cues == [] && r.final == CancelPending(s)
  {
    var poll := [PollVoice(t, true)];
    RunAppend(s, poll, later);
    ClearedTimersDeliverNothing(CancelPending(s), later);
  }

  /** A newer arming replaces the older one: after a tick at `t` re-arms,
      only one cue is armed, at `t`, and the older cue's timeout, due before
      the new one's, is no longer delivered. */
  lemma NewerArmingWins(s: State, t: int, f0: real, now: int, draw: real)
    requires s.pending.Armed?
    requires !InCooldown(s, t) && f0 > 0.0 && PitchDrop(s.history + [f0], f0)
    requires now < t + PhraseEndDelayMs + AizuchiDelayMs
    requires 0.0 <= draw < 1.0
    ensures Update(s, t, f0).next.pending == Armed(t, false)
    ensures Timeout(Update(s, t, f0).next, now, draw) == Outcome(Update(s, t, f0).next, NoCue)
  {
  }
}
