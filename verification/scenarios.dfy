/** Two concrete runs of the scheduler: a steady 200 Hz voice followed by a
    150 Hz frame (a 25% drop) and then either silence or renewed speech.
 */
module Scenarios {
  import opened Scheduler
  import opened Traces

  /** Four ticks at 200 Hz outside the start-up cooldown, then one at 150 Hz
      at time 2064, which lies below 80% of the average 190 Hz and arms a
      cue. */
  const Voiced: seq<Event> := [
    Tick(2000, 200.0), Tick(2016, 200.0), Tick(2032, 200.0), Tick(2048, 200.0),
    Tick(2064, 150.0)]

  /** The state the voiced ticks leave behind. */
  const ArmedState: State := State([200.0, 200.0, 200.0, 200.0, 150.0], 0, Armed(2064, false))

  /** The averages of the histories the voiced ticks build up: 200 Hz while
      the voice is steady, 190 Hz once the 150 Hz frame is appended. */
  lemma VoicedAverages()
    ensures AverageF0([200.0]) == 200.0
    ensures AverageF0([200.0, 200.0]) == 200.0
    ensures AverageF0([200.0, 200.0, 200.0]) == 200.0
    ensures AverageF0([200.0, 200.0, 200.0, 200.0]) == 200.0
    ensures AverageF0([200.0, 200.0, 200.0, 200.0, 150.0]) == 190.0
  {
    assert Sum([200.0]) == 200.0;
    assert [200.0, 200.0][..1] == [200.0];
    assert Sum([200.0, 200.0]) == 400.0;
    assert [200.0, 200.0, 200.0][..2] == [200.0, 200.0];
    assert Sum([200.0, 200.0, 200.0]) == 600.0;
    assert [200.0, 200.0, 200.0, 200.0][..3] == [200.0, 200.0, 200.0];
    assert Sum([200.0, 200.0, 200.0, 200.0]) == 800.0;
    assert [200.0, 200.0, 200.0, 200.0, 150.0][..4] == [200.0, 200.0, 200.0, 200.0];
    assert Sum([200.0, 200.0, 200.0, 200.0, 150.0]) == 950.0;
  }

  /** The voiced ticks arm a cue at the 150 Hz tick. */
  lemma VoicedTicksArm()
    ensures AllWellFormed(Voiced)
    ensures Run(Init(0), Voiced) == RunResult(ArmedState, [])
  {
    VoicedAverages();
    var s0 := Init(0);
    var s1 := State([200.0], 0, NoPending);
    var s2 := State([200.0, 200.0], 0, NoPending);
    var s3 := State([200.0, 200.0, 200.0], 0, NoPending);
    var s4 := State([200.0, 200.0, 200.0, 200.0], 0, NoPending);
    assert [] + [200.0] == [200.0];
    assert Step(s0, Voiced[0]) == Outcome(s1, NoCue);
    assert [200.0] + [200.0] == [200.0, 200.0];
    assert Step(s1, Voiced[1]) == Outcome(s2, NoCue);
    assert [200.0, 200.0] + [200.0] == [200.0, 200.0, 200.0];
    assert Step(s2, Voiced[2]) == Outcome(s3, NoCue);
    assert [200.0, 200.0, 200.0] + [200.0] == [200.0, 200.0, 200.0, 200.0];
    assert Step(s3, Voiced[3]) == Outcome(s4, NoCue);
    assert [200.0, 200.0, 200.0, 200.0] + [150.0] == [200.0, 200.0, 200.0, 200.0, 150.0];
    assert Step(s4, Voiced[4]) == Outcome(ArmedState, NoCue);
    assert Run(s4, Voiced[4..]) == RunResult(ArmedState, []);
    assert Run(s3, Voiced[3..]) == RunResult(ArmedState, []);
    assert Run(s2, Voiced[2..]) == RunResult(ArmedState, []);
    assert Run(s1, Voiced[1..]) == RunResult(ArmedState, []);
  }

  /** Silence after the drop: unvoiced ticks and quiet polls until the
      timeout fires at 2064 + 550 = 2614 give exactly one cue, at 2614. */
  lemma DropThenSilenceEmitsOnce()
    ensures var es := Voiced + [Tick(2100, 0.0), PollVoice(2114, false), PollVoice(2364, false),
                                TimeoutFires(2614, 0.5)];
            AllWellFormed(es)
            && Run(Init(0), es).cues == [Emission(2614, "はい")]
  {
    var quiet := [Tick(2100, 0.0), PollVoice(2114, false), PollVoice(2364, false)];
    VoicedTicksArm();
    SilenceConfirms(ArmedState, quiet, 2614, 0.5);
    var rest := quiet + [TimeoutFires(2614, 0.5)];
    RunAppend(Init(0), Voiced, rest);
    assert Voiced + [Tick(2100, 0.0), PollVoice(2114, false), PollVoice(2364, false),
                     TimeoutFires(2614, 0.5)] == Voiced + rest;
    assert TokenIndex(0.5) == 1;
  }

  /** Speech 300 ms after the drop: the poll that hears it cancels the cue,
      the timeout is never delivered, and no cue is emitted. */
  lemma DropThenSpeechEmitsNothing()
    ensures var es := Voiced + [PollVoice(2364, true), TimeoutFires(2614, 0.5)];
            AllWellFormed(es)
            && Run(Init(0), es).cues == []
            && Run(Init(0), es).final.pending == NoPending
  {
    VoicedTicksArm();
    VoiceCancels(ArmedState, 2364, [TimeoutFires(2614, 0.5)]);
    var rest := [PollVoice(2364, true)] + [TimeoutFires(2614, 0.5)];
    RunAppend(Init(0), Voiced, rest);
    assert Voiced + [PollVoice(2364, true), TimeoutFires(2614, 0.5)] == Voiced + rest;
  }
}
