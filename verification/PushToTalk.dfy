/** The recording hotkey of internal/services/actions.go, composed with the key-event matcher and the
    recording session. */
module PushToTalk {
  import opened Optional
  import opened HotkeyKeys
  import opened Evdev
  import opened AudioSession

  datatype HotkeyResult = Done | StartError(start: StartResult) | StopError(stop: StopResult)

  function StartedAs(r: StartResult): HotkeyResult {
    if r == StartOk then Done else StartError(r)
  }

  // HandleStopRecording swallows recorder errors; only these two reach its caller
  function StoppedAs(r: StopResult): HotkeyResult {
    if r == NoRecordingInProgress || r == NoAudioFile then StopError(r) else Done
  }

  function Toggled(a: Session, start: StartWorld, stop: StopWorld): (Session, HotkeyResult)
    requires Valid(a)
  {
    if a.recording then (Stop(a, stop).0, StoppedAs(Stop(a, stop).1))
    else (Start(a, start).0, StartedAs(Start(a, start).1))
  }

  /** The effect of a press or release decision of the recording hotkey. */
  function Recorded(pushToTalk: bool, pressed: bool, a: Session, start: StartWorld, stop: StopWorld): (Session, HotkeyResult)
    requires Valid(a)
  {
    if !pushToTalk then
      if !pressed then (a, Done) else Toggled(a, start, stop)
    else if pressed then (Start(a, start).0, StartedAs(Start(a, start).1))
    else
      var result := StoppedAs(Stop(a, stop).1);
      (Stop(a, stop).0, if result == StopError(NoRecordingInProgress) then Done else result)
  }

  method ToggleRecording(audio: AudioService, start: StartWorld, stop: StopWorld) returns (result: HotkeyResult)
    requires Valid(audio.State())
    modifies audio
    ensures (audio.State(), result) == Toggled(old(audio.State()), start, stop) && Valid(audio.State())
  {
    if audio.isRecording {
      var stopped := audio.StopAndPrepareTranscription(stop);
      return StoppedAs(stopped);
    }
    var started := audio.HandleStartRecording(start);
    return StartedAs(started);
  }

  method RecordingHotkey(audio: AudioService, pushToTalk: bool, pressed: bool, start: StartWorld, stop: StopWorld)
      returns (result: HotkeyResult)
    requires Valid(audio.State())
    modifies audio
    ensures (audio.State(), result) == Recorded(pushToTalk, pressed, old(audio.State()), start, stop) && Valid(audio.State())
    ensures pushToTalk && !pressed ==> !audio.isRecording
  {
    if !pushToTalk {
      if !pressed {
        return Done;
      }
      result := ToggleRecording(audio, start, stop);
      return;
    }
    if pressed {
      var started := audio.HandleStartRecording(start);
      return StartedAs(started);
    }
    var stopped := audio.StopAndPrepareTranscription(stop);
    if stopped != NoRecordingInProgress {
      return StoppedAs(stopped);
    }
    return Done;
  }

  // ----- Runs of one listener in push-to-talk mode

  datatype System = System(matcher: Matcher, audio: Session)

  /** A key event with the outcomes of the recorder calls it leads to, or a call from another surface,
      which may stop, clear or shut down but not start. */
  datatype Step =
    | Key(ev: Event, start: StartWorld, stop: StopWorld)
    | StopElsewhere(stop: StopWorld)
    | ClearElsewhere
    | ShutdownElsewhere

  function After(r: Reader, combo: string, s: System, step: Step): System
    requires Valid(s.audio)
  {
    match step
    case Key(ev, start, stop) =>
      System(Deliver(r, s.matcher, ev),
             if combo in Fired(r, s.matcher, ev) then Recorded(true, ev.value == 1, s.audio, start, stop).0 else s.audio)
    case StopElsewhere(stop) => s.(audio := Stop(s.audio, stop).0)
    case ClearElsewhere => s.(audio := Clear(s.audio))
    case ShutdownElsewhere => s.(audio := EndSession(s.audio))
  }

  predicate RecordsOnlyWhileHeld(combo: string, s: System) {
    && Valid(s.audio) && combo in s.matcher.combos
    && (s.audio.recording ==> Down(s.matcher.held, combo))
  }

  lemma StepKeepsHeld(r: Reader, combo: string, s: System, step: Step)
    requires RecordsOnlyWhileHeld(combo, s)
    ensures RecordsOnlyWhileHeld(combo, After(r, combo, s, step))
  {
    match step
    case Key(ev, start, stop) =>
      DeliverOne(r, s.matcher, ev, combo);
      StartKeepsValid(s.audio, start);
      StopKeepsValid(s.audio, stop);
    case StopElsewhere(stop) => StopKeepsValid(s.audio, stop);
    case ClearElsewhere => ClearKeepsValid(s.audio);
    case ShutdownElsewhere => ShutdownKeepsValid(s.audio);
  }

  /** After every event of every run, a recording under way implies that the recording hotkey is held, whatever
      starts failed and whatever the modifiers did. */
  function Run(r: Reader, combo: string, s: System, steps: seq<Step>): (s': System)
    requires RecordsOnlyWhileHeld(combo, s)
    ensures RecordsOnlyWhileHeld(combo, s')
  {
    if steps == [] then s
    else
      var before := Run(r, combo, s, steps[..|steps| - 1]);
      StepKeepsHeld(r, combo, before, steps[|steps| - 1]);
      After(r, combo, before, steps[|steps| - 1])
  }

  /** Nothing records after the hotkey's key has gone up. */
  lemma KeyUpEndsRecording(r: Reader, combo: string, s: System, steps: seq<Step>, ev: Event, start: StartWorld, stop: StopWorld)
    requires RecordsOnlyWhileHeld(combo, s)
    requires r.names(ev, combo) && ev.value != 1
    ensures !After(r, combo, Run(r, combo, s, steps), Key(ev, start, stop)).audio.recording
  {
    var now := Run(r, combo, s, steps);
    DeliverOne(r, now.matcher, ev, combo);
    StopKeepsValid(now.audio, stop);
  }

  /** A press starts a recording exactly when the modifiers are pressed and the start succeeds, and a recording
      ends only by a release of the hotkey or by a call from elsewhere. */
  lemma WhatChangesRecording(r: Reader, combo: string, s: System, step: Step)
    requires RecordsOnlyWhileHeld(combo, s)
    ensures var s' := After(r, combo, s, step);
            && (!s.audio.recording && s'.audio.recording ==>
                  step.Key? && step.ev.value == 1 && combo in Fired(r, s.matcher, step.ev)
                  && Start(s.audio, step.start).1 == StartOk)
            && (s.audio.recording && !s'.audio.recording ==>
                  !step.Key? || (step.ev.value != 1 && combo in Fired(r, s.matcher, step.ev)))
            && (step.Key? && !s.audio.recording && step.ev.value == 1 && combo in Fired(r, s.matcher, step.ev) ==>
                  (s'.audio.recording <==> Start(s.audio, step.start).1 == StartOk))
  {
    if step.Key? {
      StartKeepsValid(s.audio, step.start);
      StopKeepsValid(s.audio, step.stop);
    }
  }

  // ----- What the hotkey reports

  /** A press in push-to-talk mode reports what the start did; a release reports nothing wrong but a recording without a file. */
  lemma PushToTalkReports(pressed: bool, a: Session, start: StartWorld, stop: StopWorld)
    requires Valid(a)
    ensures var r := Recorded(true, pressed, a, start, stop).1;
            if pressed then (r == Done <==> Start(a, start).1 == StartOk) && (r != Done ==> r == StartError(Start(a, start).1))
            else (r != Done <==> a.recording && stop.captured == File("")) && (r != Done ==> r == StopError(NoAudioFile))
  {
    StopAnswers(a, stop, if stop.captured.File? then stop.captured.path else "");
  }

  /** A press in toggle mode reports what its start did, or of a stop nothing wrong but a recording without a file. */
  lemma ToggleReports(a: Session, start: StartWorld, stop: StopWorld)
    requires Valid(a)
    ensures var r := Recorded(false, true, a, start, stop).1;
            if !a.recording then (r == Done <==> Start(a, start).1 == StartOk) && (r != Done ==> r == StartError(Start(a, start).1))
            else (r != Done <==> stop.captured == File("")) && (r != Done ==> r == StopError(NoAudioFile))
  {
    StopAnswers(a, stop, if stop.captured.File? then stop.captured.path else "");
  }

  // ----- Toggle mode

  /** In toggle mode a release does nothing, and a press ends an open session or else starts one. */
  lemma PressToggles(a: Session, start: StartWorld, stop: StopWorld)
    requires Valid(a)
    ensures Recorded(false, false, a, start, stop) == (a, Done)
    ensures var b := Recorded(false, true, a, start, stop).0;
            && Valid(b)
            && (b.recording <==> !a.recording && Start(a, start).1 == StartOk)
            && Takes(b.history) == Takes(a.history) + (if a.recording then 1 else 0)
  {
    StartKeepsValid(a, start);
    StopKeepsValid(a, stop);
    if !a.recording {
      StartTakesNothing(a, start);
    }
  }

  lemma StartTakesNothing(a: Session, start: StartWorld)
    requires Valid(a)
    ensures Takes(Start(a, start).0.history) == Takes(a.history)
  {
    var b := EnsureRecorder(a, start.made);
    if b.Some? {
      Snoc(a.history, Started(Starts(a.history), b.value.recorder.value));
    }
  }

  /** A key event in toggle mode, with the outcomes of the recorder calls it leads to. */
  datatype KeyStep = KeyStep(ev: Event, start: StartWorld, stop: StopWorld)

  function Toggling(r: Reader, combo: string, s: System, steps: seq<KeyStep>): (s': System)
    requires Valid(s.audio)
    ensures Valid(s'.audio)
  {
    if steps == [] then s
    else
      var before, step := Toggling(r, combo, s, steps[..|steps| - 1]), steps[|steps| - 1];
      PressToggles(before.audio, step.start, step.stop);
      Toggle(r, combo, before, step)
  }

  function Toggle(r: Reader, combo: string, s: System, step: KeyStep): System
    requires Valid(s.audio)
  {
    System(Deliver(r, s.matcher, step.ev),
           if combo in Fired(r, s.matcher, step.ev)
           then Recorded(false, step.ev.value == 1, s.audio, step.start, step.stop).0 else s.audio)
  }

  lemma ToggleFlips(r: Reader, combo: string, s: System, step: KeyStep)
    requires Valid(s.audio) && CanStart(step.start)
    ensures Toggle(r, combo, s, step).audio.recording ==
            (s.audio.recording != (combo in Fired(r, s.matcher, step.ev) && step.ev.value == 1))
  {
    PressToggles(s.audio, step.start, step.stop);
    StartAnswers(s.audio, step.start);
  }

  lemma DecisionsGrow(r: Reader, m: Matcher, evs: seq<Event>, combo: string)
    requires evs != []
    ensures var init, last := evs[..|evs| - 1], evs[|evs| - 1];
            && MatcherAfter(r, m, evs) == Deliver(r, MatcherAfter(r, m, init), last)
            && Odd(Decisions(r, m, evs, combo)) ==
               (Odd(Decisions(r, m, init, combo)) != (combo in Fired(r, MatcherAfter(r, m, init), last) && last.value == 1))
  {
    var init, last := evs[..|evs| - 1], evs[|evs| - 1];
    OddSnoc(Decisions(r, m, init, combo), last.value == 1);
  }

  function Events(steps: seq<KeyStep>): (evs: seq<Event>)
    ensures |evs| == |steps| && forall i :: 0 <= i < |steps| ==> evs[i] == steps[i].ev
  {
    seq(|steps|, i requires 0 <= i < |steps| => steps[i].ev)
  }

  predicate CanStart(start: StartWorld) {
    start.modelOk && start.made.Some? && start.startOk
  }

  function Presses(decisions: seq<bool>): nat {
    if decisions == [] then 0 else Presses(decisions[..|decisions| - 1]) + if decisions[|decisions| - 1] then 1 else 0
  }

  lemma {:induction false} TogglingMatches(r: Reader, combo: string, s: System, steps: seq<KeyStep>)
    requires Valid(s.audio)
    ensures Toggling(r, combo, s, steps).matcher == MatcherAfter(r, s.matcher, Events(steps))
  {
    if steps != [] {
      TogglingMatches(r, combo, s, steps[..|steps| - 1]);
      assert Events(steps)[..|steps| - 1] == Events(steps[..|steps| - 1]);
    }
  }

  /** Whether the number of presses is odd. */
  function Odd(decisions: seq<bool>): bool {
    if decisions == [] then false else Odd(decisions[..|decisions| - 1]) != decisions[|decisions| - 1]
  }

  lemma OddSnoc(decisions: seq<bool>, pressed: bool)
    ensures Odd(decisions + [pressed]) == (Odd(decisions) != pressed)
    ensures Odd(decisions + []) == Odd(decisions)
  {
    assert (decisions + [pressed])[..|decisions|] == decisions;
    assert decisions + [] == decisions;
  }

  lemma {:induction false} OddIsOdd(decisions: seq<bool>)
    ensures Odd(decisions) <==> Presses(decisions) % 2 == 1
  {
    if decisions != [] {
      OddIsOdd(decisions[..|decisions| - 1]);
    }
  }

  /** In toggle mode, with starts that succeed and nobody else about, a recording is under way after any stream of key events
      exactly if the number of press decisions for the recording hotkey is odd. */
  lemma RecordingIffOddPresses(r: Reader, combo: string, s: System, steps: seq<KeyStep>)
    requires Valid(s.audio) && !s.audio.recording
    requires forall i :: 0 <= i < |steps| ==> CanStart(steps[i].start)
    ensures Toggling(r, combo, s, steps).audio.recording <==> Presses(Decisions(r, s.matcher, Events(steps), combo)) % 2 == 1
  {
    RecordingIffOdd(r, combo, s, steps);
    OddIsOdd(Decisions(r, s.matcher, Events(steps), combo));
  }

  lemma {:induction false} RecordingIffOdd(r: Reader, combo: string, s: System, steps: seq<KeyStep>)
    requires Valid(s.audio) && !s.audio.recording
    requires forall i :: 0 <= i < |steps| ==> CanStart(steps[i].start)
    ensures Toggling(r, combo, s, steps).audio.recording == Odd(Decisions(r, s.matcher, Events(steps), combo))
  {
    if steps != [] {
      var init, step, evs := steps[..|steps| - 1], steps[|steps| - 1], Events(steps);
      assert forall i :: 0 <= i < |init| ==> init[i] == steps[i];
      RecordingIffOdd(r, combo, s, init);
      assert evs[..|evs| - 1] == Events(init);
      TogglingMatches(r, combo, s, init);
      ToggleFlips(r, combo, Toggling(r, combo, s, init), step);
      DecisionsGrow(r, s.matcher, evs, combo);
    }
  }
}
