/** The recording session of internal/services/audio_service.go: everything that its lock `mu` guards. */
module AudioSession {
  import opened Optional

  /** The identity of a recorder instance. */
  type Recorder = nat

  /** What happened to recorders, for the record: a session is numbered by the recordings started before it. */
  datatype Happening =
    | Started(session: nat, recorder: Recorder)
    | Taken(session: nat, recorder: Recorder)
    | Cleaned(recorder: Recorder)

  datatype Session = Session(
    recording: bool, recorder: Option<Recorder>, needsReinit: bool, lastTranscript: string, history: seq<Happening>)

  /** The environment of a start: is a model available, which recorder the factory makes, does recording start. */
  datatype StartWorld = StartWorld(modelOk: bool, made: Option<Recorder>, startOk: bool)

  datatype StartResult = StartOk | ModelUnavailable | RecorderUnavailable | StartFailed

  /** What the recorder's StopRecording returns. */
  datatype Captured = TooShort | CaptureError | File(path: string)

  datatype StopWorld = StopWorld(captured: Captured, ffmpeg: bool)

  datatype StopResult = NoRecordingInProgress | Discarded | StopFailed | NoAudioFile | Audio(path: string)

  // ----- Specification of the locked sections

  function Starts(h: seq<Happening>): nat {
    if h == [] then 0 else Starts(h[..|h| - 1]) + if h[|h| - 1].Started? then 1 else 0
  }

  function Takes(h: seq<Happening>): nat {
    if h == [] then 0 else Takes(h[..|h| - 1]) + if h[|h| - 1].Taken? then 1 else 0
  }

  function EnsureRecorder(a: Session, made: Option<Recorder>): Option<Session> {
    if a.needsReinit || a.recorder == None then
      if made == None then None else Some(a.(recorder := made, needsReinit := false))
    else Some(a)
  }

  function Start(a: Session, w: StartWorld): (Session, StartResult) {
    if a.recording then (a, StartOk)
    else if !w.modelOk then (a, ModelUnavailable)
    else
      var b := EnsureRecorder(a, w.made);
      if b == None then (a, RecorderUnavailable)
      else if !w.startOk then (b.value, StartFailed)
      else
        (b.value.(recording := true, history := a.history + [Started(Starts(a.history), b.value.recorder.value)]), StartOk)
  }

  /** Ends the session; the recorder has handed over its file. */
  function Take(a: Session): Session
    requires a.recorder.Some?
  {
    a.(recording := false, history := a.history + [Taken(Takes(a.history), a.recorder.value)])
  }

  function Clear(a: Session): Session {
    var cleaned := if a.recorder.Some? && !a.recording then [Cleaned(a.recorder.value)] else [];
    a.(needsReinit := true, lastTranscript := "", history := a.history + cleaned)
  }

  function Stop(a: Session, w: StopWorld): (Session, StopResult)
    requires Valid(a)
  {
    if !a.recording then (a, NoRecordingInProgress)
    else
      var b := Take(a);
      match w.captured
      case TooShort => (b.(history := b.history + [Cleaned(a.recorder.value)]), Discarded)
      case CaptureError => (if w.ffmpeg then Clear(b) else b, StopFailed)
      case File(path) => (b, if path == "" then NoAudioFile else Audio(path))
  }

  function EndSession(a: Session): Session {
    if a.recording && a.recorder.Some? then Take(a) else a
  }

  // ----- Proper histories

  /** The session that a history leaves open, with its recorder. */
  function OpenSession(h: seq<Happening>): Option<(nat, Recorder)> {
    if h == [] then None
    else
      match h[|h| - 1]
      case Started(session, recorder) => Some((session, recorder))
      case Taken(_, _) => None
      case Cleaned(_) => OpenSession(h[..|h| - 1])
  }

  /** Sessions are started one at a time, taken from the recorder that started them, and nothing is cleaned up
      while one is open. */
  predicate Proper(h: seq<Happening>) {
    if h == [] then true
    else
      var init := h[..|h| - 1];
      && Proper(init)
      && match h[|h| - 1]
         case Started(session, _) => OpenSession(init) == None && session == Starts(init)
         case Taken(session, recorder) => OpenSession(init) == Some((session, recorder))
         case Cleaned(_) => OpenSession(init) == None
  }

  predicate Valid(a: Session) {
    && Proper(a.history)
    && (a.recording ==> a.recorder.Some?)
    && OpenSession(a.history) == if a.recording then Some((Takes(a.history), a.recorder.value)) else None
  }

  lemma Snoc(h: seq<Happening>, e: Happening)
    ensures (h + [e])[..|h|] == h
    ensures Starts(h + [e]) == Starts(h) + if e.Started? then 1 else 0
    ensures Takes(h + [e]) == Takes(h) + if e.Taken? then 1 else 0
    ensures OpenSession(h + [e]) ==
            match e { case Started(n, r) => Some((n, r)) case Taken(_, _) => None case Cleaned(_) => OpenSession(h) }
  {
    assert (h + [e])[..|h|] == h;
  }

  /** Real starts minus sessions taken is one while a session is open and zero otherwise. */
  lemma {:induction false} Conservation(h: seq<Happening>)
    requires Proper(h)
    ensures Starts(h) == Takes(h) + if OpenSession(h).Some? then 1 else 0
    ensures OpenSession(h).Some? ==> OpenSession(h).value.0 == Takes(h)
  {
    if h != [] {
      Conservation(h[..|h| - 1]);
    }
  }

  // ----- Each section keeps the session valid

  lemma TakeKeepsValid(a: Session)
    requires Valid(a) && a.recording
    ensures Valid(Take(a))
  {
    Snoc(a.history, Taken(Takes(a.history), a.recorder.value));
  }

  lemma ClearKeepsValid(a: Session)
    requires Valid(a)
    ensures Valid(Clear(a))
  {
    if a.recorder.Some? && !a.recording {
      Snoc(a.history, Cleaned(a.recorder.value));
    } else {
      assert a.history + [] == a.history;
    }
  }

  lemma StartKeepsValid(a: Session, w: StartWorld)
    requires Valid(a)
    ensures Valid(Start(a, w).0)
    ensures Start(a, w).0.recording <==> Start(a, w).1 == StartOk
  {
    Conservation(a.history);
    var b := EnsureRecorder(a, w.made);
    if b.Some? {
      Snoc(a.history, Started(Starts(a.history), b.value.recorder.value));
    }
  }

  lemma StopKeepsValid(a: Session, w: StopWorld)
    requires Valid(a)
    ensures Valid(Stop(a, w).0)
    ensures !Stop(a, w).0.recording
    ensures Stop(a, w).1 == NoRecordingInProgress <==> !a.recording
    ensures Takes(Stop(a, w).0.history) == Takes(a.history) + if a.recording then 1 else 0
  {
    if a.recording {
      TakeKeepsValid(a);
      var b := Take(a);
      Snoc(a.history, Taken(Takes(a.history), a.recorder.value));
      Snoc(b.history, Cleaned(a.recorder.value));
      ClearKeepsValid(b);
    }
  }

  lemma ShutdownKeepsValid(a: Session)
    requires Valid(a)
    ensures Valid(EndSession(a)) && !EndSession(a).recording
  {
    if a.recording {
      TakeKeepsValid(a);
    }
  }

  // ----- What starts and stops answer and leave behind

  /** A start reports success exactly if a session is open already, or a model is there, a recorder is at hand or can be made,
      and it starts; otherwise the first thing missing. */
  lemma StartAnswers(a: Session, w: StartWorld)
    ensures var r, atHand := Start(a, w).1, w.made.Some? || (a.recorder.Some? && !a.needsReinit);
            && (r == StartOk <==> a.recording || (w.modelOk && atHand && w.startOk))
            && (r == ModelUnavailable <==> !a.recording && !w.modelOk)
            && (r == RecorderUnavailable <==> !a.recording && w.modelOk && !atHand)
            && (r == StartFailed <==> !a.recording && w.modelOk && atHand && !w.startOk)
  {
  }

  /** A stop hands over its file exactly if a session was open and the recorder gave a file with a name. */
  lemma StopAnswers(a: Session, w: StopWorld, path: string)
    requires Valid(a)
    ensures var r := Stop(a, w).1;
            && (r == Audio(path) <==> a.recording && w.captured == File(path) && path != "")
            && (r == NoAudioFile <==> a.recording && w.captured == File(""))
            && (r == Discarded <==> a.recording && w.captured == TooShort)
            && (r == StopFailed <==> a.recording && w.captured == CaptureError)
            && (r == NoRecordingInProgress <==> !a.recording)
  {
  }

  /** Whether a stop leads to the fallback from ffmpeg to arecord. */
  predicate FallsBack(a: Session, w: StopWorld) {
    a.recording && w.captured == CaptureError && w.ffmpeg
  }

  /** A stop keeps the recorder in place. A session that was too short and a capture error of ffmpeg have the file cleaned up;
      the latter also marks the recorder for re-creation and forgets the last transcript. */
  lemma StopLeaves(a: Session, w: StopWorld)
    requires Valid(a)
    ensures var b := Stop(a, w).0;
            && b.recorder == a.recorder
            && (b.needsReinit <==> a.needsReinit || FallsBack(a, w))
            && b.lastTranscript == (if FallsBack(a, w) then "" else a.lastTranscript)
            && b.history == a.history
                 + (if a.recording then [Taken(Takes(a.history), a.recorder.value)] else [])
                 + (if a.recording && (w.captured == TooShort || FallsBack(a, w)) then [Cleaned(a.recorder.value)] else [])
  {
    assert a.history + [] + [] == a.history;
  }

  /** Clearing forgets the transcript and cleans up exactly if no session is open. */
  lemma ClearLeaves(a: Session)
    ensures var b := Clear(a);
            && b.recording == a.recording && b.recorder == a.recorder && b.lastTranscript == ""
            && b.history == a.history + if a.recording || a.recorder == None then [] else [Cleaned(a.recorder.value)]
  {
  }

  /** A start that follows a clearing, be it in the middle of a session, or a fallback from ffmpeg, records on a recorder
      that was made for it. */
  lemma StartAfterClear(a: Session, stop: StopWorld, w: StartWorld)
    requires Valid(a)
    ensures Valid(Clear(a)) &&
            var b := Stop(Clear(a), stop).0;
            Start(b, w).1 == StartOk ==> Start(b, w).0.recorder == w.made && w.made.Some?
    ensures var b := Stop(a, stop).0;
            FallsBack(a, stop) && Start(b, w).1 == StartOk ==> Start(b, w).0.recorder == w.made && w.made.Some?
  {
    ClearKeepsValid(a);
    StopLeaves(Clear(a), stop);
    StopLeaves(a, stop);
    StopKeepsValid(Clear(a), stop);
    StopKeepsValid(a, stop);
  }

  /** Without either of these the recorder in place goes on being used, whatever the factory would make. */
  lemma StartAgain(a: Session, stop: StopWorld, w: StartWorld)
    requires Valid(a) && a.recording && !a.needsReinit && !FallsBack(a, stop)
    ensures var b := Stop(a, stop).0;
            && Start(b, w).0.recorder == a.recorder
            && (Start(b, w).1 == StartOk <==> w.modelOk && w.startOk)
  {
    StopLeaves(a, stop);
    StopKeepsValid(a, stop);
  }

  // ----- What a proper history means

  /** No session is taken twice. */
  lemma {:induction false} TakenOnce(h: seq<Happening>, i: nat, j: nat)
    requires Proper(h) && i < j < |h| && h[i].Taken? && h[j].Taken?
    ensures h[i].session < h[j].session
  {
    ProperPrefix(h, j);
    ProperPrefix(h, i);
    Conservation(h[..j]);
    Conservation(h[..i]);
    TakesGrow(h, i, j);
  }

  lemma {:induction false} ProperPrefix(h: seq<Happening>, k: nat)
    requires Proper(h) && k <= |h|
    ensures Proper(h[..k])
    ensures k < |h| && h[k].Taken? ==> OpenSession(h[..k]) == Some((h[k].session, h[k].recorder))
    ensures k < |h| && h[k].Started? ==> OpenSession(h[..k]) == None
    ensures k < |h| && h[k].Cleaned? ==> OpenSession(h[..k]) == None
  {
    if k == |h| {
      assert h[..k] == h;
    } else {
      var init := h[..|h| - 1];
      ProperPrefix(init, k);
      assert init[..k] == h[..k];
    }
  }

  lemma {:induction false} TakesGrow(h: seq<Happening>, i: nat, j: nat)
    requires i < j <= |h| && h[i].Taken?
    ensures Takes(h[..i]) < Takes(h[..j])
  {
    assert h[..j][..j - 1] == h[..j - 1];
    if i < j - 1 {
      TakesGrow(h, i, j - 1);
    }
  }

  /** Every session taken was started before, on the same recorder, and nothing happened to any recorder in between. */
  lemma {:induction false} TakenWasStarted(h: seq<Happening>, j: nat) returns (i: nat)
    requires Proper(h) && j < |h| && h[j].Taken?
    ensures i == j - 1 && h[i] == Started(h[j].session, h[j].recorder)
  {
    ProperPrefix(h, j);
    i := OpenIsLast(h[..j]);
  }

  lemma {:induction false} OpenIsLast(h: seq<Happening>) returns (i: nat)
    requires Proper(h) && OpenSession(h).Some?
    ensures i == |h| - 1 && h[i] == Started(OpenSession(h).value.0, OpenSession(h).value.1)
  {
    i := |h| - 1;
  }

  // ----- The service object

  class AudioService {
    var isRecording: bool
    var recorder: Option<Recorder>
    var audioRecorderNeedsReinit: bool
    var lastTranscript: string
    ghost var history: seq<Happening>

    ghost function State(): Session
      reads this
    {
      Session(isRecording, recorder, audioRecorderNeedsReinit, lastTranscript, history)
    }

    constructor (recorder: Option<Recorder>)
      ensures State() == Session(false, recorder, false, "", []) && Valid(State())
    {
      isRecording, this.recorder, audioRecorderNeedsReinit, lastTranscript := false, recorder, false, "";
      history := [];
    }

    method HandleStartRecording(w: StartWorld) returns (result: StartResult)
      requires Valid(State())
      modifies this
      ensures (State(), result) == Start(old(State()), w) && Valid(State())
      ensures isRecording <==> result == StartOk
    {
      StartKeepsValid(State(), w);
      if isRecording {
        return StartOk;
      }
      if !w.modelOk {
        return ModelUnavailable;
      }
      if audioRecorderNeedsReinit || recorder == None {
        if w.made == None {
          return RecorderUnavailable;
        }
        recorder := w.made;
        audioRecorderNeedsReinit := false;
      }
      if !w.startOk {
        return StartFailed;
      }
      history := history + [Started(Starts(history), recorder.value)];
      isRecording := true;
      return StartOk;
    }

    method StopAndPrepareTranscription(w: StopWorld) returns (result: StopResult)
      requires Valid(State())
      modifies this
      ensures (State(), result) == Stop(old(State()), w) && Valid(State()) && !isRecording
    {
      StopKeepsValid(State(), w);
      if !isRecording {
        return NoRecordingInProgress;
      }
      history := history + [Taken(Takes(history), recorder.value)];
      match w.captured
      case TooShort =>
        isRecording := false;
        history := history + [Cleaned(recorder.value)];
        return Discarded;
      case CaptureError =>
        isRecording := false;
        if w.ffmpeg {
          ClearSessionLocked();
        }
        return StopFailed;
      case File(path) =>
        isRecording := false;
        return if path == "" then NoAudioFile else Audio(path);
    }

    method ClearSessionLocked()
      modifies this
      ensures State() == Clear(old(State()))
      ensures old(Valid(State())) ==> Valid(State())
    {
      if Valid(State()) {
        ClearKeepsValid(State());
      }
      if recorder.Some? && !isRecording {
        history := history + [Cleaned(recorder.value)];
      }
      audioRecorderNeedsReinit := true;
      lastTranscript := "";
      assert old(history) + [] == old(history);
    }

    method Shutdown()
      requires Valid(State())
      modifies this
      ensures State() == EndSession(old(State())) && Valid(State()) && !isRecording
    {
      ShutdownKeepsValid(State());
      if isRecording && recorder.Some? {
        history := history + [Taken(Takes(history), recorder.value)];
        isRecording := false;
      }
    }
  }
}
