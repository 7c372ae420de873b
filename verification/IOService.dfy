/** The transcription rendezvous of internal/services/io_service.go, under any number of concurrent callers. */
module IOService {
  import opened Optional

  type Tid = nat
  type Channel = nat

  /** A text together with the session it was transcribed in. Sessions are numbered like their channels. */
  datatype Transcript = Transcript(session: Channel, text: string)

  /** Where a transcriber or a waiter stands. A transcriber begins a session and completes what was recorded for it;
      a waiter that finds no session in progress is answered with nothing. */
  datatype Pc =
    | Transcribing(session: Channel)
    | Sending(ch: Channel, result: Transcript)
    | Finished
    | Waiting(ch: Channel)
    | Expired
    | TimedOut
    | Answered(answer: Option<Transcript>)

  /** Channels are numbered as they are made; `sent` and `received` list what went into and out of each one,
      and `dropped` counts sends that found the buffer full. */
  datatype State = State(
    inProgress: bool, current: Option<Channel>, made: nat,
    sent: map<Channel, seq<Transcript>>, received: map<Channel, seq<Transcript>>, dropped: nat, threads: map<Tid, Pc>)

  datatype Step =
    | Begin(t: Tid)
    | Complete(t: Tid, text: string)
    | Send(t: Tid)
    | Wait(t: Tid)
    | Receive(t: Tid)
    | Timeout(t: Tid)
    | CleanUp(t: Tid)

  const INIT := State(false, None, 0, map[], map[], 0, map[])

  function At<T>(m: map<Channel, seq<T>>, ch: Channel): seq<T> {
    if ch in m then m[ch] else []
  }

  /** What a channel of capacity one holds. */
  function Buffer(s: State, ch: Channel): seq<Transcript> {
    var out := |At(s.received, ch)|;
    if out <= |At(s.sent, ch)| then At(s.sent, ch)[out..] else []
  }

  predicate Enabled(s: State, step: Step) {
    match step
    case Begin(t) => t !in s.threads
    case Complete(t, _) => t in s.threads && s.threads[t].Transcribing?
    case Send(t) => t in s.threads && s.threads[t].Sending?
    case Wait(t) => t !in s.threads
    case Receive(t) => t in s.threads && s.threads[t].Waiting? && Buffer(s, s.threads[t].ch) != []
    case Timeout(t) => t in s.threads && s.threads[t].Waiting?
    case CleanUp(t) => t in s.threads && s.threads[t] == Expired
  }

  function Apply(s: State, step: Step): State
    requires Enabled(s, step)
  {
    match step
    case Begin(t) =>
      s.(inProgress := true, current := Some(s.made), made := s.made + 1, threads := s.threads[t := Transcribing(s.made)])
    case Complete(t, text) =>
      var result := Transcript(s.threads[t].session, text);
      s.(inProgress := false,
         threads := s.threads[t := if s.inProgress && s.current.Some? then Sending(s.current.value, result) else Finished])
    case Send(t) =>
      var p := s.threads[t];
      var done := s.(threads := s.threads[t := Finished]);
      if Buffer(s, p.ch) == [] then done.(sent := s.sent[p.ch := At(s.sent, p.ch) + [p.result]])
      else done.(dropped := s.dropped + 1)
    case Wait(t) =>
      s.(threads := s.threads[t := if s.inProgress && s.current.Some? then Waiting(s.current.value) else Answered(None)])
    case Receive(t) =>
      var ch := s.threads[t].ch;
      var value := Buffer(s, ch)[0];
      s.(received := s.received[ch := At(s.received, ch) + [value]], threads := s.threads[t := Answered(Some(value))])
    case Timeout(t) => s.(threads := s.threads[t := Expired])
    case CleanUp(t) => s.(inProgress := false, threads := s.threads[t := TimedOut])
  }

  function Run(s: State, steps: seq<Step>): Option<State> {
    if steps == [] then Some(s)
    else
      var before, step := Run(s, steps[..|steps| - 1]), steps[|steps| - 1];
      if before.Some? && Enabled(before.value, step) then Some(Apply(before.value, step)) else None
  }

  // ----- The object and its critical sections

  class Service {
    var transcriptionInProgress: bool
    var transcriptionResultChan: Option<Channel>
    var made: nat

    constructor ()
      ensures !transcriptionInProgress && transcriptionResultChan == None && made == 0
    {
      transcriptionInProgress, transcriptionResultChan, made := false, None, 0;
    }

    ghost predicate Agrees(s: State)
      reads this
    {
      transcriptionInProgress == s.inProgress && transcriptionResultChan == s.current && made == s.made
    }

    method BeginTranscription(ghost s: State, ghost t: Tid)
      requires Agrees(s) && Enabled(s, Begin(t))
      modifies this
      ensures Agrees(Apply(s, Begin(t)))
    {
      transcriptionInProgress := true;
      transcriptionResultChan := Some(made);
      made := made + 1;
    }

    /** Returns the channel to send the result on, if any. */
    method CompleteTranscription(ghost s: State, ghost t: Tid, text: string) returns (ch: Option<Channel>)
      requires Agrees(s) && Enabled(s, Complete(t, text))
      modifies this
      ensures Agrees(Apply(s, Complete(t, text)))
      ensures Apply(s, Complete(t, text)).threads[t] ==
              if ch.Some? then Sending(ch.value, Transcript(s.threads[t].session, text)) else Finished
    {
      var inProgress := transcriptionInProgress;
      ch := transcriptionResultChan;
      transcriptionInProgress := false;
      if !inProgress {
        ch := None;
      }
    }

    /** Returns the channel to wait on, if any. */
    method WaitForTranscription(ghost s: State, ghost t: Tid) returns (ch: Option<Channel>)
      requires Agrees(s) && Enabled(s, Wait(t))
      ensures Apply(s, Wait(t)).threads[t] == if ch.Some? then Waiting(ch.value) else Answered(None)
    {
      return if transcriptionInProgress then transcriptionResultChan else None;
    }

    method CleanUpAfterTimeout(ghost s: State, ghost t: Tid)
      requires Agrees(s) && Enabled(s, CleanUp(t))
      modifies this
      ensures Agrees(Apply(s, CleanUp(t)))
    {
      transcriptionInProgress := false;
    }
  }

  // ----- Invariant

  /** What went into the channels: each got at most one result, and a session in progress got none. */
  ghost predicate ChannelInvariant(s: State) {
    && (s.inProgress ==> s.current.Some? && At(s.sent, s.current.value) == [])
    && s.current == (if s.made == 0 then None else Some(s.made - 1))
    && (forall ch: Channel :: ch >= s.made ==> At(s.sent, ch) == [])
    && (forall ch: Channel :: |At(s.sent, ch)| <= 1 && At(s.received, ch) <= At(s.sent, ch))
    && s.dropped == 0
  }

  /** No text goes to an earlier session than the one it was transcribed in. */
  ghost predicate OriginInvariant(s: State) {
    && (forall t :: t in s.threads && s.threads[t].Transcribing? ==> s.threads[t].session < s.made)
    && (forall t :: t in s.threads && s.threads[t].Sending? ==> s.threads[t].result.session <= s.threads[t].ch)
    && (forall ch: Channel, r :: r in At(s.sent, ch) ==> r.session <= ch)
  }

  predicate SendsOn(s: State, t: Tid, ch: Channel) {
    t in s.threads && s.threads[t].Sending? && s.threads[t].ch == ch
  }

  /** A pending send belongs to a session that is over, whose channel is still empty, and to nobody else's. */
  ghost predicate SenderInvariant(s: State) {
    && (forall t: Tid, ch: Channel :: SendsOn(s, t, ch) ==> ch < s.made && At(s.sent, ch) == [] && !(s.inProgress && s.current == Some(ch)))
    && (forall t: Tid, t': Tid, ch: Channel :: SendsOn(s, t, ch) && SendsOn(s, t', ch) ==> t == t')
  }

  /** Each channel gets at most one result: the session's first completion takes it out of progress. */
  ghost predicate Invariant(s: State) {
    ChannelInvariant(s) && SenderInvariant(s) && OriginInvariant(s)
  }

  lemma SendKeepsInvariant(s: State, t: Tid)
    requires Invariant(s) && Enabled(s, Send(t))
    ensures Invariant(Apply(s, Send(t)))
  {
    var s', ch := Apply(s, Send(t)), s.threads[t].ch;
    assert SendsOn(s, t, ch);
    assert At(s.received, ch) <= At(s.sent, ch);
    assert Buffer(s, ch) == [];
    assert forall c: Channel :: At(s'.sent, c) == if c == ch then [s.threads[t].result] else At(s.sent, c);
    assert forall t': Tid, c: Channel :: SendsOn(s', t', c) <==> t' != t && SendsOn(s, t', c);
  }

  lemma ReceiveKeepsInvariant(s: State, t: Tid)
    requires Invariant(s) && Enabled(s, Receive(t))
    ensures Invariant(Apply(s, Receive(t)))
  {
    var s', ch := Apply(s, Receive(t)), s.threads[t].ch;
    assert |At(s.sent, ch)| <= 1 && At(s.received, ch) <= At(s.sent, ch);
    assert At(s.received, ch) == [];
    assert forall c: Channel :: At(s'.received, c) == if c == ch then [At(s.sent, ch)[0]] else At(s.received, c);
    assert forall t': Tid, c: Channel :: SendsOn(s', t', c) <==> SendsOn(s, t', c);
  }

  lemma StepKeepsInvariant(s: State, step: Step)
    requires Invariant(s) && Enabled(s, step)
    ensures Invariant(Apply(s, step))
  {
    match step
    case Send(t) => SendKeepsInvariant(s, t);
    case Receive(t) => ReceiveKeepsInvariant(s, t);
    case Complete(t, _) =>
      var s' := Apply(s, step);
      assert forall t': Tid, c: Channel :: SendsOn(s', t', c) <==>
                             if t' == t then s.inProgress && s.current == Some(c) else SendsOn(s, t', c);
    case _ =>
      var s' := Apply(s, step);
      assert forall t': Tid, c: Channel :: SendsOn(s', t', c) <==> SendsOn(s, t', c);
  }

  lemma {:induction false} RunKeepsInvariant(steps: seq<Step>)
    requires Run(INIT, steps).Some?
    ensures Invariant(Run(INIT, steps).value)
  {
    if steps != [] {
      RunKeepsInvariant(steps[..|steps| - 1]);
      StepKeepsInvariant(Run(INIT, steps[..|steps| - 1]).value, steps[|steps| - 1]);
    }
  }

  // ----- Main results

  /** In every reachable state every session's channel has got at most one result, no send was dropped, and the next
      send of any completion will find its buffer empty. */
  lemma NoResultDropped(steps: seq<Step>)
    requires Run(INIT, steps).Some?
    ensures var s := Run(INIT, steps).value;
            && s.dropped == 0
            && (forall ch: Channel :: |At(s.sent, ch)| <= 1)
            && (forall t :: t in s.threads && s.threads[t].Sending? ==> Buffer(s, s.threads[t].ch) == [])
  {
    RunKeepsInvariant(steps);
    var s := Run(INIT, steps).value;
    forall t | t in s.threads && s.threads[t].Sending? ensures Buffer(s, s.threads[t].ch) == [] {
      var ch := s.threads[t].ch;
      assert SendsOn(s, t, ch);
      assert At(s.received, ch) <= At(s.sent, ch);
    }
  }

  /** At most one waiter is answered from a session's channel, with what was sent into it, which is the text of that
      session or of an earlier one. */
  lemma ReceivedOnce(steps: seq<Step>, ch: Channel)
    requires Run(INIT, steps).Some?
    ensures var s := Run(INIT, steps).value;
            && |At(s.received, ch)| <= 1 && At(s.received, ch) <= At(s.sent, ch)
            && forall r :: r in At(s.received, ch) ==> r.session <= ch
  {
    RunKeepsInvariant(steps);
  }

  // ----- Where a result goes

  function Begins(steps: seq<Step>): nat {
    if steps == [] then 0 else Begins(steps[..|steps| - 1]) + if steps[|steps| - 1].Begin? then 1 else 0
  }

  /** Whether the session begun last, before the steps or among them, is still in progress after them. */
  predicate StaysOpen(steps: seq<Step>) {
    if steps == [] then true
    else
      var last := steps[|steps| - 1];
      last.Begin? || (!last.Complete? && !last.CleanUp? && StaysOpen(steps[..|steps| - 1]))
  }

  /** Nobody begins, completes or cleans up. */
  predicate Undisturbed(steps: seq<Step>) {
    forall i :: 0 <= i < |steps| ==> !steps[i].Begin? && !steps[i].Complete? && !steps[i].CleanUp?
  }

  /** What is known after `begins` further sessions have begun, of which the last is in progress if `open`, about the
      transcriber `t` of session `own`. */
  predicate Follows(s: State, t: Tid, own: Channel, begins: nat, open: bool) {
    && s.made == own + 1 + begins && s.current == Some(own + begins) && s.inProgress == open
    && t in s.threads && (s.threads[t].Transcribing? ==> s.threads[t].session == own)
  }

  lemma StepFollows(s: State, t: Tid, own: Channel, begins: nat, open: bool, step: Step)
    requires Follows(s, t, own, begins, open) && Enabled(s, step)
    ensures Follows(Apply(s, step), t, own, begins + if step.Begin? then 1 else 0,
                    step.Begin? || (!step.Complete? && !step.CleanUp? && open))
  {
  }

  lemma {:induction false} AfterBegin(s: State, t: Tid, steps: seq<Step>)
    requires Enabled(s, Begin(t)) && Run(Apply(s, Begin(t)), steps).Some?
    ensures Follows(Run(Apply(s, Begin(t)), steps).value, t, s.made, Begins(steps), StaysOpen(steps))
  {
    if steps != [] {
      var init := steps[..|steps| - 1];
      AfterBegin(s, t, init);
      StepFollows(Run(Apply(s, Begin(t)), init).value, t, s.made, Begins(init), StaysOpen(init), steps[|steps| - 1]);
    }
  }

  lemma {:induction false} UndisturbedIsOwn(steps: seq<Step>)
    ensures Undisturbed(steps) <==> Begins(steps) == 0 && StaysOpen(steps)
  {
    if steps != [] {
      var init := steps[..|steps| - 1];
      UndisturbedIsOwn(init);
      assert forall i :: 0 <= i < |init| ==> init[i] == steps[i];
    }
  }

  /** Whatever others do meanwhile: a session's text is sent into the channel of the session begun last, if that one is
      still in progress, and is lost otherwise. */
  lemma WhereResultGoes(s: State, t: Tid, steps: seq<Step>, text: string)
    requires Enabled(s, Begin(t)) && Run(Apply(s, Begin(t)), steps).Some?
    requires Enabled(Run(Apply(s, Begin(t)), steps).value, Complete(t, text))
    ensures Apply(Run(Apply(s, Begin(t)), steps).value, Complete(t, text)).threads[t] ==
            if StaysOpen(steps) then Sending(s.made + Begins(steps), Transcript(s.made, text)) else Finished
  {
    AfterBegin(s, t, steps);
  }

  /** A session's text goes into its own channel exactly when since its beginning nobody has begun another session, nobody
      has completed one and nobody, not even a waiter of an earlier one, has cleaned up after a timeout. */
  lemma OwnResultUnlessDisturbed(s: State, t: Tid, steps: seq<Step>, text: string)
    requires Enabled(s, Begin(t)) && Run(Apply(s, Begin(t)), steps).Some?
    requires Enabled(Run(Apply(s, Begin(t)), steps).value, Complete(t, text))
    ensures Apply(Run(Apply(s, Begin(t)), steps).value, Complete(t, text)).threads[t] == Sending(s.made, Transcript(s.made, text))
            <==> Undisturbed(steps)
  {
    WhereResultGoes(s, t, steps, text);
    UndisturbedIsOwn(steps);
  }

  /** Whom a waiter waits for: the session begun last, if it is still in progress; otherwise it is answered with nothing. */
  lemma WhomToWaitFor(s: State, t: Tid, steps: seq<Step>, waiter: Tid)
    requires Enabled(s, Begin(t)) && Run(Apply(s, Begin(t)), steps).Some?
    requires Enabled(Run(Apply(s, Begin(t)), steps).value, Wait(waiter))
    ensures Apply(Run(Apply(s, Begin(t)), steps).value, Wait(waiter)).threads[waiter] ==
            if StaysOpen(steps) then Waiting(s.made + Begins(steps)) else Answered(None)
  {
    AfterBegin(s, t, steps);
  }

  /** Before any session has begun a waiter is answered with nothing. */
  lemma {:induction false} NothingToWaitFor(steps: seq<Step>, waiter: Tid)
    requires Run(INIT, steps).Some? && Begins(steps) == 0
    requires Enabled(Run(INIT, steps).value, Wait(waiter))
    ensures Apply(Run(INIT, steps).value, Wait(waiter)).threads[waiter] == Answered(None)
  {
    NothingBegun(steps);
  }

  lemma {:induction false} NothingBegun(steps: seq<Step>)
    requires Run(INIT, steps).Some? && Begins(steps) == 0
    ensures !Run(INIT, steps).value.inProgress
  {
    if steps != [] {
      NothingBegun(steps[..|steps| - 1]);
    }
  }

  /** In every reachable state a waiter that receives is answered with the one text that was sent into its channel. */
  lemma AnsweredWithWhatWasSent(steps: seq<Step>, t: Tid)
    requires Run(INIT, steps).Some? && Enabled(Run(INIT, steps).value, Receive(t))
    ensures var s := Run(INIT, steps).value;
            var ch := s.threads[t].ch;
            && |At(s.sent, ch)| == 1
            && Apply(s, Receive(t)).threads[t] == Answered(Some(At(s.sent, ch)[0]))
            && At(Apply(s, Receive(t)).received, ch) == At(s.sent, ch)
  {
    RunKeepsInvariant(steps);
    var s := Run(INIT, steps).value;
    var ch := s.threads[t].ch;
    assert |At(s.sent, ch)| <= 1 && At(s.received, ch) <= At(s.sent, ch);
    assert At(s.received, ch) == [];
  }

  // ----- Two runs

  const STALE := [Begin(1), Wait(2), Begin(3), Timeout(2), CleanUp(2), Complete(3, "text")]

  const OVERLAPPING := [Begin(1), Begin(2), Wait(3), Complete(1, "first"), Send(1), Receive(3), Complete(2, "second")]

  lemma Then(steps: seq<Step>, n: nat, s: State, s': State)
    requires n < |steps| && Run(INIT, steps[..n]) == Some(s) && Enabled(s, steps[n]) && s' == Apply(s, steps[n])
    ensures Run(INIT, steps[..n + 1]) == Some(s')
  {
    assert steps[..n + 1][..n] == steps[..n];
  }

  lemma StaleWaiting()
    ensures Run(INIT, STALE[..3]) ==
            Some(State(true, Some(1), 2, map[], map[], 0, map[1 := Transcribing(0), 2 := Waiting(0), 3 := Transcribing(1)]))
  {
    assert STALE[..0] == [];
    var s1 := State(true, Some(0), 1, map[], map[], 0, map[1 := Transcribing(0)]);
    Then(STALE, 0, INIT, s1);
    var s2 := s1.(threads := map[1 := Transcribing(0), 2 := Waiting(0)]);
    Then(STALE, 1, s1, s2);
    Then(STALE, 2, s2, State(true, Some(1), 2, map[], map[], 0, map[1 := Transcribing(0), 2 := Waiting(0), 3 := Transcribing(1)]));
  }

  /** A run on which a waiter of the first session makes the second session's result disappear. */
  lemma StaleTimeoutLosesResult()
    ensures Run(INIT, STALE) ==
            Some(State(false, Some(1), 2, map[], map[], 0, map[1 := Transcribing(0), 2 := TimedOut, 3 := Finished]))
  {
    assert STALE[..6] == STALE;
    StaleWaiting();
    var s3 := State(true, Some(1), 2, map[], map[], 0, map[1 := Transcribing(0), 2 := Waiting(0), 3 := Transcribing(1)]);
    var s4 := s3.(threads := map[1 := Transcribing(0), 2 := Expired, 3 := Transcribing(1)]);
    Then(STALE, 3, s3, s4);
    var s5 := s4.(inProgress := false, threads := map[1 := Transcribing(0), 2 := TimedOut, 3 := Transcribing(1)]);
    Then(STALE, 4, s4, s5);
    Then(STALE, 5, s5, s5.(threads := map[1 := Transcribing(0), 2 := TimedOut, 3 := Finished]));
  }

  lemma OverlappingSent()
    ensures Run(INIT, OVERLAPPING[..4]) == Some(State(false, Some(1), 2, map[], map[], 0,
              map[1 := Sending(1, Transcript(0, "first")), 2 := Transcribing(1), 3 := Waiting(1)]))
  {
    assert OVERLAPPING[..0] == [];
    var s1 := State(true, Some(0), 1, map[], map[], 0, map[1 := Transcribing(0)]);
    Then(OVERLAPPING, 0, INIT, s1);
    var s2 := State(true, Some(1), 2, map[], map[], 0, map[1 := Transcribing(0), 2 := Transcribing(1)]);
    Then(OVERLAPPING, 1, s1, s2);
    var s3 := s2.(threads := map[1 := Transcribing(0), 2 := Transcribing(1), 3 := Waiting(1)]);
    Then(OVERLAPPING, 2, s2, s3);
    var s4 := s3.(inProgress := false,
                  threads := map[1 := Sending(1, Transcript(0, "first")), 2 := Transcribing(1), 3 := Waiting(1)]);
    Then(OVERLAPPING, 3, s3, s4);
  }

  lemma OverlappingTaken()
    ensures Run(INIT, OVERLAPPING[..5]) == Some(State(false, Some(1), 2, map[1 := [Transcript(0, "first")]], map[], 0,
              map[1 := Finished, 2 := Transcribing(1), 3 := Waiting(1)]))
  {
    OverlappingSent();
    var first := Transcript(0, "first");
    var s := State(false, Some(1), 2, map[], map[], 0, map[1 := Sending(1, first), 2 := Transcribing(1), 3 := Waiting(1)]);
    assert Buffer(s, 1) == [] && At(s.sent, 1) + [first] == [first];
    var s' := Apply(s, Send(1));
    assert s'.sent == map[1 := [first]] && s'.threads == map[1 := Finished, 2 := Transcribing(1), 3 := Waiting(1)];
    Then(OVERLAPPING, 4, s, s');
  }

  /** A run without any timeout on which the second session's waiter is answered with the first session's text, and the
      second session's own text is lost. */
  lemma OverlappingSessionsMisdeliver()
    ensures var first := Transcript(0, "first");
            Run(INIT, OVERLAPPING) == Some(State(false, Some(1), 2, map[1 := [first]], map[1 := [first]], 0,
              map[1 := Finished, 2 := Finished, 3 := Answered(Some(first))]))
  {
    assert OVERLAPPING[..7] == OVERLAPPING;
    OverlappingTaken();
    var first := Transcript(0, "first");
    var s := State(false, Some(1), 2, map[1 := [first]], map[], 0, map[1 := Finished, 2 := Transcribing(1), 3 := Waiting(1)]);
    assert Buffer(s, 1) == [first] && At(s.received, 1) + [first] == [first];
    var s' := Apply(s, Receive(3));
    assert s'.received == map[1 := [first]];
    assert s'.threads == map[1 := Finished, 2 := Transcribing(1), 3 := Answered(Some(first))];
    Then(OVERLAPPING, 5, s, s');
    Then(OVERLAPPING, 6, s', s'.(threads := map[1 := Finished, 2 := Finished, 3 := Answered(Some(first))]));
  }
}
