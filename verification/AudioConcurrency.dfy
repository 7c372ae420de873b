/** AudioService under any number of concurrent callers: the locks `mu` and `engineMu` of
    internal/services/audio_service.go, the recording session and the engine hot-swap. */
module AudioConcurrency {
  import opened Optional
  import opened RWLock
  import opened AudioSession
  import ModelSwitch

  type Engine = nat

  /** The sections that run under mu.Lock. */
  datatype Section =
    | StartSection
    | StopSection(sync: bool)
    | ClearSection
    | DeleteSection
    | ShutdownSection
    | SwitchCheck
    | SwitchInstall(candidate: Engine)
    | StoreTranscript

  /** Where a goroutine stands. */
  datatype Pc =
    | WantMu(section: Section)
    | AnnouncedMu(section: Section)
    | InMu(section: Section)
    | WantMuRead
    | ReadingMu
    | Loading                            // SwitchModel between its sections: resolving the file, creating the engine
    | WantEngine(candidate: Engine)      // SwitchModel with mu held
    | AnnouncedEngine(candidate: Engine)
    | InEngine(candidate: Engine)        // SwitchModel with both locks held
    | Closing(engine: Engine)            // SwitchModel after its last unlock
    | WantEngineRead
    | Transcribing(using: Option<Engine>)
    | Finished

  /** What the environment decides in one step of a goroutine. */
  datatype World = World(
    start: StartWorld, stop: StopWorld,
    proceed: bool,        // the service is not shutting down, loading worked, the transcription worked
    transcript: string)

  /** Engines are numbered as they are created; `closes` lists the Close calls. */
  datatype State = State(
    session: Session, engine: Option<Engine>, created: nat, closes: seq<Engine>,
    mu: RWMutex, engineMu: RWMutex, threads: map<Tid, Pc>)

  datatype Step = Spawn(t: Tid, pc: Pc) | Go(t: Tid, w: World)

  // What a caller can begin with
  predicate EntryPoint(pc: Pc) {
    pc == WantMuRead || (pc.WantMu? && !pc.section.SwitchInstall? && !pc.section.StoreTranscript?)
  }

  predicate CanGo(s: State, t: Tid) {
    t in s.threads
    && match s.threads[t]
       case WantMu(_) => s.mu.writer == None
       case AnnouncedMu(_) => s.mu.readers == {}
       case WantMuRead => s.mu.writer == None
       case WantEngine(_) => s.engineMu.writer == None
       case AnnouncedEngine(_) => s.engineMu.readers == {}
       case WantEngineRead => s.engineMu.writer == None
       case Finished => false
       case _ => true
  }

  predicate Enabled(s: State, step: Step) {
    match step
    case Spawn(t, pc) => t !in s.threads && EntryPoint(pc)
    case Go(t, _) => CanGo(s, t)
  }

  function At(s: State, t: Tid, pc: Pc): State {
    s.(threads := s.threads[t := pc])
  }

  /** One section under mu, from its first statement to its unlock. */
  function RunSection(s: State, t: Tid, section: Section, w: World): State
    requires Valid(s.session)
  {
    var u := s.(mu := FREE);
    match section
    case StartSection => At(u, t, Finished).(session := Start(s.session, w.start).0)
    case StopSection(sync) =>
      var (session, result) := Stop(s.session, w.stop);
      At(u, t, if result.Audio? && w.proceed then WantEngineRead else Finished).(session := session)
    case ClearSection => At(u, t, Finished).(session := Clear(s.session))
    case DeleteSection => At(u, t, Finished)
    case ShutdownSection => At(u, t, Finished).(session := EndSession(s.session))
    case SwitchCheck => At(u, t, if s.session.recording then Finished else Loading)
    case SwitchInstall(e) => if s.session.recording then At(u, t, Closing(e)) else At(s, t, WantEngine(e))
    case StoreTranscript => At(u, t, Finished).(session := s.session.(lastTranscript := w.transcript))
  }

  function Advance(s: State, t: Tid, w: World): State
    requires CanGo(s, t) && Valid(s.session)
  {
    match s.threads[t]
    case WantMu(section) => At(s, t, AnnouncedMu(section)).(mu := s.mu.(writer := Some(t), active := false))
    case AnnouncedMu(section) => At(s, t, InMu(section)).(mu := s.mu.(active := true))
    case InMu(section) => RunSection(s, t, section, w)
    case WantMuRead => At(s, t, ReadingMu).(mu := s.mu.(readers := s.mu.readers + {t}))
    case ReadingMu => At(s, t, Finished).(mu := s.mu.(readers := s.mu.readers - {t}))
    case Loading =>
      if w.proceed then At(s, t, WantMu(SwitchInstall(s.created))).(created := s.created + 1)
      else At(s, t, Finished)
    case WantEngine(e) => At(s, t, AnnouncedEngine(e)).(engineMu := s.engineMu.(writer := Some(t), active := false))
    case AnnouncedEngine(e) => At(s, t, InEngine(e)).(engineMu := s.engineMu.(active := true))
    case InEngine(e) =>
      At(s, t, if s.engine.Some? then Closing(s.engine.value) else Finished)
      .(engine := Some(e), engineMu := FREE, mu := FREE)
    case Closing(e) => At(s, t, Finished).(closes := s.closes + [e])
    case WantEngineRead => At(s, t, Transcribing(s.engine)).(engineMu := s.engineMu.(readers := s.engineMu.readers + {t}))
    case Transcribing(using) =>
      At(s, t, if using.Some? && w.proceed then WantMu(StoreTranscript) else Finished)
      .(engineMu := s.engineMu.(readers := s.engineMu.readers - {t}))
  }

  function Init(recorder: Option<Recorder>, hasEngine: bool): (s: State)
    ensures Invariant(s)
  {
    State(Session(false, recorder, false, "", []), if hasEngine then Some(0) else None, if hasEngine then 1 else 0, [],
          FREE, FREE, map[])
  }

  /** One step of some goroutine. */
  function Next(s: State, step: Step): State
    requires Enabled(s, step) && Valid(s.session)
  {
    match step
    case Spawn(t, pc) => At(s, t, pc)
    case Go(t, w) => Advance(s, t, w)
  }

  // ----- Locks

  function MuRole(pc: Pc): Role {
    match pc
    case AnnouncedMu(_) => Announced
    case InMu(_) => Writing
    case WantEngine(_) => Writing
    case AnnouncedEngine(_) => Writing
    case InEngine(_) => Writing
    case ReadingMu => Reading
    case _ => Outside
  }

  function EngineMuRole(pc: Pc): Role {
    match pc
    case AnnouncedEngine(_) => Announced
    case InEngine(_) => Writing
    case Transcribing(_) => Reading
    case _ => Outside
  }

  function MuRoles(s: State): map<Tid, Role> {
    map t | t in s.threads :: MuRole(s.threads[t])
  }

  function EngineMuRoles(s: State): map<Tid, Role> {
    map t | t in s.threads :: EngineMuRole(s.threads[t])
  }

  ghost predicate LocksDisciplined(s: State) {
    Disciplined(s.mu, MuRoles(s)) && Disciplined(s.engineMu, EngineMuRoles(s))
  }

  // ----- Engines

  /** The engine that a switcher is responsible for: its candidate before the swap, the replaced engine after it. */
  function Held(pc: Pc): Option<Engine> {
    match pc
    case WantMu(SwitchInstall(e)) => Some(e)
    case AnnouncedMu(SwitchInstall(e)) => Some(e)
    case InMu(SwitchInstall(e)) => Some(e)
    case WantEngine(e) => Some(e)
    case AnnouncedEngine(e) => Some(e)
    case InEngine(e) => Some(e)
    case Closing(e) => Some(e)
    case _ => None
  }

  function HeldBy(s: State, t: Tid): Option<Engine> {
    if t in s.threads then Held(s.threads[t]) else None
  }

  /** Every engine ever created is installed, held by exactly one switcher, or closed exactly once, and only one of these. */
  ghost predicate EnginesOwned(s: State) {
    && (s.engine.Some? ==> s.engine.value < s.created && s.engine.value !in s.closes)
    && (forall t: Tid :: HeldBy(s, t).Some? ==>
          HeldBy(s, t).value < s.created && s.engine != HeldBy(s, t) && HeldBy(s, t).value !in s.closes)
    && (forall t: Tid, t': Tid :: HeldBy(s, t).Some? && HeldBy(s, t) == HeldBy(s, t') ==> t == t')
    && (forall e :: e in s.closes ==> e < s.created)
    && (forall i, j :: 0 <= i < j < |s.closes| ==> s.closes[i] != s.closes[j])
    && (forall e: Engine :: e < s.created ==> s.engine == Some(e) || e in s.closes || exists t: Tid :: HeldBy(s, t) == Some(e))
  }

  /** Transcriptions use the installed engine, and a swap that has begun happens outside any recording. */
  ghost predicate EnginesUsedSafely(s: State) {
    && (forall t :: t in s.threads && s.threads[t].Transcribing? ==> s.threads[t].using == s.engine)
    && (forall t :: t in s.threads && Swapping(s.threads[t]) ==> !s.session.recording)
  }

  ghost predicate Invariant(s: State) {
    Valid(s.session) && LocksDisciplined(s) && EnginesOwned(s) && EnginesUsedSafely(s)
  }

  // ----- Every step keeps the invariant

  lemma SectionKeepsSession(s: State, t: Tid, section: Section, w: World)
    requires Valid(s.session)
    ensures Valid(RunSection(s, t, section, w).session)
  {
    match section
    case StartSection => StartKeepsValid(s.session, w.start);
    case StopSection(_) => StopKeepsValid(s.session, w.stop);
    case ClearSection => ClearKeepsValid(s.session);
    case ShutdownSection => ShutdownKeepsValid(s.session);
    case _ =>
  }

  lemma StepKeepsSession(s: State, step: Step)
    requires Enabled(s, step) && Valid(s.session)
    ensures Valid(Next(s, step).session)
  {
    if step.Go? && s.threads[step.t].InMu? {
      SectionKeepsSession(s, step.t, s.threads[step.t].section, step.w);
    }
  }

  /** A section only moves its own goroutine, which leaves mu unless it goes on to swap the engine. */
  lemma SectionFrame(s: State, t: Tid, section: Section, w: World)
    requires Valid(s.session)
    ensures var s' := RunSection(s, t, section, w);
            && t in s'.threads && s'.threads == s.threads[t := s'.threads[t]]
            && s'.engineMu == s.engineMu && s'.engine == s.engine
            && (if s'.threads[t].WantEngine? then s'.mu == s.mu && s'.session == s.session && !s.session.recording
                else s'.mu == FREE && (s'.threads[t].Finished? || s'.threads[t].Loading? || s'.threads[t].WantEngineRead? || s'.threads[t].Closing?))
            && Held(s'.threads[t]) == Held(InMu(section)) && s'.created == s.created && s'.closes == s.closes
  {
  }

  /** How goroutine `t` uses the two locks between `s` and `s'`. */
  ghost predicate LockMove(s: State, s': State, t: Tid) {
    && t in s'.threads && s'.threads == s.threads[t := s'.threads[t]]
    && var pc := if t in s.threads then s.threads[t] else Finished;
    && Moves(s.mu, MuRole(pc), s'.mu, MuRole(s'.threads[t]), t)
    && Moves(s.engineMu, EngineMuRole(pc), s'.engineMu, EngineMuRole(s'.threads[t]), t)
  }

  lemma GoMovesLocks(s: State, t: Tid, w: World)
    requires CanGo(s, t) && Valid(s.session)
    ensures LockMove(s, Advance(s, t, w), t)
  {
    if s.threads[t].InMu? {
      SectionFrame(s, t, s.threads[t].section, w);
    }
  }

  lemma StepMovesLocks(s: State, step: Step)
    requires Enabled(s, step) && Valid(s.session)
    ensures LockMove(s, Next(s, step), step.t)
  {
    match step
    case Spawn(t, pc) =>
    case Go(t, w) => GoMovesLocks(s, t, w);
  }

  lemma StepKeepsLocks(s: State, step: Step)
    requires LocksDisciplined(s) && Enabled(s, step) && Valid(s.session)
    ensures LocksDisciplined(Next(s, step))
  {
    var s', t := Next(s, step), step.t;
    StepMovesLocks(s, step);
    var pc' := s'.threads[t];
    MovesKeepDiscipline(s.mu, MuRoles(s), s'.mu, MuRole(pc'), t);
    MovesKeepDiscipline(s.engineMu, EngineMuRoles(s), s'.engineMu, EngineMuRole(pc'), t);
    assert MuRoles(s') == MuRoles(s)[t := MuRole(pc')];
    assert EngineMuRoles(s') == EngineMuRoles(s)[t := EngineMuRole(pc')];
  }

  /** The four things a step can do to the ownership of engines. */
  ghost predicate OwnershipMove(s: State, s': State, t: Tid) {
    && (forall t': Tid :: t' != t ==> HeldBy(s', t') == HeldBy(s, t'))
    && ( // nothing
         || (HeldBy(s', t) == HeldBy(s, t) && s'.engine == s.engine && s'.created == s.created && s'.closes == s.closes)
         // creating a candidate
         || (HeldBy(s, t) == None && HeldBy(s', t) == Some(s.created) && s'.created == s.created + 1
             && s'.engine == s.engine && s'.closes == s.closes)
         // swapping it in
         || (HeldBy(s, t).Some? && s'.engine == HeldBy(s, t) && HeldBy(s', t) == s.engine
             && s'.created == s.created && s'.closes == s.closes)
         // closing
         || (HeldBy(s, t).Some? && HeldBy(s', t) == None && s'.closes == s.closes + [HeldBy(s, t).value]
             && s'.created == s.created && s'.engine == s.engine))
  }

  lemma StepMovesOwnership(s: State, step: Step)
    requires Enabled(s, step) && Valid(s.session)
    ensures OwnershipMove(s, Next(s, step), step.t)
  {
    StepMovesLocks(s, step);
    if step.Go? && s.threads[step.t].InMu? {
      SectionFrame(s, step.t, s.threads[step.t].section, step.w);
    }
  }

  lemma MoveKeepsOwnership(s: State, s': State, t: Tid)
    requires EnginesOwned(s) && OwnershipMove(s, s', t)
    ensures EnginesOwned(s')
  {
    forall e: Engine | e < s'.created
      ensures s'.engine == Some(e) || e in s'.closes || exists t': Tid :: HeldBy(s', t') == Some(e)
    {
      if e == s.created {
        assert HeldBy(s', t) == Some(e);
      } else if s.engine == Some(e) {
        assert s'.engine == Some(e) || HeldBy(s', t) == Some(e);
      } else if e !in s.closes {
        var t0: Tid :| HeldBy(s, t0) == Some(e);
        if t0 == t {
          assert s'.engine == Some(e) || HeldBy(s', t) == Some(e) || e in s'.closes;
        } else {
          assert HeldBy(s', t0) == Some(e);
        }
      }
    }
  }

  /** A switcher that holds mu on its way to the swap. */
  predicate Swapping(pc: Pc) {
    pc.WantEngine? || pc.AnnouncedEngine? || pc.InEngine?
  }

  /** What a step can do to the use of engines. */
  ghost predicate UseMove(s: State, s': State, t: Tid) {
    && t in s'.threads && s'.threads == s.threads[t := s'.threads[t]]
    && (s'.threads[t].Transcribing? ==> s'.threads[t].using == s'.engine)
    && (Swapping(s'.threads[t]) ==> !s'.session.recording)
    && (s'.engine == s.engine || (t in s.threads && EngineMuRole(s.threads[t]) == Writing))
    && (s'.session.recording == s.session.recording || (t in s.threads && MuRole(s.threads[t]) == Writing))
  }

  lemma StepMovesUse(s: State, step: Step)
    requires EnginesUsedSafely(s) && Enabled(s, step) && Valid(s.session)
    ensures UseMove(s, Next(s, step), step.t)
  {
    StepMovesLocks(s, step);
    if step.Go? && s.threads[step.t].InMu? {
      SectionFrame(s, step.t, s.threads[step.t].section, step.w);
    }
  }

  lemma MoveKeepsUse(s: State, s': State, t: Tid)
    requires LocksDisciplined(s) && EnginesUsedSafely(s) && UseMove(s, s', t)
    ensures EnginesUsedSafely(s')
  {
    forall t' | t' in s.threads && t' != t
      ensures s.threads[t'].Transcribing? ==> s'.engine == s.engine
      ensures Swapping(s.threads[t']) ==> s'.session.recording == s.session.recording
    {
      if s'.engine != s.engine {
        Exclusion(s.engineMu, EngineMuRoles(s), t, t');
      }
      if s'.session.recording != s.session.recording {
        Exclusion(s.mu, MuRoles(s), t, t');
      }
    }
  }

  lemma StepKeepsInvariant(s: State, step: Step)
    requires Invariant(s) && Enabled(s, step)
    ensures Invariant(Next(s, step))
  {
    StepKeepsSession(s, step);
    StepKeepsLocks(s, step);
    StepMovesOwnership(s, step);
    MoveKeepsOwnership(s, Next(s, step), step.t);
    StepMovesUse(s, step);
    MoveKeepsUse(s, Next(s, step), step.t);
  }

  /** One step. That the session is valid, which `Next` needs, is proved of every run below and not assumed. */
  ghost predicate Leads(s: State, step: Step, s': State) {
    Enabled(s, step) && (Valid(s.session) ==> s' == Next(s, step))
  }

  /** `states` are the states of a run from an initial state, `steps` the steps between them. */
  ghost predicate IsRun(states: seq<State>, steps: seq<Step>) {
    && |states| == |steps| + 1
    && (exists recorder, hasEngine :: states[0] == Init(recorder, hasEngine))
    && forall i {:trigger steps[i]} :: 0 <= i < |steps| ==> Leads(states[i], steps[i], states[i + 1])
  }

  ghost predicate Reachable(s: State) {
    exists states, steps :: IsRun(states, steps) && states[|steps|] == s
  }

  lemma {:induction false} RunKeepsInvariant(states: seq<State>, steps: seq<Step>, k: nat)
    requires IsRun(states, steps) && k <= |steps|
    ensures Invariant(states[k])
  {
    if k > 0 {
      RunKeepsInvariant(states, steps, k - 1);
      assert Leads(states[k - 1], steps[k - 1], states[k]);
      StepKeepsInvariant(states[k - 1], steps[k - 1]);
    }
  }

  lemma ReachableInvariant(s: State)
    requires Reachable(s)
    ensures Invariant(s)
  {
    var states, steps :| IsRun(states, steps) && states[|steps|] == s;
    RunKeepsInvariant(states, steps, |steps|);
  }

  lemma UsedEngineIsInstalled(s: State, t: Tid)
    requires EnginesOwned(s) && EnginesUsedSafely(s)
    requires t in s.threads && s.threads[t].Transcribing? && s.threads[t].using.Some?
    ensures s.engine == s.threads[t].using && s.engine.value !in s.closes
  {
  }

  lemma UsedEngineStays(s: State, step: Step, t: Tid)
    requires Invariant(s) && Enabled(s, step) && step.t != t
    requires t in s.threads && s.threads[t].Transcribing? && s.threads[t].using.Some?
    ensures var e := s.threads[t].using.value;
            s.engine == Some(e) && e !in s.closes && Next(s, step).engine == Some(e) && e !in Next(s, step).closes
  {
    StepKeepsInvariant(s, step);
    StepMovesLocks(s, step);
    UsedEngineIsInstalled(s, t);
    UsedEngineIsInstalled(Next(s, step), t);
  }

  lemma TakenPairs(h: seq<Happening>, i: nat, j: nat)
    requires Proper(h) && j < |h| && h[j].Taken?
    ensures j > 0 && h[j - 1] == Started(h[j].session, h[j].recorder)
    ensures i < j && h[i].Taken? ==> h[i].session < h[j].session
  {
    var k := TakenWasStarted(h, j);
    if i < j && h[i].Taken? {
      TakenOnce(h, i, j);
    }
  }

  lemma EngineStaysWhileRecording(s: State, step: Step)
    requires EnginesUsedSafely(s) && Valid(s.session) && Enabled(s, step) && s.session.recording
    ensures Next(s, step).engine == s.engine
  {
    if step.Go? && s.threads[step.t].InMu? {
      SectionFrame(s, step.t, s.threads[step.t].section, step.w);
    }
  }

  // ----- Main results

  /** In every reachable state each engine ever created has exactly one owner, and none is closed twice. */
  lemma EveryEngineHasOneOwner(s: State, e: Engine)
    requires Reachable(s) && e < s.created
    ensures var installed, closed, held := s.engine == Some(e), e in s.closes, exists t: Tid :: HeldBy(s, t) == Some(e);
            && (installed || closed || held) && !(installed && closed) && !(installed && held) && !(closed && held)
            && (forall t: Tid, t': Tid :: HeldBy(s, t) == Some(e) && HeldBy(s, t') == Some(e) ==> t == t')
            && multiset(s.closes)[e] <= 1
  {
    ReachableInvariant(s);
    CountDistinct(s.closes, e);
  }

  lemma {:induction false} CountDistinct(xs: seq<Engine>, e: Engine)
    requires forall i, j :: 0 <= i < j < |xs| ==> xs[i] != xs[j]
    ensures multiset(xs)[e] <= 1
  {
    if xs != [] {
      var init, last := xs[..|xs| - 1], xs[|xs| - 1];
      CountDistinct(init, e);
      assert xs == init + [last];
      assert last !in init;
    }
  }

  /** An engine that a transcription is using is the installed one, and no step of another goroutine closes or
      replaces it meanwhile. */
  lemma EngineInUseIsSafe(s: State, step: Step, s': State, t: Tid)
    requires Reachable(s) && Leads(s, step, s') && step.t != t
    requires t in s.threads && s.threads[t].Transcribing? && s.threads[t].using.Some?
    ensures var e := s.threads[t].using.value;
            s.engine == Some(e) && e !in s.closes && s'.engine == Some(e) && e !in s'.closes
  {
    ReachableInvariant(s);
    UsedEngineStays(s, step, t);
  }

  /** The engine is never replaced while a recording is under way. */
  lemma NoSwapWhileRecording(s: State, step: Step, s': State)
    requires Reachable(s) && Leads(s, step, s') && s.session.recording
    ensures s'.engine == s.engine
  {
    ReachableInvariant(s);
    EngineStaysWhileRecording(s, step);
  }

  predicate WaitsForMu(pc: Pc) {
    pc.WantMu? || pc.AnnouncedMu? || pc.WantMuRead?
  }

  /** In every reachable state, whoever the lock engineMu records as a reader or as its writer does not wait for mu in any
      form, and its writer, announced or active, is the active writer of mu. */
  lemma NoWaitForMuUnderEngineMu(s: State, t: Tid)
    requires Reachable(s)
    requires t in s.engineMu.readers || s.engineMu.writer == Some(t)
    ensures t in s.threads && !WaitsForMu(s.threads[t])
    ensures s.engineMu.writer == Some(t) ==> s.mu.writer == Some(t) && s.mu.active
  {
    ReachableInvariant(s);
    assert RoleOf(EngineMuRoles(s), t) != Outside;
    if s.engineMu.writer == Some(t) {
      assert RoleOf(MuRoles(s), t) == Writing;
    }
  }

  /** Deadlock freedom: in every reachable state in which some goroutine has not finished, some goroutine can step. */
  lemma DeadlockFree(s: State, unfinished: Tid) returns (t: Tid)
    requires Reachable(s)
    requires unfinished in s.threads && !s.threads[unfinished].Finished?
    ensures CanGo(s, t)
  {
    ReachableInvariant(s);
    if s.engineMu.readers != {} {
      t :| t in s.engineMu.readers;
      assert RoleOf(EngineMuRoles(s), t) == Reading;
    } else if s.engineMu.writer.Some? {
      t := s.engineMu.writer.value;
      assert RoleOf(EngineMuRoles(s), t) == Announced || RoleOf(EngineMuRoles(s), t) == Writing;
    } else if s.mu.readers != {} {
      t :| t in s.mu.readers;
      assert RoleOf(MuRoles(s), t) == Reading;
    } else if s.mu.writer.Some? {
      t := s.mu.writer.value;
      assert RoleOf(MuRoles(s), t) == Announced || RoleOf(MuRoles(s), t) == Writing;
    } else {
      t := unfinished;
      assert RoleOf(MuRoles(s), t) == Outside;
    }
  }

  /** How many steps a goroutine has before it at most. */
  function Rank(pc: Pc): nat {
    match pc
    case WantMu(section) => SectionRank(section) + 2
    case AnnouncedMu(section) => SectionRank(section) + 1
    case InMu(section) => SectionRank(section)
    case WantMuRead => 2
    case ReadingMu => 1
    case Loading => 8
    case WantEngine(_) => 4
    case AnnouncedEngine(_) => 3
    case InEngine(_) => 2
    case Closing(_) => 1
    case WantEngineRead => 5
    case Transcribing(_) => 4
    case Finished => 0
  }

  function SectionRank(section: Section): nat {
    match section
    case StopSection(_) => 6
    case SwitchCheck => 9
    case SwitchInstall(_) => 5
    case _ => 1
  }

  /** How many steps all goroutines have before them at most. */
  ghost function Work(threads: map<Tid, Pc>): nat {
    if threads == map[] then 0
    else
      var t :| t in threads;
      Rank(threads[t]) + Work(threads - {t})
  }

  lemma {:induction false} WorkWithout(threads: map<Tid, Pc>, t: Tid)
    requires t in threads
    ensures Work(threads) == Rank(threads[t]) + Work(threads - {t})
  {
    var t0 :| t0 in threads && Work(threads) == Rank(threads[t0]) + Work(threads - {t0});
    if t0 != t {
      WorkWithout(threads - {t0}, t);
      WorkWithout(threads - {t}, t0);
      assert threads - {t0} - {t} == threads - {t} - {t0};
    }
  }

  lemma GoSpendsWork(s: State, step: Step)
    requires step.Go? && Enabled(s, step) && Valid(s.session)
    ensures Work(Next(s, step).threads) < Work(s.threads)
  {
    var s', t := Next(s, step), step.t;
    GoLowersRank(s, t, step.w);
    WorkWithout(s.threads, t);
    WorkWithout(s'.threads, t);
    assert s'.threads - {t} == s.threads - {t};
  }

  lemma GoLowersRank(s: State, t: Tid, w: World)
    requires CanGo(s, t) && Valid(s.session)
    ensures var s' := Advance(s, t, w);
            t in s'.threads && s'.threads == s.threads[t := s'.threads[t]] && Rank(s'.threads[t]) < Rank(s.threads[t])
  {
    if s.threads[t].InMu? {
      SectionLowersRank(s, t, s.threads[t].section, w);
    }
  }

  lemma SectionLowersRank(s: State, t: Tid, section: Section, w: World)
    requires Valid(s.session)
    ensures var s' := RunSection(s, t, section, w);
            t in s'.threads && s'.threads == s.threads[t := s'.threads[t]] && Rank(s'.threads[t]) < SectionRank(section)
  {
  }

  /** From state `n` on nobody new begins. */
  predicate NobodyNew(steps: seq<Step>, n: nat) {
    forall i :: n <= i < |steps| ==> steps[i].Go?
  }

  lemma {:induction false} WorkIsSpent(states: seq<State>, steps: seq<Step>, n: nat, k: nat)
    requires IsRun(states, steps) && n <= k <= |steps| && NobodyNew(steps, n)
    ensures Work(states[k].threads) + (k - n) <= Work(states[n].threads)
  {
    if k > n {
      WorkIsSpent(states, steps, n, k - 1);
      RunKeepsInvariant(states, steps, k - 1);
      assert Leads(states[k - 1], steps[k - 1], states[k]);
      GoSpendsWork(states[k - 1], steps[k - 1]);
    }
  }

  /** Termination: once nobody new begins, no schedule goes on for more steps than there is work, and one that goes on as
      long as some goroutine can step ends with all of them finished. */
  lemma EverybodyFinishes(states: seq<State>, steps: seq<Step>, n: nat)
    requires IsRun(states, steps) && n <= |steps| && NobodyNew(steps, n)
    ensures |steps| - n <= Work(states[n].threads)
    ensures var last := states[|steps|];
            (forall t: Tid :: !CanGo(last, t)) <==> (forall t :: t in last.threads ==> last.threads[t].Finished?)
  {
    WorkIsSpent(states, steps, n, |steps|);
    var last := states[|steps|];
    assert Reachable(last);
    if unfinished: Tid :| unfinished in last.threads && !last.threads[unfinished].Finished? {
      var t := DeadlockFree(last, unfinished);
    }
  }

  // ----- What becomes of a switch

  /** At step `j` goroutine `t` installs another engine in the place of `e`. */
  ghost predicate ReplacedAt(states: seq<State>, steps: seq<Step>, t: Tid, e: Engine, j: nat) {
    && j < |steps| && j + 1 < |states| && steps[j].Go? && steps[j].t == t
    && states[j].engine == Some(e) && states[j + 1].engine.Some? && states[j + 1].engine != Some(e)
    && HeldBy(states[j], t) == states[j + 1].engine
  }

  /** At step `j` goroutine `t` finds, in its second locked section, that a recording is under way, with candidate `e`. */
  ghost predicate GivenUpAt(states: seq<State>, steps: seq<Step>, t: Tid, e: Engine, j: nat) {
    && j < |steps| && j < |states| && steps[j].Go? && steps[j].t == t
    && t in states[j].threads && states[j].threads[t] == InMu(SwitchInstall(e)) && states[j].session.recording
  }

  /** A goroutine comes to close an engine in two ways only. */
  lemma EntersClosing(s: State, t: Tid, w: World, e: Engine)
    requires CanGo(s, t) && Valid(s.session) && s.threads[t] != Closing(e)
    requires Advance(s, t, w).threads[t] == Closing(e)
    ensures (s.threads[t].InEngine? && s.engine == Some(e) && Advance(s, t, w).engine == HeldBy(s, t))
            || (s.threads[t] == InMu(SwitchInstall(e)) && s.session.recording)
  {
  }

  lemma {:induction false} ClosingHasReason(states: seq<State>, steps: seq<Step>, k: nat, t: Tid, e: Engine) returns (j: nat)
    requires IsRun(states, steps) && k <= |steps|
    requires t in states[k].threads && states[k].threads[t] == Closing(e)
    ensures j < k && (ReplacedAt(states, steps, t, e, j) || GivenUpAt(states, steps, t, e, j))
    decreases k
  {
    if k == 0 {
      assert false;
    } else {
      j := k - 1;
      var s, step := states[j], steps[j];
      assert Leads(s, step, states[k]);
      RunKeepsInvariant(states, steps, j);
      StepMovesLocks(s, step);
      if step.t != t || (t in s.threads && s.threads[t] == Closing(e)) {
        j := ClosingHasReason(states, steps, j, t, e);
      } else {
        RunKeepsInvariant(states, steps, k);
        EntersClosing(s, t, step.w, e);
      }
    }
  }

  lemma CloseIsClosing(s: State, step: Step)
    requires Enabled(s, step) && Valid(s.session)
    ensures var s' := Next(s, step);
            s'.closes == s.closes
            || (step.Go? && s.threads[step.t].Closing? && s'.closes == s.closes + [s.threads[step.t].engine])
  {
    if step.Go? && s.threads[step.t].InMu? {
      SectionFrame(s, step.t, s.threads[step.t].section, step.w);
    }
  }

  /** Whenever an engine is closed, the switcher that closes it has either installed another one in its place, or found a
      recording under way in its second locked section, the engine being its own candidate. */
  lemma ClosedOnlyIfReplacedOrGivenUp(states: seq<State>, steps: seq<Step>, k: nat) returns (e: Engine, j: nat)
    requires IsRun(states, steps) && k < |steps| && states[k + 1].closes != states[k].closes
    ensures states[k + 1].closes == states[k].closes + [e]
    ensures j < k && (ReplacedAt(states, steps, steps[k].t, e, j) || GivenUpAt(states, steps, steps[k].t, e, j))
  {
    RunKeepsInvariant(states, steps, k);
    assert Leads(states[k], steps[k], states[k + 1]);
    CloseIsClosing(states[k], steps[k]);
    e := states[k].threads[steps[k].t].engine;
    j := ClosingHasReason(states, steps, k, steps[k].t, e);
  }

  // ----- A goroutine on its own

  /** Goroutine `t` goes on alone, in one world, until it has finished or has to wait for somebody. */
  function GoesOn(s: State, t: Tid, w: World): State
    requires Valid(s.session) && t in s.threads
    decreases Rank(s.threads[t])
  {
    if !CanGo(s, t) then s
    else
      GoLowersRank(s, t, w);
      StepKeepsSession(s, Go(t, w));
      GoesOn(Advance(s, t, w), t, w)
  }

  /** No lock is held or asked for. */
  predicate LocksFree(s: State) {
    s.mu == FREE && s.engineMu == FREE
  }

  function Alone(s: State, t: Tid, section: Section, w: World): State
    requires Valid(s.session)
  {
    GoesOn(At(s, t, WantMu(section)), t, w)
  }

  lemma AtAgain(s: State, t: Tid, pc: Pc, pc': Pc)
    ensures At(At(s, t, pc), t, pc') == At(s, t, pc')
  {
    assert s.threads[t := pc][t := pc'] == s.threads[t := pc'];
  }

  lemma GoesOnce(s: State, t: Tid, w: World, s': State)
    requires Valid(s.session) && CanGo(s, t) && s' == Advance(s, t, w)
    ensures Valid(s'.session) && t in s'.threads && GoesOn(s, t, w) == GoesOn(s', t, w)
  {
    GoLowersRank(s, t, w);
    StepKeepsSession(s, Go(t, w));
  }

  /** Taking mu alone. */
  lemma TakesMu(s: State, t: Tid, section: Section, w: World)
    requires Valid(s.session) && LocksFree(s)
    ensures GoesOn(At(s, t, WantMu(section)), t, w)
         == GoesOn(At(s, t, InMu(section)).(mu := RWMutex(Some(t), true, {})), t, w)
  {
    AtAgain(s, t, WantMu(section), AnnouncedMu(section));
    AtAgain(s, t, AnnouncedMu(section), InMu(section));
    var s1 := At(s, t, WantMu(section));
    var s2 := At(s, t, AnnouncedMu(section)).(mu := RWMutex(Some(t), false, {}));
    GoesOnce(s1, t, w, s2);
    GoesOnce(s2, t, w, At(s, t, InMu(section)).(mu := RWMutex(Some(t), true, {})));
  }

  /** A section that leads out of mu, alone. */
  lemma RunsSection(s: State, t: Tid, section: Section, w: World)
    requires Valid(s.session) && LocksFree(s)
    requires !section.SwitchInstall? || s.session.recording
    ensures Valid(RunSection(s, t, section, w).session) && t in RunSection(s, t, section, w).threads
    ensures GoesOn(At(s, t, WantMu(section)), t, w) == GoesOn(RunSection(s, t, section, w), t, w)
  {
    TakesMu(s, t, section, w);
    SectionKeepsSession(s, t, section, w);
    var s1 := At(s, t, InMu(section)).(mu := RWMutex(Some(t), true, {}));
    var s' := RunSection(s, t, section, w);
    AtAgain(s, t, InMu(section), s'.threads[t]);
    GoesOnce(s1, t, w, s');
  }

  /** The second section of a switch and the swap, alone. */
  lemma SwapsEngine(s: State, t: Tid, e: Engine, w: World)
    requires Valid(s.session) && LocksFree(s) && !s.session.recording
    ensures GoesOn(At(s, t, WantMu(SwitchInstall(e))), t, w)
         == GoesOn(At(s, t, if s.engine.Some? then Closing(s.engine.value) else Finished).(engine := Some(e)), t, w)
  {
    TakesMu(s, t, SwitchInstall(e), w);
    var mu := RWMutex(Some(t), true, {});
    var s3 := At(s, t, InMu(SwitchInstall(e))).(mu := mu);
    var s4 := At(s, t, WantEngine(e)).(mu := mu);
    var s5 := At(s, t, AnnouncedEngine(e)).(mu := mu, engineMu := RWMutex(Some(t), false, {}));
    var s6 := At(s, t, InEngine(e)).(mu := mu, engineMu := RWMutex(Some(t), true, {}));
    var last := if s.engine.Some? then Closing(s.engine.value) else Finished;
    AtAgain(s, t, InMu(SwitchInstall(e)), WantEngine(e));
    GoesOnce(s3, t, w, s4);
    AtAgain(s, t, WantEngine(e), AnnouncedEngine(e));
    GoesOnce(s4, t, w, s5);
    AtAgain(s, t, AnnouncedEngine(e), InEngine(e));
    GoesOnce(s5, t, w, s6);
    AtAgain(s, t, InEngine(e), last);
    GoesOnce(s6, t, w, At(s, t, last).(engine := Some(e)));
  }

  lemma ClosesEngine(s: State, t: Tid, e: Engine, w: World)
    requires Valid(s.session)
    ensures GoesOn(At(s, t, Closing(e)), t, w) == At(s, t, Finished).(closes := s.closes + [e])
  {
    AtAgain(s, t, Closing(e), Finished);
    assert Advance(At(s, t, Closing(e)), t, w) == At(s, t, Finished).(closes := s.closes + [e]);
  }

  lemma Loads(s: State, t: Tid, w: World)
    requires Valid(s.session)
    ensures GoesOn(At(s, t, Loading), t, w) ==
            if w.proceed then GoesOn(At(s.(created := s.created + 1), t, WantMu(SwitchInstall(s.created))), t, w) else At(s, t, Finished)
  {
    var next := if w.proceed then WantMu(SwitchInstall(s.created)) else Finished;
    AtAgain(s, t, Loading, next);
    assert Advance(At(s, t, Loading), t, w) == if w.proceed then At(s, t, next).(created := s.created + 1) else At(s, t, next);
  }

  /** What a switch that nobody interrupts ends with: unless a recording is under way or loading fails, its own candidate is
      installed and exactly the engine that was installed before, if any, is closed; otherwise nothing has changed. */
  lemma SwitchAlone(s: State, t: Tid, w: World)
    requires Valid(s.session) && LocksFree(s)
    ensures Alone(s, t, SwitchCheck, w) ==
            if s.session.recording || !w.proceed then At(s, t, Finished)
            else
              At(s, t, Finished).(
                engine := Some(s.created), created := s.created + 1,
                closes := s.closes + if s.engine.Some? then [s.engine.value] else [])
  {
    RunsSection(s, t, SwitchCheck, w);
    if !s.session.recording {
      Loads(s, t, w);
      if w.proceed {
        var s1 := s.(created := s.created + 1);
        SwapsEngine(s1, t, s.created, w);
        if s.engine.Some? {
          ClosesEngine(s1.(engine := Some(s.created)), t, s.engine.value, w);
        } else {
          assert s.closes + [] == s.closes;
        }
      }
    }
  }

  /** The candidate of a switch that finds a recording in its second section is closed and nothing else. */
  lemma GivenUpAlone(s: State, t: Tid, e: Engine, w: World)
    requires Valid(s.session) && LocksFree(s) && s.session.recording
    ensures Alone(s, t, SwitchInstall(e), w) == At(s, t, Finished).(closes := s.closes + [e])
  {
    RunsSection(s, t, SwitchInstall(e), w);
    ClosesEngine(s, t, e, w);
  }

  /** In the terms of the sequential transaction: an uninterrupted switch installs a new engine exactly if the load succeeds. */
  lemma SwitchAloneIsLoad(s: State, t: Tid, m: ModelSwitch.State, id: string, load: ModelSwitch.LoadWorld, w: World)
    requires Valid(s.session) && LocksFree(s)
    requires load.recordingBefore == load.recordingAfter == s.session.recording
    requires w.proceed == (ModelSwitch.Resolved(m, id, load.downloadOk).Some? && load.engineOk)
    ensures var s' := Alone(s, t, SwitchCheck, w);
            && (s'.engine == Some(s.created) && s'.created == s.created + 1 <==> ModelSwitch.Loaded(m, id, load).1)
            && (s'.engine == s.engine && s'.closes == s.closes && s'.created == s.created <==> !ModelSwitch.Loaded(m, id, load).1)
  {
    SwitchAlone(s, t, w);
  }

  /** The session after a whole call that stands for one section. */
  function SessionAfter(a: Session, section: Section, w: World): Session {
    match section
    case StartSection => Start(a, w.start).0
    case ClearSection => Clear(a)
    case ShutdownSection => EndSession(a)
    case StoreTranscript => a.(lastTranscript := w.transcript)
    case _ => a
  }

  /** The other sections, alone, do to the session what the calls do that they stand for, and nothing else. */
  lemma CallAlone(s: State, t: Tid, section: Section, w: World)
    requires Valid(s.session) && LocksFree(s)
    requires !section.StopSection? && !section.SwitchCheck? && !section.SwitchInstall?
    ensures Alone(s, t, section, w) == At(s, t, Finished).(session := SessionAfter(s.session, section, w))
  {
    RunsSection(s, t, section, w);
  }

  // ----- What becomes of a stop

  /** A stopping goroutine goes on to the engine exactly if it took an open session, the recorder gave a file with a name, and
      the service goes on; and it is the only kind of goroutine that ever does. */
  lemma GoesOnToEngineIff(s: State, t: Tid, w: World)
    requires Reachable(s) && CanGo(s, t)
    ensures Valid(s.session) && t in Advance(s, t, w).threads
    ensures var a := s.session;
            Advance(s, t, w).threads[t] == WantEngineRead <==>
              && s.threads[t].InMu? && s.threads[t].section.StopSection?
              && a.recording && Takes(Advance(s, t, w).session.history) == Takes(a.history) + 1
              && w.stop.captured.File? && w.stop.captured.path != "" && w.proceed
  {
    ReachableInvariant(s);
    GoLowersRank(s, t, w);
    if s.threads[t].InMu? && s.threads[t].section.StopSection? {
      StopKeepsValid(s.session, w.stop);
      if w.stop.captured.File? {
        StopAnswers(s.session, w.stop, w.stop.captured.path);
      } else {
        StopAnswers(s.session, w.stop, "");
      }
    }
  }

  lemma Transcribes(s: State, t: Tid, w: World)
    requires Valid(s.session) && LocksFree(s)
    ensures GoesOn(At(s, t, WantEngineRead), t, w) ==
            if s.engine.Some? && w.proceed then At(s, t, Finished).(session := s.session.(lastTranscript := w.transcript))
            else At(s, t, Finished)
  {
    var s1 := At(s, t, WantEngineRead);
    var s2 := At(s, t, Transcribing(s.engine)).(engineMu := RWMutex(None, false, {t}));
    AtAgain(s, t, WantEngineRead, Transcribing(s.engine));
    GoesOnce(s1, t, w, s2);
    var next := if s.engine.Some? && w.proceed then WantMu(StoreTranscript) else Finished;
    AtAgain(s, t, Transcribing(s.engine), next);
    assert s2.engineMu.readers - {t} == {};
    GoesOnce(s2, t, w, At(s, t, next));
    if next != Finished {
      RunsSection(s, t, StoreTranscript, w);
    }
  }

  /** What a stop that nobody interrupts ends with: its text is the last transcript exactly if it took a session with a file,
      there is an engine, and the transcription works. */
  lemma StopAlone(s: State, t: Tid, sync: bool, w: World)
    requires Valid(s.session) && LocksFree(s)
    ensures var (b, result) := Stop(s.session, w.stop);
            Alone(s, t, StopSection(sync), w) ==
            At(s, t, Finished).(
              session := if result.Audio? && w.proceed && s.engine.Some? then b.(lastTranscript := w.transcript) else b)
  {
    var (b, result) := Stop(s.session, w.stop);
    StopKeepsValid(s.session, w.stop);
    RunsSection(s, t, StopSection(sync), w);
    assert RunSection(s, t, StopSection(sync), w)
        == At(s.(session := b), t, if result.Audio? && w.proceed then WantEngineRead else Finished);
    if result.Audio? && w.proceed {
      Transcribes(s.(session := b), t, w);
    }
  }

  /** Session conservation over all interleavings: recordings started minus sessions taken is one while recording
      and zero otherwise. While recording, the last thing that happened to any recorder is that the one in place started
      the open session: none has been cleaned up since. */
  lemma SessionsConserved(s: State)
    requires Reachable(s)
    ensures var a := s.session;
            && Starts(a.history) - Takes(a.history) == (if a.recording then 1 else 0)
            && (a.recording ==>
                  a.recorder.Some? && a.history != [] && a.history[|a.history| - 1] == Started(Takes(a.history), a.recorder.value))
  {
    ReachableInvariant(s);
    Conservation(s.session.history);
    if s.session.recording {
      var i := OpenIsLast(s.session.history);
    }
  }

  /** Every session taken was started on the recorder it was taken from, with nothing cleaned up in between,
      and no session is taken twice. */
  lemma SessionsTakenOnce(s: State, i: nat, j: nat)
    requires Reachable(s)
    requires j < |s.session.history| && s.session.history[j].Taken?
    ensures var h := s.session.history;
            && j > 0 && h[j - 1] == Started(h[j].session, h[j].recorder)
            && (i < j && h[i].Taken? ==> h[i].session < h[j].session)
  {
    ReachableInvariant(s);
    TakenPairs(s.session.history, i, j);
  }
}
