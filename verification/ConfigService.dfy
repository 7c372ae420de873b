/** The configuration service of internal/services/config_service.go: copy, save, publish. */
module ConfigService {
  import opened Optional

  /** The fields that updates touch; `others` stands for the rest of the record. */
  datatype Config = Config(
    model: string, language: string, outputMode: string, recordingMethod: string, notifications: bool,
    hotkeyMode: string, startRecording: string, stopRecording: string, showConfig: string, resetToDefaults: string,
    others: nat)

  /** The public operations that end in `update`. */
  datatype Op =
    | SaveConfig
    | ResetToDefaults
    | UpdateModel(id: string)
    | UpdateLanguage(language: string)
    | UpdateOutputMode(mode: string)
    | UpdateHotkeyMode(mode: string)
    | ToggleWorkflowNotifications
    | UpdateRecordingMethod(backend: string)
    | UpdateHotkey(action: string, combo: string)

  datatype Outcome = Ok | Rejected | SaveFailed

  predicate Accepts(op: Op) {
    match op
    case UpdateHotkeyMode(mode) => mode == "toggle" || mode == "ptt"
    case UpdateRecordingMethod(m) => m == "arecord" || m == "ffmpeg"
    case UpdateHotkey(action, _) =>
      action == "start_recording" || action == "stop_recording" || action == "show_config" || action == "reset_to_defaults"
    case _ => true
  }

  /** The early return: the operation compares the published field with its argument before it locks. */
  predicate Skips(op: Op, c: Config) {
    match op
    case UpdateModel(id) => c.model == id
    case UpdateLanguage(language) => c.language == language
    case UpdateOutputMode(mode) => c.outputMode == mode
    case UpdateHotkeyMode(mode) => c.hotkeyMode == mode
    case UpdateRecordingMethod(m) => c.recordingMethod == m
    case _ => false
  }

  // The function that an operation hands to `update`
  function Change(defaults: Config, op: Op, c: Config): Config {
    match op
    case SaveConfig => c
    case ResetToDefaults => defaults
    case UpdateModel(id) => c.(model := id)
    case UpdateLanguage(language) => c.(language := language)
    case UpdateOutputMode(mode) => c.(outputMode := mode)
    case UpdateHotkeyMode(mode) => c.(hotkeyMode := mode)
    case ToggleWorkflowNotifications => c.(notifications := !c.notifications)
    case UpdateRecordingMethod(m) => c.(recordingMethod := m)
    case UpdateHotkey(action, combo) =>
      if action == "start_recording" || action == "stop_recording" then c.(startRecording := combo, stopRecording := combo)
      else if action == "show_config" then c.(showConfig := combo)
      else if action == "reset_to_defaults" then c.(resetToDefaults := combo)
      else c
  }

  /** What the caller of an operation asked to see in the published configuration. */
  predicate Shows(defaults: Config, op: Op, c: Config) {
    match op
    case SaveConfig => true
    case ToggleWorkflowNotifications => true
    case ResetToDefaults => c == defaults
    case UpdateModel(id) => c.model == id
    case UpdateLanguage(language) => c.language == language
    case UpdateOutputMode(mode) => c.outputMode == mode
    case UpdateHotkeyMode(mode) => c.hotkeyMode == mode
    case UpdateRecordingMethod(m) => c.recordingMethod == m
    case UpdateHotkey(action, combo) =>
      && (action == "start_recording" || action == "stop_recording" ==> c.startRecording == c.stopRecording == combo)
      && (action == "show_config" ==> c.showConfig == combo)
      && (action == "reset_to_defaults" ==> c.resetToDefaults == combo)
  }

  /** A whole call on its own: the configuration it leaves published, and what it returns. */
  function Effect(defaults: Config, op: Op, c: Config, saves: bool): (Config, Outcome) {
    if !Accepts(op) then (c, Rejected)
    else if Skips(op, c) then (c, Ok)
    else if saves then (Change(defaults, op, c), Ok)
    else (c, SaveFailed)
  }

  // ----- One call at a time

  /** The target of the `current` pointer. */
  class Snapshot {
    var value: Config

    constructor (value: Config)
      ensures this.value == value
    {
      this.value := value;
    }
  }

  class Service {
    var current: Snapshot
    var file: Option<Config>
    const configFile: string
    const defaults: Config

    constructor (config: Snapshot, configFile: string, defaults: Config)
      ensures current == config && file == None && this.configFile == configFile && this.defaults == defaults
    {
      current, file := config, None;
      this.configFile, this.defaults := configFile, defaults;
    }

    /** `saved` says whether writing the file succeeds. Only a fresh copy is ever changed, so a snapshot
        that was published keeps its value for good. */
    method Update(op: Op, saved: bool) returns (ok: bool)
      modifies this
      ensures ok == (configFile != "" && saved)
      ensures ok ==> fresh(current) && current.value == Change(defaults, op, old(current.value)) && file == Some(current.value)
      ensures !ok ==> current == old(current) && file == old(file)
      ensures old(current).value == old(current.value)
    {
      var next := new Snapshot(current.value);
      next.value := Change(defaults, op, next.value);
      if configFile == "" {
        return false;
      }
      if !saved {
        return false;
      }
      file := Some(next.value);
      current := next;
      return true;
    }

    method Call(op: Op, saved: bool) returns (outcome: Outcome)
      modifies this
      ensures (current.value, outcome) == Effect(defaults, op, old(current.value), configFile != "" && saved)
      ensures outcome == Ok ==> Shows(defaults, op, current.value)
      ensures if outcome == Ok && !Skips(op, old(current.value)) then fresh(current) && file == Some(current.value)
              else current == old(current) && file == old(file)
      ensures old(current).value == old(current.value)
    {
      if !Accepts(op) {
        return Rejected;
      }
      if Skips(op, current.value) {
        return Ok;
      }
      var ok := Update(op, saved);
      return if ok then Ok else SaveFailed;
    }
  }

  // ----- Any number of concurrent callers

  /** A call, numbered once and for all. */
  type Tid = nat

  /** Where a call stands. `since` is the moment of its beginning, `ticket` the rank of its locked section, if it got
      that far. */
  datatype Phase =
    | Called(op: Op, since: nat)
    | Waiting(op: Op, since: nat)
    | Locked(op: Op, since: nat, ticket: nat)
    | Copied(op: Op, since: nat, ticket: nat, next: Config)
    | Saved(op: Op, since: nat, ticket: nat, next: Config)
    | Returned(op: Op, since: nat, outcome: Outcome, section: Option<nat>)

  datatype Status = Pending | Done | Failed

  /** A locked section; `log` lists them in the order in which they took the lock. */
  datatype Section = Section(caller: Tid, op: Op, status: Status)

  datatype State = State(
    clock: nat, published: Config, file: Option<Config>, lock: Option<Tid>, threads: map<Tid, Phase>, log: seq<Section>)

  datatype Step =
    | Begin(t: Tid, op: Op)
    | Check(t: Tid)
    | Lock(t: Tid)
    | Copy(t: Tid)
    | Write(t: Tid, ok: bool)
    | Publish(t: Tid)

  function Init(c: Config): State {
    State(0, c, None, None, map[], [])
  }

  predicate Enabled(s: State, step: Step) {
    match step
    case Begin(t, _) => t !in s.threads
    case Check(t) => t in s.threads && s.threads[t].Called?
    case Lock(t) => t in s.threads && s.threads[t].Waiting? && s.lock == None
    case Copy(t) => t in s.threads && s.threads[t].Locked?
    case Write(t, _) => t in s.threads && s.threads[t].Copied?
    case Publish(t) => t in s.threads && s.threads[t].Saved?
  }

  function Moved(s: State, t: Tid, phase: Phase): State {
    s.(clock := s.clock + 1, threads := s.threads[t := phase])
  }

  function Marked(log: seq<Section>, ticket: nat, status: Status): seq<Section> {
    if ticket < |log| then log[ticket := log[ticket].(status := status)] else log
  }

  function Apply(defaults: Config, s: State, step: Step): State
    requires Enabled(s, step)
  {
    match step
    case Begin(t, op) => Moved(s, t, Called(op, s.clock))
    case Check(t) =>
      var p := s.threads[t];
      Moved(s, t,
            if !Accepts(p.op) then Returned(p.op, p.since, Rejected, None)
            else if Skips(p.op, s.published) then Returned(p.op, p.since, Ok, None)
            else Waiting(p.op, p.since))
    case Lock(t) =>
      var p := s.threads[t];
      Moved(s, t, Locked(p.op, p.since, |s.log|)).(lock := Some(t), log := s.log + [Section(t, p.op, Pending)])
    case Copy(t) =>
      var p := s.threads[t];
      Moved(s, t, Copied(p.op, p.since, p.ticket, Change(defaults, p.op, s.published)))
    case Write(t, ok) =>
      var p := s.threads[t];
      if ok then Moved(s, t, Saved(p.op, p.since, p.ticket, p.next)).(file := Some(p.next))
      else
        Moved(s, t, Returned(p.op, p.since, SaveFailed, Some(p.ticket))).(lock := None, log := Marked(s.log, p.ticket, Failed))
    case Publish(t) =>
      var p := s.threads[t];
      Moved(s, t, Returned(p.op, p.since, Ok, Some(p.ticket))).(published := p.next, lock := None, log := Marked(s.log, p.ticket, Done))
  }

  /** The state after a run from an initial configuration, or None if some step was not enabled. */
  function Run(defaults: Config, c: Config, steps: seq<Step>): Option<State> {
    if steps == [] then Some(Init(c))
    else
      var s := Run(defaults, c, steps[..|steps| - 1]);
      var step := steps[|steps| - 1];
      if s.Some? && Enabled(s.value, step) then Some(Apply(defaults, s.value, step)) else None
  }

  /** The initial configuration with the successful updates applied in lock order. */
  function Applied(defaults: Config, c: Config, log: seq<Section>): Config {
    if log == [] then c
    else
      var before, last := Applied(defaults, c, log[..|log| - 1]), log[|log| - 1];
      if last.status == Done then Change(defaults, last.op, before) else before
  }

  predicate InSection(p: Phase) {
    p.Locked? || p.Copied? || p.Saved?
  }

  ghost predicate LockInvariant(s: State) {
    && (forall t :: t in s.threads && InSection(s.threads[t]) <==> s.lock == Some(t))
    && (forall i :: 0 <= i < |s.log| && s.log[i].status == Pending ==> s.lock.Some? && i == |s.log| - 1)
    && (s.lock.Some? ==>
          var p := s.threads[s.lock.value];
          p.ticket == |s.log| - 1 && s.log[p.ticket] == Section(s.lock.value, p.op, Pending))
  }

  ghost predicate Invariant(defaults: Config, c: Config, s: State) {
    && LockInvariant(s)
    && s.published == Applied(defaults, c, s.log)
    && (s.lock.Some? ==>
          var p := s.threads[s.lock.value];
          p.Locked? || p.next == Change(defaults, p.op, s.published))
  }

  /** Some update has been saved. */
  predicate EverSaved(s: State) {
    exists i :: 0 <= i < |s.log| && s.log[i].status == Done
  }

  /** A writer stands between its save and its publish. */
  predicate Publishing(s: State) {
    s.lock.Some? && s.lock.value in s.threads && s.threads[s.lock.value].Saved?
  }

  ghost predicate FileInvariant(s: State) {
    && (Publishing(s) ==> s.file == Some(s.threads[s.lock.value].next))
    && (!Publishing(s) && EverSaved(s) ==> s.file == Some(s.published))
  }

  // ----- What callers were told

  /** The rank of the section that a call went through or is in. */
  function Rank(p: Phase): Option<nat> {
    if InSection(p) then Some(p.ticket) else if p.Returned? then p.section else None
  }

  /** What the log has to say about a call in a section: pending until it returns, done exactly if it returned success. */
  function StatusOf(p: Phase): Status {
    if !p.Returned? then Pending else if p.outcome == Ok then Done else Failed
  }

  /** Calls and sections correspond one to one, with the outcome that the caller was told. */
  ghost predicate OutcomeInvariant(s: State) {
    && (forall t :: t in s.threads && Rank(s.threads[t]).Some? ==>
          Rank(s.threads[t]).value < |s.log| && s.log[Rank(s.threads[t]).value].caller == t)
    && (forall k :: 0 <= k < |s.log| ==>
          var t := s.log[k].caller;
          t in s.threads && Rank(s.threads[t]) == Some(k) && s.log[k] == Section(t, s.threads[t].op, StatusOf(s.threads[t])))
  }

  /** The calls in the order in which they took the lock, told from the steps alone. */
  function Lockers(steps: seq<Step>): seq<Tid> {
    if steps == [] then [] else Lockers(steps[..|steps| - 1]) + if steps[|steps| - 1].Lock? then [steps[|steps| - 1].t] else []
  }

  function Callers(log: seq<Section>): (order: seq<Tid>)
    ensures |order| == |log| && forall k :: 0 <= k < |log| ==> order[k] == log[k].caller
  {
    seq(|log|, k requires 0 <= k < |log| => log[k].caller)
  }

  predicate Succeeded(s: State, t: Tid) {
    t in s.threads && s.threads[t].Returned? && s.threads[t].outcome == Ok
  }

  /** The initial configuration changed, in the given order, by those calls that have returned success. */
  function Accumulated(defaults: Config, c: Config, s: State, order: seq<Tid>): Config {
    if order == [] then c
    else
      var before, t := Accumulated(defaults, c, s, order[..|order| - 1]), order[|order| - 1];
      if Succeeded(s, t) then Change(defaults, s.threads[t].op, before) else before
  }

  // ----- Proofs

  lemma AppliedSnoc(defaults: Config, c: Config, log: seq<Section>, section: Section)
    ensures Applied(defaults, c, log + [section]) ==
            if section.status == Done then Change(defaults, section.op, Applied(defaults, c, log)) else Applied(defaults, c, log)
  {
    assert (log + [section])[..|log|] == log;
  }

  lemma AppliedMarkedLast(defaults: Config, c: Config, log: seq<Section>, status: Status)
    requires log != [] && log[|log| - 1].status == Pending
    ensures Applied(defaults, c, Marked(log, |log| - 1, status)) ==
            if status == Done then Change(defaults, log[|log| - 1].op, Applied(defaults, c, log)) else Applied(defaults, c, log)
  {
    var marked := Marked(log, |log| - 1, status);
    assert marked[..|log| - 1] == log[..|log| - 1];
  }

  lemma StepKeepsInvariant(defaults: Config, c: Config, s: State, step: Step)
    requires Invariant(defaults, c, s) && Enabled(s, step)
    ensures Invariant(defaults, c, Apply(defaults, s, step))
  {
    if step.Lock? {
      AppliedSnoc(defaults, c, s.log, Section(step.t, s.threads[step.t].op, Pending));
    } else if step.Write? && !step.ok {
      AppliedMarkedLast(defaults, c, s.log, Failed);
    } else if step.Publish? {
      AppliedMarkedLast(defaults, c, s.log, Done);
    }
  }

  lemma StepKeepsFileInvariant(defaults: Config, c: Config, s: State, step: Step)
    requires Invariant(defaults, c, s) && FileInvariant(s) && Enabled(s, step)
    ensures FileInvariant(Apply(defaults, s, step))
  {
    var s' := Apply(defaults, s, step);
    if EverSaved(s') && !step.Publish? {
      var i :| 0 <= i < |s'.log| && s'.log[i].status == Done;
      assert i < |s.log| && s.log[i].status == Done;
    }
  }

  /** The three things that a step of call `t` can do to the log: nothing, entering a section, and settling one. */
  ghost predicate LogMove(s: State, s': State, t: Tid) {
    && t in s'.threads && s'.threads == s.threads[t := s'.threads[t]]
    && var before, p := if t in s.threads then Rank(s.threads[t]) else None, s'.threads[t];
    && (|| (Rank(p) == before && s'.log == s.log
            && (before.Some? ==> p.op == s.threads[t].op && StatusOf(p) == StatusOf(s.threads[t])))
        || (before == None && Rank(p) == Some(|s.log|) && s'.log == s.log + [Section(t, p.op, StatusOf(p))])
        || (before.Some? && Rank(p) == before && before.value < |s.log| && s'.log == s.log[before.value := Section(t, p.op, StatusOf(p))]))
  }

  lemma MoveKeepsOutcomes(s: State, s': State, t: Tid)
    requires OutcomeInvariant(s) && LogMove(s, s', t)
    ensures OutcomeInvariant(s')
  {
    forall k | 0 <= k < |s'.log|
      ensures var t' := s'.log[k].caller;
              t' in s'.threads && Rank(s'.threads[t']) == Some(k) && s'.log[k] == Section(t', s'.threads[t'].op, StatusOf(s'.threads[t']))
    {
      if k < |s.log| {
        assert Rank(s.threads[s.log[k].caller]) == Some(k);
      }
    }
  }

  lemma SettlingMovesLog(defaults: Config, s: State, step: Step)
    requires LockInvariant(s) && Enabled(s, step) && (step.Publish? || (step.Write? && !step.ok))
    ensures LogMove(s, Apply(defaults, s, step), step.t)
  {
    assert InSection(s.threads[step.t]) && s.lock == Some(step.t);
  }

  lemma StepMovesLog(defaults: Config, s: State, step: Step)
    requires LockInvariant(s) && Enabled(s, step)
    ensures LogMove(s, Apply(defaults, s, step), step.t)
  {
    if step.Publish? || (step.Write? && !step.ok) {
      SettlingMovesLog(defaults, s, step);
    }
  }

  lemma MarkedKeepsCallers(log: seq<Section>, ticket: nat, status: Status)
    ensures Callers(Marked(log, ticket, status)) == Callers(log)
  {
  }

  lemma StepMovesOrder(defaults: Config, s: State, step: Step)
    requires Enabled(s, step)
    ensures Callers(Apply(defaults, s, step).log) == Callers(s.log) + if step.Lock? then [step.t] else []
  {
    match step
    case Write(t, ok) => MarkedKeepsCallers(s.log, s.threads[t].ticket, Failed);
    case Publish(t) => MarkedKeepsCallers(s.log, s.threads[t].ticket, Done);
    case _ =>
  }

  lemma {:induction false} RunKeepsInvariant(defaults: Config, c: Config, steps: seq<Step>)
    requires Run(defaults, c, steps).Some?
    ensures var s := Run(defaults, c, steps).value;
            Invariant(defaults, c, s) && FileInvariant(s)
  {
    if steps != [] {
      var init := steps[..|steps| - 1];
      RunKeepsInvariant(defaults, c, init);
      var s := Run(defaults, c, init).value;
      StepKeepsInvariant(defaults, c, s, steps[|steps| - 1]);
      StepKeepsFileInvariant(defaults, c, s, steps[|steps| - 1]);
    }
  }

  lemma {:induction false} RunKeepsOutcomes(defaults: Config, c: Config, steps: seq<Step>)
    requires Run(defaults, c, steps).Some?
    ensures OutcomeInvariant(Run(defaults, c, steps).value)
  {
    if steps != [] {
      var init, step := steps[..|steps| - 1], steps[|steps| - 1];
      RunKeepsOutcomes(defaults, c, init);
      RunKeepsInvariant(defaults, c, init);
      StepMovesLog(defaults, Run(defaults, c, init).value, step);
      MoveKeepsOutcomes(Run(defaults, c, init).value, Run(defaults, c, steps).value, step.t);
    }
  }

  lemma {:induction false} LogInLockOrder(defaults: Config, c: Config, steps: seq<Step>)
    requires Run(defaults, c, steps).Some?
    ensures Callers(Run(defaults, c, steps).value.log) == Lockers(steps)
  {
    if steps != [] {
      LogInLockOrder(defaults, c, steps[..|steps| - 1]);
      StepMovesOrder(defaults, Run(defaults, c, steps[..|steps| - 1]).value, steps[|steps| - 1]);
    }
  }

  /** The log as a whole says no more than the callers know. */
  lemma {:induction false} AppliedIsAccumulated(defaults: Config, c: Config, s: State, n: nat)
    requires OutcomeInvariant(s) && n <= |s.log|
    ensures Applied(defaults, c, s.log[..n]) == Accumulated(defaults, c, s, Callers(s.log)[..n])
  {
    if n > 0 {
      AppliedIsAccumulated(defaults, c, s, n - 1);
      assert s.log[..n][..n - 1] == s.log[..n - 1];
      assert Callers(s.log)[..n][..n - 1] == Callers(s.log)[..n - 1];
      var t := s.log[n - 1].caller;
      assert Callers(s.log)[..n][n - 1] == t;
      assert s.log[n - 1] == Section(t, s.threads[t].op, StatusOf(s.threads[t]));
    }
  }

  lemma LockersAreRanked(defaults: Config, c: Config, steps: seq<Step>, t: Tid)
    requires Run(defaults, c, steps).Some?
    ensures var s := Run(defaults, c, steps).value;
            t in Lockers(steps) <==> t in s.threads && Rank(s.threads[t]).Some?
  {
    RunKeepsOutcomes(defaults, c, steps);
    LogInLockOrder(defaults, c, steps);
    var s := Run(defaults, c, steps).value;
    if t in s.threads && Rank(s.threads[t]).Some? {
      assert Callers(s.log)[Rank(s.threads[t]).value] == t;
    }
  }

  lemma {:induction false} LockersGrow(steps: seq<Step>, n: nat)
    requires n <= |steps|
    ensures Lockers(steps[..n]) <= Lockers(steps)
  {
    if n == |steps| {
      assert steps[..n] == steps;
    } else {
      LockersGrow(steps[..|steps| - 1], n);
      assert steps[..|steps| - 1][..n] == steps[..n];
    }
  }

  lemma ChangeShows(defaults: Config, op: Op, c: Config)
    ensures Shows(defaults, op, Change(defaults, op, c))
    ensures Skips(op, c) ==> Shows(defaults, op, c)
  {
  }

  /** The steps of a call that nobody interrupts. */
  function Alone(defaults: Config, s: State, t: Tid, op: Op, saves: bool): State
    requires s.lock == None && Enabled(s, Begin(t, op))
  {
    var checked := Apply(defaults, Apply(defaults, s, Begin(t, op)), Check(t));
    if checked.threads[t].Returned? then checked
    else
      var copied := Apply(defaults, Apply(defaults, checked, Lock(t)), Copy(t));
      var written := Apply(defaults, copied, Write(t, saves));
      if saves then Apply(defaults, written, Publish(t)) else written
  }

  /** Without interference the steps of a call add up to the sequential method. */
  lemma AloneIsEffect(defaults: Config, s: State, t: Tid, op: Op, saves: bool)
    requires s.lock == None && Enabled(s, Begin(t, op))
    ensures var s' := Alone(defaults, s, t, op, saves);
            && s'.lock == None && t in s'.threads && s'.threads[t].Returned?
            && (s'.published, s'.threads[t].outcome) == Effect(defaults, op, s.published, saves)
            && s'.file == if Accepts(op) && !Skips(op, s.published) && saves then Some(s'.published) else s.file
  {
  }

  // ----- Main results

  /** After every run the published configuration is the initial one, changed by exactly the calls that took the lock and
      were told success, in the order in which they took it. None is lost, and none is applied twice. */
  lemma UpdatesLinearize(defaults: Config, c: Config, steps: seq<Step>)
    requires Run(defaults, c, steps).Some?
    ensures var s, order := Run(defaults, c, steps).value, Lockers(steps);
            && s.published == Accumulated(defaults, c, s, order)
            && (forall i, j :: 0 <= i < j < |order| ==> order[i] != order[j])
  {
    RunKeepsInvariant(defaults, c, steps);
    RunKeepsOutcomes(defaults, c, steps);
    LogInLockOrder(defaults, c, steps);
    var s := Run(defaults, c, steps).value;
    AppliedIsAccumulated(defaults, c, s, |s.log|);
    assert s.log[..|s.log|] == s.log && Callers(s.log)[..|s.log|] == Callers(s.log);
    forall i, j | 0 <= i < j < |s.log| ensures s.log[i].caller != s.log[j].caller {
      assert Rank(s.threads[s.log[i].caller]) == Some(i);
    }
  }

  /** The order respects time: a call that took the lock before another one began comes before it. */
  lemma OrderRespectsTime(defaults: Config, c: Config, steps: seq<Step>, n: nat, i: nat, j: nat)
    requires Run(defaults, c, steps).Some? && n <= |steps|
    requires i < |Lockers(steps)| && j < |Lockers(steps)|
    requires Run(defaults, c, steps[..n]).Some?
    requires Lockers(steps)[i] in Lockers(steps[..n])
    requires Lockers(steps)[j] !in Run(defaults, c, steps[..n]).value.threads
    ensures i < j
  {
    UpdatesLinearize(defaults, c, steps);
    LockersGrow(steps, n);
    var early := Lockers(steps[..n]);
    LockersAreRanked(defaults, c, steps[..n], Lockers(steps)[j]);
    var k :| 0 <= k < |early| && early[k] == Lockers(steps)[i];
    assert Lockers(steps)[k] == early[k];
    assert forall m :: 0 <= m < |early| ==> early[m] == Lockers(steps)[m];
    assert forall m :: 0 <= m < |early| ==> early[m] != Lockers(steps)[j];
  }

  // ----- What each operation does to the configuration

  /** No operation but a reset touches a field that it does not name, and a toggle negates its own. */
  lemma ChangesOnlyItsOwn(defaults: Config, op: Op, c: Config)
    requires op != ResetToDefaults
    ensures var c' := Change(defaults, op, c);
            && (!op.UpdateModel? ==> c'.model == c.model)
            && (!op.UpdateLanguage? ==> c'.language == c.language)
            && (!op.UpdateOutputMode? ==> c'.outputMode == c.outputMode)
            && (!op.UpdateRecordingMethod? ==> c'.recordingMethod == c.recordingMethod)
            && (!op.UpdateHotkeyMode? ==> c'.hotkeyMode == c.hotkeyMode)
            && c'.notifications == (if op.ToggleWorkflowNotifications? then !c.notifications else c.notifications)
            && ((c'.startRecording == c.startRecording && c'.stopRecording == c.stopRecording)
                || (op.UpdateHotkey? && (op.action == "start_recording" || op.action == "stop_recording")))
            && (c'.showConfig == c.showConfig || (op.UpdateHotkey? && op.action == "show_config"))
            && (c'.resetToDefaults == c.resetToDefaults || (op.UpdateHotkey? && op.action == "reset_to_defaults"))
            && c'.others == c.others
  {
  }

  /** An operation returns early exactly where carrying it out would change nothing; saving, resetting, toggling and
      setting a hotkey never do. */
  lemma SkipsIff(defaults: Config, op: Op, c: Config)
    ensures Skips(op, c) <==>
              && Change(defaults, op, c) == c
              && !op.SaveConfig? && !op.ResetToDefaults? && !op.ToggleWorkflowNotifications? && !op.UpdateHotkey?
  {
  }

  /** A hotkey action is accepted exactly if there is a setting for it. */
  lemma AcceptsHotkeyIff(defaults: Config, action: string, combo: string)
    ensures Accepts(UpdateHotkey(action, combo)) <==> exists c :: Change(defaults, UpdateHotkey(action, combo), c) != c
  {
    var other := if combo == "" then "x" else "";
    var c := Config("", "", "", "", false, "", other, other, other, other, 0);
    if Accepts(UpdateHotkey(action, combo)) {
      assert Change(defaults, UpdateHotkey(action, combo), c) != c;
    }
  }

  predicate KnownModes(c: Config) {
    (c.hotkeyMode == "toggle" || c.hotkeyMode == "ptt") && (c.recordingMethod == "arecord" || c.recordingMethod == "ffmpeg")
  }

  /** Any other argument is accepted exactly if it keeps hotkey mode and recording method known. */
  lemma AcceptsIff(defaults: Config, op: Op)
    requires KnownModes(defaults) && !op.UpdateHotkey?
    ensures Accepts(op) <==> forall c :: KnownModes(c) ==> KnownModes(Change(defaults, op, c))
  {
    if !Accepts(op) {
      assert !KnownModes(Change(defaults, op, defaults));
    }
  }

  ghost predicate OnlyAccepted(s: State) {
    && KnownModes(s.published)
    && (forall t :: t in s.threads && (s.threads[t].Waiting? || InSection(s.threads[t])) ==> Accepts(s.threads[t].op))
    && (forall t :: t in s.threads && (s.threads[t].Copied? || s.threads[t].Saved?) ==> KnownModes(s.threads[t].next))
  }

  lemma ChangeKeepsModes(defaults: Config, op: Op, c: Config)
    requires KnownModes(defaults) && KnownModes(c) && Accepts(op)
    ensures KnownModes(Change(defaults, op, c))
  {
  }

  /** Hotkey mode and recording method only ever have known values, in every run that starts with known ones. */
  lemma {:induction false} ModesStayKnown(defaults: Config, c: Config, steps: seq<Step>)
    requires KnownModes(defaults) && KnownModes(c) && Run(defaults, c, steps).Some?
    ensures OnlyAccepted(Run(defaults, c, steps).value)
  {
    if steps != [] {
      ModesStayKnown(defaults, c, steps[..|steps| - 1]);
      StepKeepsModes(defaults, Run(defaults, c, steps[..|steps| - 1]).value, steps[|steps| - 1]);
    }
  }

  lemma StepKeepsModes(defaults: Config, s: State, step: Step)
    requires KnownModes(defaults) && OnlyAccepted(s) && Enabled(s, step)
    ensures OnlyAccepted(Apply(defaults, s, step))
  {
    if step.Copy? {
      ChangeKeepsModes(defaults, s.threads[step.t].op, s.published);
    }
  }

  /** Whether some call in the given order was a successful reset. */
  predicate WasReset(s: State, order: seq<Tid>) {
    exists i :: 0 <= i < |order| && Succeeded(s, order[i]) && s.threads[order[i]].op == ResetToDefaults
  }

  /** The successful toggles since the last successful reset. */
  function Toggles(s: State, order: seq<Tid>): nat {
    if order == [] then 0
    else
      var before, t := Toggles(s, order[..|order| - 1]), order[|order| - 1];
      if !Succeeded(s, t) then before
      else if s.threads[t].op == ResetToDefaults then 0
      else if s.threads[t].op == ToggleWorkflowNotifications then before + 1
      else before
  }

  lemma {:induction false} AccumulatedNotifications(defaults: Config, c: Config, s: State, order: seq<Tid>)
    ensures Accumulated(defaults, c, s, order).notifications ==
            ((if WasReset(s, order) then defaults.notifications else c.notifications) != (Toggles(s, order) % 2 == 1))
  {
    if order != [] {
      var init, t := order[..|order| - 1], order[|order| - 1];
      AccumulatedNotifications(defaults, c, s, init);
      WasResetSnoc(s, order);
      if Succeeded(s, t) && s.threads[t].op != ResetToDefaults {
        ChangesOnlyItsOwn(defaults, s.threads[t].op, Accumulated(defaults, c, s, init));
      }
    }
  }

  lemma WasResetSnoc(s: State, order: seq<Tid>)
    requires order != []
    ensures var t := order[|order| - 1];
            WasReset(s, order) <==> WasReset(s, order[..|order| - 1]) || (Succeeded(s, t) && s.threads[t].op == ResetToDefaults)
  {
    var n := |order| - 1;
    var init := order[..n];
    assert forall i :: 0 <= i < n ==> order[i] == init[i];
    if WasReset(s, init) {
      var i :| 0 <= i < n && Succeeded(s, init[i]) && s.threads[init[i]].op == ResetToDefaults;
      assert Succeeded(s, order[i]);
    }
    if Succeeded(s, order[n]) && s.threads[order[n]].op == ResetToDefaults {
      assert WasReset(s, order);
    }
  }

  /** No toggle is lost: after every run the published flag is the initial one, or the default one after a successful reset,
      negated once for each toggle since then that was told success. */
  lemma TogglesCount(defaults: Config, c: Config, steps: seq<Step>)
    requires Run(defaults, c, steps).Some?
    ensures var s, order := Run(defaults, c, steps).value, Lockers(steps);
            s.published.notifications ==
            ((if WasReset(s, order) then defaults.notifications else c.notifications) != (Toggles(s, order) % 2 == 1))
  {
    UpdatesLinearize(defaults, c, steps);
    AccumulatedNotifications(defaults, c, Run(defaults, c, steps).value, Lockers(steps));
  }

  /** Once an update has been saved, the file equals the published configuration in every reachable state,
      except between one writer's save and its publish, when it is what that writer is about to publish. */
  lemma FileAgreesWithPublished(defaults: Config, c: Config, steps: seq<Step>)
    requires Run(defaults, c, steps).Some?
    ensures var s := Run(defaults, c, steps).value;
            && (EverSaved(s) && !Publishing(s) ==> s.file == Some(s.published))
            && (Publishing(s) ==>
                  && s.file == Some(s.threads[s.lock.value].next)
                  && Apply(defaults, s, Publish(s.lock.value)).published == s.file.value)
  {
    RunKeepsInvariant(defaults, c, steps);
  }

  /** Every caller that got success saw a moment, between its call and its return, at which the published configuration
      showed what it had asked for. One that did not take the lock returned early, for the configuration then had its
      argument already; toggles and resets never do. */
  lemma {:induction false} SuccessWasVisible(defaults: Config, c: Config, steps: seq<Step>, t: Tid) returns (moment: nat)
    requires Run(defaults, c, steps).Some?
    requires var s := Run(defaults, c, steps).value;
             t in s.threads && s.threads[t].Returned? && s.threads[t].outcome == Ok
    ensures var p := Run(defaults, c, steps).value.threads[t];
            && p.since <= moment <= |steps|
            && Run(defaults, c, steps[..moment]).Some?
            && Shows(defaults, p.op, Run(defaults, c, steps[..moment]).value.published)
            && (t !in Lockers(steps) ==> Skips(p.op, Run(defaults, c, steps[..moment]).value.published))
  {
    var n := |steps| - 1;
    var init, step := steps[..n], steps[n];
    var s := Run(defaults, c, init).value;
    SinceIsPast(defaults, c, init);
    ClockCounts(defaults, c, init);
    if step.t == t {
      assert steps[..|steps|] == steps;
      LockersAreRanked(defaults, c, steps, t);
      if step.Publish? {
        RunKeepsInvariant(defaults, c, init);
        PublishShows(defaults, c, s, t);
        moment := |steps|;
      } else {
        CheckShows(defaults, s, t);
        moment := n;
      }
    } else {
      moment := SuccessWasVisible(defaults, c, init, t);
      assert init[..moment] == steps[..moment];
      LockersGrow(steps, n);
    }
  }

  lemma PublishShows(defaults: Config, c: Config, s: State, t: Tid)
    requires Invariant(defaults, c, s) && Enabled(s, Publish(t))
    ensures Shows(defaults, s.threads[t].op, Apply(defaults, s, Publish(t)).published)
  {
    assert InSection(s.threads[t]) && s.lock == Some(t);
    ChangeShows(defaults, s.threads[t].op, s.published);
  }

  lemma CheckShows(defaults: Config, s: State, t: Tid)
    requires Enabled(s, Check(t)) && Apply(defaults, s, Check(t)).threads[t].Returned?
    requires Apply(defaults, s, Check(t)).threads[t].outcome == Ok
    ensures Skips(s.threads[t].op, s.published) && Shows(defaults, s.threads[t].op, s.published)
  {
    ChangeShows(defaults, s.threads[t].op, s.published);
  }

  lemma {:induction false} SinceIsPast(defaults: Config, c: Config, steps: seq<Step>)
    requires Run(defaults, c, steps).Some?
    ensures forall t :: t in Run(defaults, c, steps).value.threads ==>
              Run(defaults, c, steps).value.threads[t].since <= |steps|
  {
    if steps != [] {
      SinceIsPast(defaults, c, steps[..|steps| - 1]);
      ClockCounts(defaults, c, steps[..|steps| - 1]);
    }
  }

  lemma {:induction false} ClockCounts(defaults: Config, c: Config, steps: seq<Step>)
    requires Run(defaults, c, steps).Some?
    ensures Run(defaults, c, steps).value.clock == |steps|
  {
    if steps != [] {
      ClockCounts(defaults, c, steps[..|steps| - 1]);
    }
  }
}
