/** Model switches that overlap: the transaction of internal/services/actions.go holds no lock from its load to its save. */
module ModelSwitchOverlap {
  import opened Optional
  import ModelSwitch

  type Tid = nat

  /** Where a switch stands. `previous` is the setting that it read first. */
  datatype Pc =
    | Loading(id: string, previous: string)
    | Comparing(id: string, previous: string)
    | Saving(id: string, previous: string)
    | RollingBack(previous: string)
    | Finished(rollbackFailed: bool)

  datatype State = State(configured: string, loaded: string, threads: map<Tid, Pc>)

  /** A load or a rollback ends when it installs its engine, a save when it publishes the setting. */
  datatype Step =
    | Begin(t: Tid, id: string)
    | Load(t: Tid, ok: bool)
    | Compare(t: Tid)
    | Save(t: Tid, ok: bool)
    | Rollback(t: Tid, ok: bool)

  predicate Enabled(s: State, step: Step) {
    match step
    case Begin(t, _) => t !in s.threads
    case Load(t, ok) => t in s.threads && s.threads[t].Loading? && (ok ==> s.threads[t].id in ModelSwitch.CATALOG)
    case Compare(t) => t in s.threads && s.threads[t].Comparing?
    case Save(t, _) => t in s.threads && s.threads[t].Saving?
    case Rollback(t, _) => t in s.threads && s.threads[t].RollingBack?
  }

  function At(s: State, t: Tid, pc: Pc): State {
    s.(threads := s.threads[t := pc])
  }

  function Apply(s: State, step: Step): State
    requires Enabled(s, step)
  {
    match step
    case Begin(t, id) => At(s, t, Loading(id, s.configured))
    case Load(t, ok) =>
      var p := s.threads[t];
      if ok then At(s, t, Comparing(p.id, p.previous)).(loaded := p.id) else At(s, t, Finished(false))
    case Compare(t) =>
      var p := s.threads[t];
      At(s, t, if s.configured == p.id then Finished(false) else Saving(p.id, p.previous))
    case Save(t, ok) =>
      var p := s.threads[t];
      if ok then At(s, t, Finished(false)).(configured := p.id)
      else At(s, t, if p.previous != "" then RollingBack(p.previous) else Finished(false))
    case Rollback(t, ok) =>
      var p := s.threads[t];
      if ok then At(s, t, Finished(false)).(loaded := p.previous) else At(s, t, Finished(true))
  }

  /** The runs of a program that started with model `c`. */
  function Run(c: string, steps: seq<Step>): Option<State> {
    if steps == [] then Some(State(c, c, map[]))
    else
      var s, step := Run(c, steps[..|steps| - 1]), steps[|steps| - 1];
      if s.Some? && Enabled(s.value, step) then Some(Apply(s.value, step)) else None
  }

  function Unfinished(s: State): set<Tid> {
    set t | t in s.threads && !s.threads[t].Finished?
  }

  /** The most switches that were under way at the same time. */
  function Overlap(c: string, steps: seq<Step>): nat {
    if steps == [] then 0
    else
      var before, s := Overlap(c, steps[..|steps| - 1]), Run(c, steps);
      if s.Some? && |Unfinished(s.value)| > before then |Unfinished(s.value)| else before
  }

  predicate NoRollbackFailed(s: State) {
    forall t :: t in s.threads ==> s.threads[t] != Finished(true)
  }

  // ----- A switch on its own

  /** The steps of a switch that nothing interrupts. */
  function Alone(s: State, t: Tid, id: string, loadOk: bool, saveOk: bool, backOk: bool): State
    requires Enabled(s, Begin(t, id)) && (loadOk ==> id in ModelSwitch.CATALOG)
  {
    var loaded := Apply(Apply(s, Begin(t, id)), Load(t, loadOk));
    if !loadOk then loaded
    else
      var compared := Apply(loaded, Compare(t));
      if compared.threads[t].Finished? then compared
      else
        var saved := Apply(compared, Save(t, saveOk));
        if saved.threads[t].Finished? then saved else Apply(saved, Rollback(t, backOk))
  }

  /** Without interference the steps add up to the sequential transaction. */
  lemma AloneIsSwitch(s: State, t: Tid, id: string, m: ModelSwitch.State, w: ModelSwitch.SwitchWorld)
    requires t !in s.threads && m.configured == s.configured && m.loaded == s.loaded && m.configured in ModelSwitch.CATALOG
    ensures var s' := Alone(s, t, id, !ModelSwitch.Blocked(m, id, w.load), w.saveOk, !ModelSwitch.Blocked(m, m.configured, w.rollback));
            var (m', result) := ModelSwitch.SwitchedModel(m, id, w);
            && s'.configured == m'.configured && s'.loaded == m'.loaded
            && s'.threads[t] == Finished(result == ModelSwitch.SaveFailed(ModelSwitch.RollbackFailed))
  {
    ModelSwitch.CatalogFacts();
    ModelSwitch.LoadedUnlessBlocked(m, id, w.load);
    ModelSwitch.LoadedUnlessBlocked(ModelSwitch.Loaded(m, id, w.load).0, m.configured, w.rollback);
    if id != m.configured {
      ModelSwitch.RollbackGuards(m, id, w.load, w.rollback);
    }
  }

  // ----- One switch at a time

  /** What holds while at most one switch is under way. */
  ghost predicate Serial(s: State) {
    && s.configured in ModelSwitch.CATALOG
    && (forall t, t' :: t in Unfinished(s) && t' in Unfinished(s) ==> t == t')
    && (forall t :: t in Unfinished(s) ==> Halfway(s, s.threads[t]))
    && (Unfinished(s) == {} ==> s.loaded == s.configured)
  }

  predicate Halfway(s: State, pc: Pc) {
    match pc
    case Loading(_, previous) => s.loaded == s.configured == previous
    case Comparing(id, previous) => s.loaded == id && id in ModelSwitch.CATALOG && s.configured == previous
    case Saving(id, previous) => s.loaded == id && id in ModelSwitch.CATALOG && s.configured == previous
    case RollingBack(previous) => s.configured == previous
    case Finished(_) => true
  }

  lemma UnfinishedAfter(s: State, step: Step)
    requires Enabled(s, step)
    ensures Unfinished(Apply(s, step)) == if Apply(s, step).threads[step.t].Finished? then Unfinished(s) - {step.t} else Unfinished(s) + {step.t}
  {
  }

  lemma AtMostOne(s: State)
    requires |Unfinished(s)| <= 1
    ensures forall t, t' :: t in Unfinished(s) && t' in Unfinished(s) ==> t == t'
  {
    forall t, t' | t in Unfinished(s) && t' in Unfinished(s) ensures t == t' {
      assert |Unfinished(s) - {t}| == 0;
      assert t' !in Unfinished(s) - {t};
    }
  }

  lemma OnlyThisOne(s: State, step: Step)
    requires Serial(s) && Enabled(s, step) && |Unfinished(Apply(s, step))| <= 1
    ensures Unfinished(s) == if step.Begin? then {} else {step.t}
    ensures Unfinished(Apply(s, step)) <= {step.t}
  {
    UnfinishedAfter(s, step);
    AtMostOne(Apply(s, step));
    if step.Begin? {
      assert step.t in Unfinished(Apply(s, step));
    } else {
      assert step.t in Unfinished(s);
    }
  }

  lemma StepKeepsSerial(s: State, step: Step)
    requires Serial(s) && Enabled(s, step)
    requires |Unfinished(Apply(s, step))| <= 1 && NoRollbackFailed(Apply(s, step))
    ensures Serial(Apply(s, step))
  {
    ModelSwitch.CatalogFacts();
    OnlyThisOne(s, step);
    var s' := Apply(s, step);
    assert !step.Begin? ==> Halfway(s, s.threads[step.t]);
    assert Halfway(s', s'.threads[step.t]);
    assert s'.threads[step.t].Finished? ==> s'.loaded == s'.configured;
    assert !s'.threads[step.t].Finished? ==> step.t in Unfinished(s');
  }

  lemma NoRollbackFailedBefore(s: State, step: Step)
    requires Enabled(s, step) && NoRollbackFailed(Apply(s, step))
    ensures NoRollbackFailed(s)
  {
    forall t | t in s.threads ensures s.threads[t] != Finished(true) {
      assert t == step.t || Apply(s, step).threads[t] == s.threads[t];
    }
  }

  lemma {:induction false} RunKeepsSerial(c: string, steps: seq<Step>)
    requires c in ModelSwitch.CATALOG && Run(c, steps).Some? && Overlap(c, steps) <= 1
    requires NoRollbackFailed(Run(c, steps).value)
    ensures Serial(Run(c, steps).value)
  {
    if steps != [] {
      var init, step := steps[..|steps| - 1], steps[|steps| - 1];
      var s := Run(c, init).value;
      NoRollbackFailedBefore(s, step);
      RunKeepsSerial(c, init);
      StepKeepsSerial(s, step);
    } else {
      assert Unfinished(State(c, c, map[])) == {};
    }
  }

  // ----- Main results

  /** Switches one at a time: between them the loaded model is the configured one, unless some rollback failed. */
  lemma SerialSwitchesStayInStep(c: string, steps: seq<Step>)
    requires c in ModelSwitch.CATALOG && Run(c, steps).Some? && Overlap(c, steps) <= 1
    requires var s := Run(c, steps).value; NoRollbackFailed(s) && Unfinished(s) == {}
    ensures Run(c, steps).value.loaded == Run(c, steps).value.configured
  {
    RunKeepsSerial(c, steps);
  }

  const CROSSING := [
    Begin(1, "base-q5_1"), Begin(2, "medium-q5_0"), Load(1, true), Load(2, true),
    Compare(2), Save(2, true), Compare(1), Save(1, true)]

  /** The first `n` crossing steps lead to `s`, with `k` switches under way there and at most two before. */
  ghost predicate Crossed(n: nat, s: State, k: nat) {
    && n <= |CROSSING|
    && Run("small-q5_1", CROSSING[..n]) == Some(s) && |Unfinished(s)| == k
    && Overlap("small-q5_1", CROSSING[..n]) <= 2
  }

  lemma Cross(n: nat, s: State, k: nat, s': State, k': nat)
    requires Crossed(n, s, k) && n < |CROSSING| && Enabled(s, CROSSING[n])
    requires s' == Apply(s, CROSSING[n]) && |Unfinished(s')| == k' <= 2
    ensures Crossed(n + 1, s', k')
  {
    assert CROSSING[..n + 1][..n] == CROSSING[..n];
  }

  lemma HalfCrossed()
    ensures Crossed(4, State("small-q5_1", "medium-q5_0",
                             map[1 := Comparing("base-q5_1", "small-q5_1"), 2 := Comparing("medium-q5_0", "small-q5_1")]), 2)
  {
    var a, b, c := "base-q5_1", "medium-q5_0", "small-q5_1";
    var s0 := State(c, c, map[]);
    assert Unfinished(s0) == {} && CROSSING[..0] == [];
    var s1 := State(c, c, map[1 := Loading(a, c)]);
    assert Unfinished(s1) == {1};
    Cross(0, s0, 0, s1, 1);
    var s2 := State(c, c, map[1 := Loading(a, c), 2 := Loading(b, c)]);
    assert Unfinished(s2) == {1, 2};
    Cross(1, s1, 1, s2, 2);
    var s3 := State(c, a, map[1 := Comparing(a, c), 2 := Loading(b, c)]);
    assert Unfinished(s3) == {1, 2};
    Cross(2, s2, 2, s3, 2);
    var s4 := State(c, b, map[1 := Comparing(a, c), 2 := Comparing(b, c)]);
    assert Unfinished(s4) == {1, 2};
    Cross(3, s3, 2, s4, 2);
  }

  lemma NearlyCrossed()
    ensures Crossed(6, State("medium-q5_0", "medium-q5_0",
                             map[1 := Comparing("base-q5_1", "small-q5_1"), 2 := Finished(false)]), 1)
  {
    var a, b, c := "base-q5_1", "medium-q5_0", "small-q5_1";
    HalfCrossed();
    var s4 := State(c, b, map[1 := Comparing(a, c), 2 := Comparing(b, c)]);
    var s5 := State(c, b, map[1 := Comparing(a, c), 2 := Saving(b, c)]);
    assert Unfinished(s5) == {1, 2};
    Cross(4, s4, 2, s5, 2);
    var s6 := State(b, b, map[1 := Comparing(a, c), 2 := Finished(false)]);
    assert Unfinished(s6) == {1};
    Cross(5, s5, 2, s6, 1);
  }

  lemma AllCrossed()
    ensures Crossed(8, State("base-q5_1", "medium-q5_0", map[1 := Finished(false), 2 := Finished(false)]), 0)
  {
    var a, b, c := "base-q5_1", "medium-q5_0", "small-q5_1";
    NearlyCrossed();
    var s6 := State(b, b, map[1 := Comparing(a, c), 2 := Finished(false)]);
    var s7 := State(b, b, map[1 := Saving(a, c), 2 := Finished(false)]);
    assert Unfinished(s7) == {1};
    Cross(6, s6, 1, s7, 1);
    var s8 := State(a, b, map[1 := Finished(false), 2 := Finished(false)]);
    assert Unfinished(s8) == {};
    Cross(7, s7, 1, s8, 0);
  }

  /** Two switches of which everything succeeds: they install in one order and save in the other, and the program ends up
      with one model loaded and the other configured. */
  lemma CrossingSwitches()
    ensures Run("small-q5_1", CROSSING).Some? && Overlap("small-q5_1", CROSSING) <= 2
    ensures var s := Run("small-q5_1", CROSSING).value;
            && s.loaded == "medium-q5_0" && s.configured == "base-q5_1"
            && Unfinished(s) == {} && NoRollbackFailed(s)
  {
    AllCrossed();
    assert CROSSING[..8] == CROSSING;
  }

  /** A run after which no switch is under way and no rollback has failed, but another model is loaded than configured. */
  ghost predicate OutOfStep(c: string, k: nat, steps: seq<Step>) {
    && c in ModelSwitch.CATALOG && Run(c, steps).Some? && Overlap(c, steps) <= k
    && var s := Run(c, steps).value;
       Unfinished(s) == {} && NoRollbackFailed(s) && s.loaded != s.configured
  }

  /** Engine and setting stay in step on all runs with at most `k` switches at a time exactly when `k` is at most one. */
  lemma InStepIffNoOverlap(k: nat)
    ensures (forall c, steps :: !OutOfStep(c, k, steps)) <==> k <= 1
  {
    if k <= 1 {
      forall c, steps ensures !OutOfStep(c, k, steps) {
        if OutOfStep(c, k, steps) {
          SerialSwitchesStayInStep(c, steps);
        }
      }
    } else {
      CrossingSwitches();
      assert OutOfStep("small-q5_1", k, CROSSING);
    }
  }
}
