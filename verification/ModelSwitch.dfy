/** The model-switch transaction: SwitchModel of internal/services/actions.go over AudioService.SwitchModel,
    ConfigService.UpdateModel and the model files of stt/manager/model_manager.go. */
module ModelSwitch {
  import opened Optional

  const DEFAULT_MODEL := "small-q5_1"

  // The catalog of internal/constants/stt_models.go: model ID to file name
  const CATALOG: map<string, string> := map[
    "base-q5_1" := "ggml-base-q5_1.bin",
    "small-q5_1" := "small-q5_1.bin",
    "medium-q5_0" := "ggml-medium-q5_0.bin",
    "large-v3-turbo-q5_0" := "ggml-large-v3-turbo-q5_0.bin",
    "large-v3-q5_0" := "ggml-large-v3-q5_0.bin",
    "parakeet-tdt-0.6b-v3-q8_0" := "ggml-parakeet-tdt-0.6b-v3-q8_0.bin"
  ]

  /** `configured` is the model setting, `loaded` the model of the installed engine; the files are those that
      pass validation, in the user data directory or shipped with the program. */
  datatype State = State(configured: string, loaded: string, downloaded: set<string>, bundled: set<string>)

  /** The environment of one AudioService.SwitchModel. */
  datatype LoadWorld = LoadWorld(recordingBefore: bool, downloadOk: bool, engineOk: bool, recordingAfter: bool)

  datatype SwitchWorld = SwitchWorld(load: LoadWorld, saveOk: bool, rollback: LoadWorld)

  datatype DeleteWorld = DeleteWorld(recording: bool, removeOk: bool)

  datatype Rollback = NotAttempted | RolledBack | RollbackFailed

  datatype SwitchResult = Switched | LoadFailed | SaveFailed(rollback: Rollback)

  // ----- Specification

  function ConfiguredModel(s: State): string {
    if s.configured != "" then s.configured else DEFAULT_MODEL
  }

  predicate FilePresent(s: State, id: string) {
    id in CATALOG && (CATALOG[id] in s.downloaded || CATALOG[id] in s.bundled)
  }

  function Resolved(s: State, id: string, downloadOk: bool): Option<State> {
    if id !in CATALOG then None
    else if FilePresent(s, id) then Some(s)
    else if downloadOk then Some(s.(downloaded := s.downloaded + {CATALOG[id]}))
    else None
  }

  /** AudioService.SwitchModel: the state after it and whether it succeeded. */
  function Loaded(s: State, id: string, w: LoadWorld): (State, bool) {
    if w.recordingBefore then (s, false)
    else
      match Resolved(s, id, w.downloadOk)
      case None => (s, false)
      case Some(found) =>
        if !w.engineOk || w.recordingAfter then (found, false) else (found.(loaded := id), true)
  }

  function Updated(s: State, id: string, saveOk: bool): (State, bool) {
    if s.configured == id then (s, true)
    else if saveOk then (s.(configured := id), true)
    else (s, false)
  }

  function SwitchedModel(s: State, id: string, w: SwitchWorld): (State, SwitchResult) {
    var (s1, loadOk) := Loaded(s, id, w.load);
    if !loadOk then (s1, LoadFailed)
    else
      var (s2, saveOk) := Updated(s1, id, w.saveOk);
      if saveOk then (s2, Switched)
      else if s.configured == "" then (s2, SaveFailed(NotAttempted))
      else
        var (s3, back) := Loaded(s2, s.configured, w.rollback);
        (s3, SaveFailed(if back then RolledBack else RollbackFailed))
  }

  function Deleted(s: State, id: string, w: DeleteWorld): (State, bool) {
    if w.recording || id !in CATALOG || id == ConfiguredModel(s) then (s, false)
    else if CATALOG[id] !in s.downloaded || !w.removeOk then (s, false)
    else (s.(downloaded := s.downloaded - {CATALOG[id]}), true)
  }

  // ----- The program

  class ServiceContainer {
    var configured: string
    var loaded: string
    var downloaded: set<string>
    const bundled: set<string>

    constructor (configured: string, loaded: string, downloaded: set<string>, bundled: set<string>)
      ensures Current() == State(configured, loaded, downloaded, bundled)
    {
      this.configured, this.loaded, this.downloaded, this.bundled := configured, loaded, downloaded, bundled;
    }

    function Current(): State
      reads this
    {
      State(configured, loaded, downloaded, bundled)
    }

    // ModelManager.resolveModel
    method ResolveModel(id: string, downloadOk: bool) returns (ok: bool)
      modifies this`downloaded
      ensures ok == Resolved(old(Current()), id, downloadOk).Some?
      ensures Current() == if ok then Resolved(old(Current()), id, downloadOk).value else old(Current())
    {
      if id !in CATALOG {
        return false;
      }
      var fileName := CATALOG[id];
      if fileName in downloaded || fileName in bundled {
        return true;
      }
      if !downloadOk {
        return false;
      }
      downloaded := downloaded + {fileName};
      return true;
    }

    // AudioService.SwitchModel
    method LoadModel(id: string, w: LoadWorld) returns (ok: bool)
      modifies this`downloaded, this`loaded
      ensures (Current(), ok) == Loaded(old(Current()), id, w)
    {
      if w.recordingBefore {
        return false;
      }
      ok := ResolveModel(id, w.downloadOk);
      if !ok {
        return false;
      }
      if !w.engineOk {
        return false;
      }
      if w.recordingAfter {
        return false;
      }
      loaded := id;
      return true;
    }

    // ConfigService.UpdateModel
    method UpdateModel(id: string, saveOk: bool) returns (ok: bool)
      modifies this`configured
      ensures (Current(), ok) == Updated(old(Current()), id, saveOk)
    {
      if configured == id {
        return true;
      }
      if !saveOk {
        return false;
      }
      configured := id;
      return true;
    }

    method SwitchModel(id: string, w: SwitchWorld) returns (result: SwitchResult)
      modifies this
      ensures (Current(), result) == SwitchedModel(old(Current()), id, w)
    {
      var previous := configured;
      var ok := LoadModel(id, w.load);
      if !ok {
        return LoadFailed;
      }
      ok := UpdateModel(id, w.saveOk);
      if !ok {
        if previous != "" {
          var back := LoadModel(previous, w.rollback);
          return SaveFailed(if back then RolledBack else RollbackFailed);
        }
        return SaveFailed(NotAttempted);
      }
      return Switched;
    }

    method DeleteModel(id: string, w: DeleteWorld) returns (ok: bool)
      modifies this`downloaded
      ensures (Current(), ok) == Deleted(old(Current()), id, w)
    {
      if w.recording {
        return false;
      }
      if id !in CATALOG {
        return false;
      }
      var active := if configured != "" then configured else DEFAULT_MODEL;
      if id == active {
        return false;
      }
      if CATALOG[id] !in downloaded || !w.removeOk {
        return false;
      }
      downloaded := downloaded - {CATALOG[id]};
      return true;
    }
  }

  // ----- Start-up and the model setting

  /** The settings file at start-up; one that cannot be parsed keeps the program from starting. */
  datatype SettingsFile = Unreadable | Malformed | Settings(model: string)

  // LoadConfig with validateGeneralConfig
  function LoadSetting(file: SettingsFile): (setting: Option<string>) {
    match file
    case Unreadable => Some(DEFAULT_MODEL)
    case Malformed => None
    case Settings(model) => Some(if model in CATALOG then model else DEFAULT_MODEL)
  }

  /** The environment of a start. */
  datatype BootWorld = BootWorld(
    file: SettingsFile, downloaded: set<string>, bundled: set<string>, downloadOk: bool, engineOk: bool)

  // The part of NewContainer that makes the engine; None if the program does not start
  function Boot(w: BootWorld): Option<State> {
    match LoadSetting(w.file)
    case None => None
    case Some(id) =>
      match Resolved(State(id, "", w.downloaded, w.bundled), id, w.downloadOk)
      case None => None
      case Some(s) => if w.engineOk then Some(s.(loaded := id)) else None
  }

  // ----- Runs of whole actions

  /** `Reset` is the action that restores all settings; it touches neither engine nor files. */
  datatype Action =
    | Switch(id: string, w: SwitchWorld)
    | Delete(id: string, dw: DeleteWorld)
    | Reset(saveOk: bool)

  function Step(s: State, a: Action): State {
    match a
    case Switch(id, w) => SwitchedModel(s, id, w).0
    case Delete(id, dw) => Deleted(s, id, dw).0
    case Reset(saveOk) => if saveOk then s.(configured := DEFAULT_MODEL) else s
  }

  function Run(s: State, actions: seq<Action>): State {
    if actions == [] then s else Step(Run(s, actions[..|actions| - 1]), actions[|actions| - 1])
  }

  predicate InSync(s: State) {
    s.loaded == ConfiguredModel(s)
  }

  /** What stands in the way of loading a model, all of which can be told beforehand from its world and files. */
  predicate Blocked(s: State, id: string, w: LoadWorld) {
    w.recordingBefore || id !in CATALOG || (!FilePresent(s, id) && !w.downloadOk) || !w.engineOk || w.recordingAfter
  }

  /** Leaves the engine and the setting apart: a switch that is not saved and whose rollback is blocked, or a reset
      while another model than the default is loaded. */
  predicate Breaks(s: State, a: Action) {
    match a
    case Switch(id, w) => !Blocked(s, id, w.load) && id != s.configured && !w.saveOk && Blocked(s, s.configured, w.rollback)
    case Delete(_, _) => false
    case Reset(saveOk) => saveOk && s.loaded != DEFAULT_MODEL
  }

  /** Puts them in step whatever they were before. */
  predicate Mends(s: State, a: Action) {
    match a
    case Switch(id, w) => !Blocked(s, id, w.load) && (id == s.configured || w.saveOk || !Blocked(s, s.configured, w.rollback))
    case Delete(_, _) => false
    case Reset(saveOk) => saveOk && s.loaded == DEFAULT_MODEL
  }

  lemma CatalogFacts()
    ensures DEFAULT_MODEL in CATALOG && "" !in CATALOG
    ensures forall a, b :: a in CATALOG && b in CATALOG && CATALOG[a] == CATALOG[b] ==> a == b
  {
  }

  lemma LoadedUnlessBlocked(s: State, id: string, w: LoadWorld)
    ensures var (s', ok) := Loaded(s, id, w);
            && (ok <==> !Blocked(s, id, w))
            && (ok ==> FilePresent(s', id) && s'.loaded == id)
            && (!ok ==> s'.loaded == s.loaded)
            && s'.configured == s.configured && s'.bundled == s.bundled
            && s.downloaded <= s'.downloaded <= s.downloaded + if id in CATALOG then {CATALOG[id]} else {}
  {
  }

  /** A failed switch leaves the setting as it was and a successful one leaves the model configured, loaded and present.
      No file is lost. A failed save leads to a rollback unless the setting is empty. */
  lemma SwitchOutcome(s: State, id: string, w: SwitchWorld)
    ensures var (s', result) := SwitchedModel(s, id, w);
            && (result != Switched ==> s'.configured == s.configured)
            && (result == Switched ==> s'.configured == id && s'.loaded == id && FilePresent(s', id))
            && (result == LoadFailed ==> s'.loaded == s.loaded)
            && (result == SaveFailed(RolledBack) ==> s'.loaded == s.configured && FilePresent(s', s.configured))
            && (result.SaveFailed? ==> (result.rollback == NotAttempted <==> s.configured == ""))
            && s.downloaded <= s'.downloaded && s'.bundled == s.bundled
  {
    CatalogFacts();
    LoadedUnlessBlocked(s, id, w.load);
    LoadedUnlessBlocked(Loaded(s, id, w.load).0, s.configured, w.rollback);
  }

  /** A successful switch puts engine and setting in step from any state. */
  lemma SwitchRecovers(s: State, id: string, w: SwitchWorld)
    requires SwitchedModel(s, id, w).1 == Switched
    ensures InSync(SwitchedModel(s, id, w).0)
  {
    CatalogFacts();
  }

  /** Resolving another model first does not change what a rollback needs. */
  lemma RollbackGuards(s: State, id: string, load: LoadWorld, rollback: LoadWorld)
    requires s.configured in CATALOG && id != s.configured
    ensures Blocked(Loaded(s, id, load).0, s.configured, rollback) <==> Blocked(s, s.configured, rollback)
  {
    CatalogFacts();
    LoadedUnlessBlocked(s, id, load);
  }

  /** Exactly when engine and setting agree after an action. */
  lemma StepSync(s: State, a: Action)
    requires s.configured in CATALOG
    ensures InSync(Step(s, a)) <==> Mends(s, a) || (InSync(s) && !Breaks(s, a))
  {
    CatalogFacts();
    match a
    case Switch(id, w) =>
      LoadedUnlessBlocked(s, id, w.load);
      var s1 := Loaded(s, id, w.load).0;
      LoadedUnlessBlocked(s1, s.configured, w.rollback);
      if id != s.configured {
        RollbackGuards(s, id, w.load, w.rollback);
      }
    case _ =>
  }

  /** Deleting changes neither setting nor engine, and never the configured model's file. It works exactly for the downloaded
      file of a known model that is not configured, while nothing is recorded and the file can be removed; afterwards
      the model is there only if it came with the program. */
  lemma DeleteOutcome(s: State, id: string, w: DeleteWorld)
    ensures var (s', ok) := Deleted(s, id, w);
            && s'.configured == s.configured && s'.loaded == s.loaded
            && (FilePresent(s, ConfiguredModel(s)) ==> FilePresent(s', ConfiguredModel(s)))
            && (ok <==> !w.recording && id in CATALOG && CATALOG[id] in s.downloaded && w.removeOk
                        && !(id == s.configured || (id == DEFAULT_MODEL && s.configured == "")))
            && (ok ==> s'.downloaded == s.downloaded - {CATALOG[id]} && (FilePresent(s', id) <==> CATALOG[id] in s.bundled))
            && (!ok ==> s' == s)
  {
    CatalogFacts();
  }

  // ----- Main results

  /** Whatever the settings file says, a started program has its configured model loaded and present. */
  lemma BootInSync(w: BootWorld)
    requires Boot(w).Some?
    ensures var s := Boot(w).value;
            s.configured in CATALOG && InSync(s) && FilePresent(s, s.configured)
  {
    CatalogFacts();
  }

  /** What a start makes of the settings file: a known model is taken as it is, anything else gives the default model; and
      exactly when the program starts. */
  lemma BootCondition(w: BootWorld, s: State)
    requires s.downloaded == w.downloaded && s.bundled == w.bundled
    ensures Boot(w).Some? <==>
              && w.file != Malformed && w.engineOk
              && (w.downloadOk || FilePresent(s, if w.file.Settings? && w.file.model in CATALOG then w.file.model else DEFAULT_MODEL))
    ensures Boot(w).Some? ==>
              Boot(w).value.configured == if w.file.Settings? && w.file.model in CATALOG then w.file.model else DEFAULT_MODEL
  {
    CatalogFacts();
  }

  /** A restart keeps the model setting that any run has saved, and loads it. */
  lemma RestartKeepsSetting(w: BootWorld, actions: seq<Action>, again: BootWorld)
    requires Boot(w).Some?
    requires again.file == Settings(Run(Boot(w).value, actions).configured) && Boot(again).Some?
    ensures Boot(again).value.configured == Run(Boot(w).value, actions).configured == Boot(again).value.loaded
  {
    SettingInCatalog(w, actions);
    BootCondition(again, State("", "", again.downloaded, again.bundled));
    BootInSync(again);
    CatalogFacts();
  }

  /** The model setting is a known model in every run, so that a rollback always has something to return to. */
  lemma {:induction false} SettingInCatalog(w: BootWorld, actions: seq<Action>)
    requires Boot(w).Some?
    ensures Run(Boot(w).value, actions).configured in CATALOG
  {
    CatalogFacts();
    if actions == [] {
      BootInSync(w);
    } else {
      var before := Run(Boot(w).value, actions[..|actions| - 1]);
      SettingInCatalog(w, actions[..|actions| - 1]);
      match actions[|actions| - 1] {
        case Switch(id, sw) => SwitchOutcome(before, id, sw); LoadedUnlessBlocked(before, id, sw.load);
        case _ =>
      }
    }
  }

  /** For each action of a run, whether it sets engine and setting apart, and whether it puts them in step. */
  function BreakMarks(s: State, actions: seq<Action>): (marks: seq<bool>)
    ensures |marks| == |actions|
  {
    if actions == [] then []
    else
      var init := actions[..|actions| - 1];
      BreakMarks(s, init) + [Breaks(Run(s, init), actions[|actions| - 1])]
  }

  function MendMarks(s: State, actions: seq<Action>): (marks: seq<bool>)
    ensures |marks| == |actions|
  {
    if actions == [] then []
    else
      var init := actions[..|actions| - 1];
      MendMarks(s, init) + [Mends(Run(s, init), actions[|actions| - 1])]
  }

  predicate AllMended(breaks: seq<bool>, mends: seq<bool>) {
    forall i :: 0 <= i < |breaks| && breaks[i] ==> exists j :: i < j < |mends| && mends[j]
  }

  lemma AllMendedSnoc(breaks: seq<bool>, mends: seq<bool>, b: bool, m: bool)
    requires |breaks| == |mends| && !(b && m)
    ensures AllMended(breaks + [b], mends + [m]) <==> m || (AllMended(breaks, mends) && !b)
  {
    var n := |breaks|;
    var breaks', mends' := breaks + [b], mends + [m];
    assert forall i :: 0 <= i < n ==> breaks'[i] == breaks[i] && mends'[i] == mends[i];
    assert breaks'[n] == b && mends'[n] == m;
    if m {
      assert AllMended(breaks', mends');
    } else if AllMended(breaks', mends') {
      forall i | 0 <= i < n && breaks[i] ensures exists j :: i < j < n && mends[j] {
        assert breaks'[i];
        var j :| i < j < n + 1 && mends'[j];
        assert mends[j];
      }
    } else if AllMended(breaks, mends) && !b {
      forall i | 0 <= i < n + 1 && breaks'[i] ensures exists j :: i < j < n + 1 && mends'[j] {
        assert breaks[i];
        var j :| i < j < n && mends[j];
        assert mends'[j];
      }
    }
  }

  lemma BreaksOrMends(s: State, a: Action)
    ensures !(Breaks(s, a) && Mends(s, a))
  {
  }

  /** Over all runs of a started program, whatever downloads, loads and saves fail: the loaded model is the configured one
      exactly when every action that set them apart was followed by one that put them in step again. */
  lemma {:induction false} RunSyncCondition(w: BootWorld, actions: seq<Action>)
    requires Boot(w).Some?
    ensures var s := Boot(w).value;
            InSync(Run(s, actions)) <==> AllMended(BreakMarks(s, actions), MendMarks(s, actions))
  {
    var s := Boot(w).value;
    if actions == [] {
      BootInSync(w);
    } else {
      var init, last := actions[..|actions| - 1], actions[|actions| - 1];
      var before := Run(s, init);
      RunSyncCondition(w, init);
      SettingInCatalog(w, init);
      StepSync(before, last);
      BreaksOrMends(before, last);
      AllMendedSnoc(BreakMarks(s, init), MendMarks(s, init), Breaks(before, last), Mends(before, last));
    }
  }

  /** A reset to a default model whose file is missing. */
  predicate ResetWithoutFile(s: State, a: Action) {
    a.Reset? && a.saveOk && !FilePresent(s, DEFAULT_MODEL)
  }

  /** Over all runs of switches and deletions, and of resets while the default model's file is there, the configured
      model's file is present, so that a rollback needs no download. */
  lemma {:induction false} RunKeepsModel(w: BootWorld, actions: seq<Action>)
    requires Boot(w).Some?
    requires forall i :: 0 <= i < |actions| ==> !ResetWithoutFile(Run(Boot(w).value, actions[..i]), actions[i])
    ensures var s := Run(Boot(w).value, actions);
            s.configured in CATALOG && FilePresent(s, s.configured)
  {
    SettingInCatalog(w, actions);
    if actions == [] {
      BootInSync(w);
    } else {
      var init, last := actions[..|actions| - 1], actions[|actions| - 1];
      assert forall i :: 0 <= i < |init| ==> actions[..i] == init[..i] && actions[i] == init[i];
      RunKeepsModel(w, init);
      SettingInCatalog(w, init);
      var before := Run(Boot(w).value, init);
      match last {
        case Switch(id, sw) => SwitchOutcome(before, id, sw);
        case Delete(id, dw) => CatalogFacts(); DeleteOutcome(before, id, dw);
        case Reset(_) => assert actions[..|actions| - 1] == init;
      }
    }
  }

  /** The promise that a switch which cannot be saved leaves the engine with the configured model, after any run at all:
      it is broken exactly by a rollback that meets a recording, finds the model's file neither present nor to be had, or
      cannot create the engine. */
  lemma UnsavedSwitchPromise(w: BootWorld, actions: seq<Action>, id: string, sw: SwitchWorld)
    requires Boot(w).Some?
    requires SwitchedModel(Run(Boot(w).value, actions), id, sw).1.SaveFailed?
    ensures var s, r := Run(Boot(w).value, actions), sw.rollback;
            InSync(SwitchedModel(s, id, sw).0) <==>
              !(r.recordingBefore || r.recordingAfter || (!FilePresent(s, s.configured) && !r.downloadOk) || !r.engineOk)
  {
    SettingInCatalog(w, actions);
    UnsavedSwitchSync(Run(Boot(w).value, actions), id, sw);
  }

  lemma UnsavedSwitchSync(s: State, id: string, sw: SwitchWorld)
    requires s.configured in CATALOG && SwitchedModel(s, id, sw).1.SaveFailed?
    ensures var r := sw.rollback;
            InSync(SwitchedModel(s, id, sw).0) <==>
              !(r.recordingBefore || r.recordingAfter || (!FilePresent(s, s.configured) && !r.downloadOk) || !r.engineOk)
  {
    LoadedUnlessBlocked(s, id, sw.load);
    StepSync(s, Switch(id, sw));
  }

  /** A run on which the promise is broken: the save fails, and a recording has begun before the rollback. */
  lemma UnsavedSwitchDuringRecording()
    ensures var w := BootWorld(Unreadable, {"ggml-base-q5_1.bin"}, {"small-q5_1.bin"}, false, true);
            && Boot(w).Some?
            && var free := LoadWorld(false, false, true, false);
               var (s, result) := SwitchedModel(Boot(w).value, "base-q5_1", SwitchWorld(free, false, free.(recordingBefore := true)));
            && result == SaveFailed(RollbackFailed) && s.loaded == "base-q5_1" && s.configured == "small-q5_1"
  {
    CatalogFacts();
  }
}
