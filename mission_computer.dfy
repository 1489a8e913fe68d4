/**
 * The mission computer (mission_computer/mc_class.py): loading a mission and
 * its saved progress, executing the action tree while counting progress,
 * persisting progress, and resuming after a restart.
 *
 * The working directory is a map from file names to what json.load would
 * make of each file.  Drone commands, status messages and the camera have no
 * effect on the state tracked here; a failing `mov` inside mov_multiple is
 * the one outcome of the drone that changes progress, and it comes from the
 * environment oracle `Env`.
 */
module MissionControl {
  import opened Wrappers
  import opened MissionPlan

  /** Where the active mission is kept (MISSION_PATH). */
  const MissionPath: string := "mission_file.json"
  /** Where progress is persisted (MISSION_PROGRESS). */
  const MissionProgress: string := "__mission__.json"
  /** Default of the "recouver_time" setting, in seconds. */
  const DefaultRecoverTime: real := 10.0

  /** A mission document: its root action if it has an "action" key, and its optional "progress" key. */
  datatype MissionDoc = MissionDoc(root: Option<Action>, progress: Option<int>)

  /** A progress record; each key may be missing. */
  datatype ProgressRecord = ProgressRecord(progress: Option<int>, maxProgress: Option<int>, time: Option<real>)

  /** What json.load yields for a file: a mission, a progress record, or an error. */
  datatype FileContent = MissionText(doc: MissionDoc) | ProgressText(rec: ProgressRecord) | Corrupt

  type Files = map<string, FileContent>

  /** The tracked state of the mission computer. */
  datatype McState = McState(progress: int, maxProgress: int, running: bool, files: Files)

  /** The drone as seen by mov_multiple: whether moving to a waypoint raises, given the progress so far. */
  datatype Env = Env(movRaises: (Waypoint, int) -> bool)

  ghost predicate NoMovFailure(env: Env) {
    forall w, p :: !env.movRaises(w, p)
  }

  /** The record written by _save_progress. */
  function RecordOf(s: McState, now: real): FileContent {
    ProgressText(ProgressRecord(Some(s.progress), Some(s.maxProgress), Some(now)))
  }

  /** _save_progress: the progress file is written only while a mission is running. */
  function Saved(s: McState, now: real): McState {
    if s.running then s.(files := s.files[MissionProgress := RecordOf(s, now)]) else s
  }

  /** The tail of execute: save, stop running, and on completion delete both mission files. */
  function Finished(s: McState, now: real): (r: McState)
    ensures !r.running
    ensures r.progress == s.progress && r.maxProgress == s.maxProgress
    ensures r.progress >= r.maxProgress ==> MissionProgress !in r.files && MissionPath !in r.files
    ensures r.progress < r.maxProgress ==> r.files == Saved(s, now).files
  {
    var t := Saved(s, now).(running := false);
    if t.progress >= t.maxProgress then t.(files := t.files - {MissionProgress, MissionPath}) else t
  }

  /** How many waypoints of mov_multiple are reached before the first move that raises. */
  function MovsDone(ws: seq<Waypoint>, progress: int, env: Env): (n: nat)
    ensures n <= |ws|
    ensures forall j :: 0 <= j < n ==> !env.movRaises(ws[j], progress + j)
    ensures n < |ws| ==> env.movRaises(ws[n], progress + n)
  {
    if ws == [] || env.movRaises(ws[0], progress) then 0
    else 1 + MovsDone(ws[1..], progress + 1, env)
  }

  /**
   * execute: an unknown action only sets `running`; a leaf counts one unit
   * whether or not its handler raises; a list executes its children; a
   * mov_multiple counts each waypoint reached.  Every known action then
   * goes through the tail `Finished`.
   */
  function Executed(a: Action, s: McState, env: Env, now: real): McState
    decreases a, 1
  {
    var s1 := s.(running := true);
    match a
    case Leaf(Unrecognised(_), _) => s1
    case Leaf(_, _) => Finished(s1.(progress := s1.progress + 1), now)
    case List(cs) => Finished(ListExecuted(cs, s1, env, now), now)
    case MovMultiple(ws) => Finished(s1.(progress := s1.progress + MovsDone(ws, s1.progress, env)), now)
  }

  /** execute_list: the children in order. */
  function ListExecuted(cs: seq<Action>, s: McState, env: Env, now: real): McState
    decreases cs, 0
  {
    if cs == [] then s else ListExecuted(cs[1..], Executed(cs[0], s, env, now), env, now)
  }

  /**
   * What _start does once a plan is cut at the saved progress: a residual plan
   * is run from the current progress, an integer remainder means the saved
   * progress is past the plan's end and the whole plan runs from 0.
   */
  function RunCut(s1: McState, root: Action, cut: Residual, env: Env, now: real): McState {
    match cut
    case Plan(q) => Executed(q, s1, env, now)
    case Remaining(_) => Executed(root, s1.(progress := 0), env, now)
  }

  /** _start as the repository writes it: the plan is cut with action_with_count. */
  function Started(s: McState, plan: Option<Action>, env: Env, now: real): McState {
    match plan
    case None => s
    case Some(root) =>
      var s1 := s.(running := true);
      if s1.progress > 0 then RunCut(s1, root, ActionWithCount(root, s1.progress), env, now)
      else Executed(root, s1, env, now)
  }

  /** _start with the corrected cut ResumeSubplan in place of action_with_count. */
  function ResumedStart(s: McState, plan: Option<Action>, env: Env, now: real): McState {
    match plan
    case None => s
    case Some(root) =>
      var s1 := s.(running := true);
      if s1.progress > 0 then RunCut(s1, root, ResumeSubplan(root, s1.progress), env, now)
      else Executed(root, s1, env, now)
  }

  // ---------------------------------------------------------------------------
  // initiate
  // ---------------------------------------------------------------------------

  /**
   * The first block of initiate: None when the progress file cannot be read
   * or has no "time"; otherwise the files, with both mission files deleted
   * when the record is older than the recovery window.
   */
  function StaleChecked(f: Files, now: real, recoverTime: real): Option<Files> {
    if MissionProgress !in f then Some(f)
    else match f[MissionProgress]
      case ProgressText(ProgressRecord(_, _, Some(t))) =>
        if Abs(t - now) > recoverTime then Some(f - {MissionProgress, MissionPath}) else Some(f)
      case _ => None
  }

  /** The restore attempt inside initiate's second try block. */
  datatype RestoreOutcome = Restored(progress: int, maxProgress: int) | Mismatch | Unreadable

  function Restore(root: Option<Action>, c: FileContent): RestoreOutcome {
    match root
    case None => Unreadable
    case Some(r) =>
      match c
      case ProgressText(ProgressRecord(p, Some(m), _)) =>
        if Count(r) == m then
          (match p case Some(pv) => Restored(pv, m) case None => Unreadable)
        else Mismatch
      case _ => Unreadable
  }

  /** What initiate leaves behind: the tracked state, the loaded plan's root action, and whether it raised. */
  datatype Loaded = Loaded(state: McState, plan: Option<Action>, raised: bool)

  /** initiate after the mission document has been read from the mission file. */
  function FromDoc(s: McState, f: Files, doc: MissionDoc): Loaded {
    var outcome := if MissionProgress in f then Restore(doc.root, f[MissionProgress]) else Mismatch;
    match outcome
    case Restored(p, m) => Loaded(s.(progress := p, maxProgress := m, files := f), doc.root, false)
    case Unreadable => Loaded(s.(progress := 0, maxProgress := -1, files := f - {MissionProgress}), doc.root, false)
    case Mismatch =>
      match doc.root
      case Some(r) => Loaded(s.(progress := doc.progress.GetOr(0), maxProgress := Count(r), files := f), doc.root, false)
      case None => Loaded(s.(progress := doc.progress.GetOr(0), files := f), doc.root, true)
  }

  /** initiate(missionfile) on the state `s` with the previously loaded plan `plan`. */
  function Initiated(s: McState, plan: Option<Action>, missionfile: string, now: real, recoverTime: real): Loaded {
    match StaleChecked(s.files, now, recoverTime)
    case None => Loaded(s.(files := s.files - {MissionProgress, MissionPath}), plan, false)
    case Some(f1) =>
      if missionfile in f1 && missionfile == MissionPath then Loaded(s.(files := f1), plan, true)
      else
        var f2 := if missionfile in f1 then f1[MissionPath := f1[missionfile]] - {MissionProgress} else f1;
        if MissionPath !in f2 then Loaded(s.(progress := 0, maxProgress := -1, files := f2 - {MissionProgress}), plan, false)
        else
          match f2[MissionPath]
          case MissionText(doc) => FromDoc(s, f2, doc)
          // a progress record loads as a plan without "action", whose "progress" key is read
          case ProgressText(rec) => FromDoc(s, f2, MissionDoc(None, rec.progress))
          case Corrupt => Loaded(s.(files := f2), plan, true)
  }

  // ---------------------------------------------------------------------------
  // The class
  // ---------------------------------------------------------------------------

  class MissionComputer {
    var progress: int
    var maxProgress: int
    var running: bool
    var files: Files
    /** The "action" tree of current_mission_plan, if it has one. */
    var plan: Option<Action>
    const recoverTime: real

    function Snapshot(): McState
      reads this
    {
      McState(progress, maxProgress, running, files)
    }

    /** __init__ and _setup over an existing working directory. */
    constructor(files: Files, recoverTime: real)
      ensures Snapshot() == McState(0, -1, false, files)
      ensures plan == None && this.recoverTime == recoverTime
    {
      progress := 0;
      maxProgress := -1;
      running := false;
      this.files := files;
      plan := None;
      this.recoverTime := recoverTime;
    }

    method SaveProgress(now: real)
      modifies this`files
      ensures Snapshot() == Saved(old(Snapshot()), now)
    {
      if running {
        files := files[MissionProgress := ProgressText(ProgressRecord(Some(progress), Some(maxProgress), Some(now)))];
      }
    }

    /** Lines 311-319 of execute. */
    method Finish(now: real)
      modifies this`running, this`files
      ensures Snapshot() == Finished(old(Snapshot()), now)
    {
      SaveProgress(now);
      running := false;
      if progress >= maxProgress {
        files := files - {MissionProgress};
        files := files - {MissionPath};
      }
    }

    method Execute(a: Action, env: Env, now: real)
      modifies this`progress, this`running, this`files
      ensures Snapshot() == Executed(a, old(Snapshot()), env, now)
      decreases a, 1
    {
      running := true;
      match a {
        case Leaf(t, _) =>
          if t.Unrecognised? {
            return;
          }
          progress := progress + 1;
        case List(cs) =>
          ExecuteList(cs, env, now);
        case MovMultiple(ws) =>
          var failed := RunMovMultiple(ws, env);
      }
      Finish(now);
    }

    method ExecuteList(cs: seq<Action>, env: Env, now: real)
      modifies this`progress, this`running, this`files
      ensures Snapshot() == ListExecuted(cs, old(Snapshot()), env, now)
      decreases cs, 0
    {
      var i := 0;
      while i < |cs|
        invariant 0 <= i <= |cs|
        invariant ListExecuted(cs[i..], Snapshot(), env, now) == ListExecuted(cs, old(Snapshot()), env, now)
      {
        assert cs[i..][0] == cs[i] && cs[i..][1..] == cs[i + 1..];
        Execute(cs[i], env, now);
        i := i + 1;
      }
    }

    /** The loop of mov_multiple; `failed` says a move raised, which execute then catches. */
    method RunMovMultiple(ws: seq<Waypoint>, env: Env) returns (failed: bool)
      modifies this`progress
      ensures progress == old(progress) + MovsDone(ws, old(progress), env)
      ensures failed <==> MovsDone(ws, old(progress), env) < |ws|
    {
      var i := 0;
      while i < |ws|
        invariant 0 <= i <= |ws|
        invariant progress == old(progress) + i
        invariant MovsDone(ws, old(progress), env) == i + MovsDone(ws[i..], progress, env)
      {
        assert ws[i..][0] == ws[i] && ws[i..][1..] == ws[i + 1..];
        if env.movRaises(ws[i], progress) {
          return true;
        }
        progress := progress + 1;
        i := i + 1;
      }
      assert ws[i..] == [];
      return false;
    }

    method Initiate(missionfile: string, now: real) returns (raised: bool)
      modifies this`progress, this`maxProgress, this`files, this`plan
      ensures Loaded(Snapshot(), plan, raised) == Initiated(old(Snapshot()), old(plan), missionfile, now, recoverTime)
    {
      raised := false;
      if MissionProgress in files {
        var c := files[MissionProgress];
        if c.ProgressText? && c.rec.time.Some? {
          if Abs(c.rec.time.value - now) > recoverTime {
            files := files - {MissionProgress, MissionPath};
          }
        } else {
          files := files - {MissionProgress, MissionPath};
          return;
        }
      }
      if missionfile in files {
        if missionfile == MissionPath {
          // shutil.copyfile refuses to copy a file onto itself
          raised := true;
          return;
        }
        files := files[MissionPath := files[missionfile]];
        files := files - {MissionProgress};
      }
      if MissionPath !in files {
        progress := 0;
        maxProgress := -1;
        files := files - {MissionProgress};
        return;
      }
      var content := files[MissionPath];
      var doc: MissionDoc;
      match content {
        case MissionText(d) => doc := d;
        case ProgressText(rec) => doc := MissionDoc(None, rec.progress);
        case Corrupt =>
          raised := true;
          return;
      }
      plan := doc.root;
      if MissionProgress in files {
        var outcome := Restore(doc.root, files[MissionProgress]);
        match outcome {
          case Restored(p, m) =>
            progress := p;
            maxProgress := m;
            return;
          case Unreadable =>
            files := files - {MissionProgress};
            progress := 0;
            maxProgress := -1;
            return;
          case Mismatch =>
        }
      }
      progress := doc.progress.GetOr(0);
      if doc.root.None? {
        // count_actions raises KeyError on a plan without "action"
        raised := true;
        return;
      }
      maxProgress := Count(doc.root.value);
    }

    /** new_mission: stop the running mission and load the new file. */
    method NewMission(missionfile: string, now: real) returns (raised: bool)
      modifies this`progress, this`maxProgress, this`running, this`files, this`plan
      ensures !running
      ensures Loaded(Snapshot(), plan, raised)
              == Initiated(old(Snapshot()).(running := false), old(plan), missionfile, now, recoverTime)
    {
      running := false;
      raised := Initiate(missionfile, now);
    }

    /** _start: run the loaded plan from the saved progress. */
    method Start(env: Env, now: real)
      modifies this`progress, this`running, this`files
      ensures Snapshot() == Started(old(Snapshot()), plan, env, now)
    {
      if plan.Some? {
        running := true;
        var p := plan.value;
        if progress > 0 {
          match ActionWithCount(p, progress) {
            case Plan(q) => p := q;
            case Remaining(_) => progress := 0;
          }
        }
        Execute(p, env, now);
      }
    }
  }
}
