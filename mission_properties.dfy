/**
 * What the mission computer promises about progress: it only grows, it grows
 * by exactly the plan's count when every action is known and no move fails,
 * the persisted record never runs ahead of it, a saved record is restored
 * exactly, and a resumed plan runs the mission to completion.
 */
module MissionProperties {
  import opened Wrappers
  import opened MissionPlan
  import opened MissionControl

  /** No step of the plan is an action without a handler. */
  predicate KnownSteps(steps: seq<Step>) {
    forall i :: 0 <= i < |steps| ==> !(steps[i].LeafStep? && steps[i].tag.Unrecognised?)
  }

  predicate IsUnknownLeaf(a: Action) {
    a.Leaf? && a.tag.Unrecognised?
  }

  lemma KnownStepsSplit(x: seq<Step>, y: seq<Step>)
    ensures KnownSteps(x + y) <==> KnownSteps(x) && KnownSteps(y)
  {
    if KnownSteps(x + y) {
      forall i | 0 <= i < |x| ensures !(x[i].LeafStep? && x[i].tag.Unrecognised?) {
        assert (x + y)[i] == x[i];
      }
      forall i | 0 <= i < |y| ensures !(y[i].LeafStep? && y[i].tag.Unrecognised?) {
        assert (x + y)[|x| + i] == y[i];
      }
    }
  }

  lemma KnownIsNotUnknownLeaf(a: Action)
    requires KnownSteps(Flatten(a))
    ensures !IsUnknownLeaf(a)
  {
    if a.Leaf? {
      assert Flatten(a)[0] == LeafStep(a.tag, a.payload);
    }
  }

  lemma KnownStepsSuffix(x: seq<Step>, k: nat)
    requires KnownSteps(x) && k <= |x|
    ensures KnownSteps(x[k..])
  {
    assert x == x[..k] + x[k..];
    KnownStepsSplit(x[..k], x[k..]);
  }

  // ---------------------------------------------------------------------------
  // Progress bounds
  // ---------------------------------------------------------------------------

  /** execute never lowers progress, never changes max_progress, and adds at most the plan's count. */
  lemma {:induction false} ExecBounds(a: Action, s: McState, env: Env, now: real)
    ensures Executed(a, s, env, now).maxProgress == s.maxProgress
    ensures s.progress <= Executed(a, s, env, now).progress <= s.progress + Count(a)
    decreases a, 1
  {
    match a
    case List(cs) => ListBounds(cs, s.(running := true), env, now);
    case MovMultiple(_) =>
    case Leaf(_, _) =>
  }

  lemma {:induction false} ListBounds(cs: seq<Action>, s: McState, env: Env, now: real)
    ensures ListExecuted(cs, s, env, now).maxProgress == s.maxProgress
    ensures s.progress <= ListExecuted(cs, s, env, now).progress <= s.progress + CountList(cs)
    decreases cs, 0
  {
    if cs != [] {
      ExecBounds(cs[0], s, env, now);
      ListBounds(cs[1..], Executed(cs[0], s, env, now), env, now);
    }
  }

  lemma {:induction false} MovsAllDone(ws: seq<Waypoint>, p: int, env: Env)
    requires NoMovFailure(env)
    ensures MovsDone(ws, p, env) == |ws|
  {
    if ws != [] {
      assert !env.movRaises(ws[0], p);
      MovsAllDone(ws[1..], p + 1, env);
    }
  }

  /** With every action known and no failing move, execute adds exactly count_actions of the plan. */
  lemma {:induction false} ExecCountsAll(a: Action, s: McState, env: Env, now: real)
    requires KnownSteps(Flatten(a)) && NoMovFailure(env)
    ensures Executed(a, s, env, now).progress == s.progress + Count(a)
    ensures Executed(a, s, env, now).maxProgress == s.maxProgress
    decreases a, 1
  {
    match a
    case List(cs) => ListCountsAll(cs, s.(running := true), env, now);
    case MovMultiple(ws) => MovsAllDone(ws, s.progress, env);
    case Leaf(t, p) =>
      assert Flatten(a)[0] == LeafStep(t, p);
  }

  lemma {:induction false} ListCountsAll(cs: seq<Action>, s: McState, env: Env, now: real)
    requires KnownSteps(FlattenList(cs)) && NoMovFailure(env)
    ensures ListExecuted(cs, s, env, now).progress == s.progress + CountList(cs)
    ensures ListExecuted(cs, s, env, now).maxProgress == s.maxProgress
    decreases cs, 0
  {
    if cs != [] {
      KnownStepsSplit(Flatten(cs[0]), FlattenList(cs[1..]));
      ExecCountsAll(cs[0], s, env, now);
      ListCountsAll(cs[1..], Executed(cs[0], s, env, now), env, now);
    }
  }

  /** An action without a handler only marks the mission running: no progress, no save, no deletion. */
  lemma UnknownActionSkipped(name: string, payload: Payload, s: McState, env: Env, now: real)
    ensures Executed(Leaf(Unrecognised(name), payload), s, env, now) == s.(running := true)
  {
  }

  /**
   * A leaf with a handler counts exactly one unit, whether or not the handler
   * raises, and below the maximum the new progress is what gets saved.
   */
  lemma KnownLeafCountsOne(t: Tag, payload: Payload, s: McState, env: Env, now: real)
    requires !t.Unrecognised?
    ensures Executed(Leaf(t, payload), s, env, now).progress == s.progress + 1
    ensures Executed(Leaf(t, payload), s, env, now).maxProgress == s.maxProgress
    ensures s.progress + 1 < s.maxProgress ==>
              Executed(Leaf(t, payload), s, env, now).files[MissionProgress]
              == ProgressText(ProgressRecord(Some(s.progress + 1), Some(s.maxProgress), Some(now)))
  {
  }

  /** _save_progress writes the record only while running, and touches no other file. */
  lemma SavedOnlyWhileRunning(s: McState, now: real)
    ensures !s.running ==> Saved(s, now) == s
    ensures s.running ==> MissionProgress in Saved(s, now).files
                          && Saved(s, now).files[MissionProgress].rec
                             == ProgressRecord(Some(s.progress), Some(s.maxProgress), Some(now))
    ensures forall k :: k != MissionProgress ==> (k in Saved(s, now).files <==> k in s.files)
    ensures Saved(s, now).progress == s.progress && Saved(s, now).running == s.running
  {
  }

  /** Every known action ends with `running` cleared, and once progress reaches the maximum both mission files are gone. */
  lemma ExecFinishes(a: Action, s: McState, env: Env, now: real)
    requires !IsUnknownLeaf(a)
    ensures !Executed(a, s, env, now).running
    ensures var t := Executed(a, s, env, now);
            t.progress >= t.maxProgress ==> MissionProgress !in t.files && MissionPath !in t.files
  {
  }

  // ---------------------------------------------------------------------------
  // Files
  // ---------------------------------------------------------------------------

  /**
   * Going from f to g only the progress file is written and the mission file
   * is at most deleted; every other file is untouched.
   */
  predicate OnlyProgressWritten(f: Files, g: Files) {
    (forall k :: k in g && k != MissionProgress ==> k in f && g[k] == f[k])
    && (forall k :: k in f && k != MissionProgress && k != MissionPath ==> k in g)
  }

  lemma {:induction false} ExecFiles(a: Action, s: McState, env: Env, now: real)
    ensures OnlyProgressWritten(s.files, Executed(a, s, env, now).files)
    decreases a, 1
  {
    match a
    case List(cs) => ListFiles(cs, s.(running := true), env, now);
    case MovMultiple(_) =>
    case Leaf(_, _) =>
  }

  lemma {:induction false} ListFiles(cs: seq<Action>, s: McState, env: Env, now: real)
    ensures OnlyProgressWritten(s.files, ListExecuted(cs, s, env, now).files)
    decreases cs, 0
  {
    if cs != [] {
      var s1 := Executed(cs[0], s, env, now);
      ExecFiles(cs[0], s, env, now);
      ListFiles(cs[1..], s1, env, now);
    }
  }

  // ---------------------------------------------------------------------------
  // The persisted record never runs ahead
  // ---------------------------------------------------------------------------

  /**
   * The progress file, when present, is a record of this mission's maximum
   * whose progress is at most the progress reached: a resume from it never
   * skips an action.
   */
  predicate RecordBehind(s: McState) {
    MissionProgress in s.files ==>
      s.files[MissionProgress].ProgressText?
      && s.files[MissionProgress].rec.progress.Some?
      && s.files[MissionProgress].rec.maxProgress == Some(s.maxProgress)
      && s.files[MissionProgress].rec.progress.value <= s.progress
  }

  lemma SaveKeepsRecordBehind(s: McState, now: real)
    requires RecordBehind(s)
    ensures RecordBehind(Saved(s, now))
    ensures RecordBehind(Finished(s, now))
  {
  }

  lemma {:induction false} ExecKeepsRecordBehind(a: Action, s: McState, env: Env, now: real)
    requires RecordBehind(s)
    ensures RecordBehind(Executed(a, s, env, now))
    decreases a, 1
  {
    var s1 := s.(running := true);
    match a
    case List(cs) =>
      ListKeepsRecordBehind(cs, s1, env, now);
      SaveKeepsRecordBehind(ListExecuted(cs, s1, env, now), now);
    case MovMultiple(ws) =>
      SaveKeepsRecordBehind(s1.(progress := s1.progress + MovsDone(ws, s1.progress, env)), now);
    case Leaf(Unrecognised(_), _) =>
    case Leaf(_, _) =>
      SaveKeepsRecordBehind(s1.(progress := s1.progress + 1), now);
  }

  lemma {:induction false} ListKeepsRecordBehind(cs: seq<Action>, s: McState, env: Env, now: real)
    requires RecordBehind(s)
    ensures RecordBehind(ListExecuted(cs, s, env, now))
    decreases cs, 0
  {
    if cs != [] {
      ExecKeepsRecordBehind(cs[0], s, env, now);
      ListKeepsRecordBehind(cs[1..], Executed(cs[0], s, env, now), env, now);
    }
  }

  // ---------------------------------------------------------------------------
  // Saving and restoring
  // ---------------------------------------------------------------------------

  /**
   * Round trip: a record saved while running is restored exactly by a later
   * initiate within the recovery window, given the same mission file and no
   * new one; nothing on disk changes.
   */
  lemma SaveThenRestore(s: McState, plan: Option<Action>, root: Action, pr: Option<int>,
                        saveTime: real, now: real, recoverTime: real, missionfile: string)
    requires s.running
    requires MissionPath in s.files && s.files[MissionPath] == MissionText(MissionDoc(Some(root), pr))
    requires Count(root) == s.maxProgress
    requires missionfile !in s.files && missionfile != MissionProgress
    requires Abs(saveTime - now) <= recoverTime
    ensures var t := Saved(s, saveTime);
            Initiated(t, plan, missionfile, now, recoverTime) == Loaded(t, Some(root), false)
  {
    var t := Saved(s, saveTime);
    assert t.files[MissionProgress] == RecordOf(s, saveTime);
    assert MissionPath in t.files && t.files[MissionPath] == s.files[MissionPath];
    assert StaleChecked(t.files, now, recoverTime) == Some(t.files);
    assert Restore(Some(root), t.files[MissionProgress]) == Restored(s.progress, s.maxProgress);
  }

  /** A record older than the recovery window deletes both files; without a new mission file nothing is loaded. */
  lemma StaleRecordDiscarded(s: McState, plan: Option<Action>, rec: ProgressRecord, now: real,
                             recoverTime: real, missionfile: string)
    requires MissionProgress in s.files && s.files[MissionProgress] == ProgressText(rec)
    requires rec.time.Some? && Abs(rec.time.value - now) > recoverTime
    requires missionfile !in s.files || missionfile == MissionProgress || missionfile == MissionPath
    ensures var r := Initiated(s, plan, missionfile, now, recoverTime);
            r == Loaded(McState(0, -1, s.running, s.files - {MissionProgress, MissionPath}), plan, false)
  {
    var f1 := s.files - {MissionProgress, MissionPath};
    assert StaleChecked(s.files, now, recoverTime) == Some(f1);
    assert missionfile !in f1;
    assert f1 - {MissionProgress} == f1;
  }

  /**
   * An unreadable progress file (bad JSON, or no "time") is deleted together
   * with the mission file, and initiate returns before looking at the new
   * mission file at all: progress, its maximum and the plan stay as they were.
   */
  lemma UnreadableRecordStopsInitiate(s: McState, plan: Option<Action>, now: real,
                                      recoverTime: real, missionfile: string)
    requires MissionProgress in s.files
    requires !(s.files[MissionProgress].ProgressText? && s.files[MissionProgress].rec.time.Some?)
    ensures Initiated(s, plan, missionfile, now, recoverTime)
            == Loaded(s.(files := s.files - {MissionProgress, MissionPath}), plan, false)
  {
  }

  /**
   * A new mission file is copied to the mission path and loaded, and the
   * progress file is deleted, so the mission starts from its own "progress"
   * key (0 by default) whatever record was there before.
   */
  lemma NewMissionLoaded(s: McState, plan: Option<Action>, root: Action, pr: Option<int>,
                         now: real, recoverTime: real, missionfile: string)
    requires StaleChecked(s.files, now, recoverTime).Some?
    requires missionfile in s.files && missionfile != MissionPath && missionfile != MissionProgress
    requires s.files[missionfile] == MissionText(MissionDoc(Some(root), pr))
    ensures var r := Initiated(s, plan, missionfile, now, recoverTime);
            && !r.raised
            && r.plan == Some(root)
            && r.state.progress == pr.GetOr(0)
            && r.state.maxProgress == Count(root)
            && MissionProgress !in r.state.files
            && r.state.files == (s.files - {MissionProgress})[MissionPath := s.files[missionfile]]
  {
    var f1 := StaleChecked(s.files, now, recoverTime).value;
    assert missionfile in f1 && f1[missionfile] == s.files[missionfile];
    var f2 := f1[MissionPath := f1[missionfile]] - {MissionProgress};
    assert f2 == (s.files - {MissionProgress})[MissionPath := s.files[missionfile]];
    assert f2[MissionPath] == MissionText(MissionDoc(Some(root), pr));
  }

  /**
   * With neither a new mission file nor a mission at the mission path,
   * initiate resets progress to 0 and max_progress to -1, deletes the
   * progress file, and keeps the plan it had.
   */
  lemma NoMissionResets(s: McState, plan: Option<Action>, now: real, recoverTime: real, missionfile: string)
    requires StaleChecked(s.files, now, recoverTime).Some?
    requires MissionPath !in s.files && missionfile !in s.files
    ensures Initiated(s, plan, missionfile, now, recoverTime)
            == Loaded(s.(progress := 0, maxProgress := -1, files := s.files - {MissionProgress}), plan, false)
  {
    var f1 := StaleChecked(s.files, now, recoverTime).value;
    assert f1 - {MissionProgress} == s.files - {MissionProgress};
  }

  /**
   * Naming the progress file itself as the new mission: it is copied to the
   * mission path and deleted, it loads as a plan without "action", progress
   * takes its "progress" key, and count_actions raises.  No plan is left
   * for _start to run.
   */
  lemma ProgressFileAsMission(s: McState, plan: Option<Action>, rec: ProgressRecord, now: real, recoverTime: real)
    requires MissionProgress in s.files && s.files[MissionProgress] == ProgressText(rec)
    requires rec.time.Some? && Abs(rec.time.value - now) <= recoverTime
    ensures var r := Initiated(s, plan, MissionProgress, now, recoverTime);
            && r.raised
            && r.plan.None?
            && r.state.progress == rec.progress.GetOr(0)
            && r.state.maxProgress == s.maxProgress
            && r.state.files == (s.files - {MissionProgress})[MissionPath := ProgressText(rec)]
  {
    var f2 := s.files[MissionPath := s.files[MissionProgress]] - {MissionProgress};
    assert f2 == (s.files - {MissionProgress})[MissionPath := ProgressText(rec)];
    assert f2[MissionPath] == ProgressText(rec);
  }

  /**
   * A fresh record whose max_progress differs from the count of the mission
   * at the mission path is not restored: progress is the mission's own
   * "progress" key (0 by default), max_progress is its count, and the record
   * stays on disk.
   */
  lemma MismatchedRecordIgnored(s: McState, plan: Option<Action>, root: Action, pr: Option<int>,
                                rec: ProgressRecord, now: real, recoverTime: real, missionfile: string)
    requires missionfile !in s.files && missionfile != MissionProgress
    requires MissionPath in s.files && s.files[MissionPath] == MissionText(MissionDoc(Some(root), pr))
    requires MissionProgress in s.files && s.files[MissionProgress] == ProgressText(rec)
    requires rec.time.Some? && Abs(rec.time.value - now) <= recoverTime
    requires rec.maxProgress.Some? && rec.maxProgress.value != Count(root)
    ensures Initiated(s, plan, missionfile, now, recoverTime)
            == Loaded(s.(progress := pr.GetOr(0), maxProgress := Count(root)), Some(root), false)
  {
    assert StaleChecked(s.files, now, recoverTime) == Some(s.files);
    assert Restore(Some(root), s.files[MissionProgress]) == Mismatch;
  }

  /** max_progress is -1 (no mission) or the count of the loaded plan. */
  predicate PlanConsistent(s: McState, plan: Option<Action>) {
    s.maxProgress == -1 || (plan.Some? && s.maxProgress == Count(plan.value))
  }

  /** initiate keeps max_progress consistent with the loaded plan whenever it does not raise. */
  lemma InitiateConsistent(s: McState, plan: Option<Action>, missionfile: string, now: real, recoverTime: real)
    requires PlanConsistent(s, plan)
    ensures var r := Initiated(s, plan, missionfile, now, recoverTime);
            !r.raised ==> PlanConsistent(r.state, r.plan)
  {
    match StaleChecked(s.files, now, recoverTime)
    case None =>
    case Some(f1) =>
      var f2 := if missionfile in f1 then f1[MissionPath := f1[missionfile]] - {MissionProgress} else f1;
      if MissionPath in f2 && f2[MissionPath].MissionText? {
        var doc := f2[MissionPath].doc;
        if MissionProgress in f2 {
          match Restore(doc.root, f2[MissionProgress])
          case Restored(p, m) =>
            assert doc.root.Some? && Count(doc.root.value) == m;
          case Unreadable =>
          case Mismatch =>
        }
      }
  }

  /** Other files in the working directory are never touched by initiate. */
  lemma InitiateFiles(s: McState, plan: Option<Action>, missionfile: string, now: real, recoverTime: real)
    ensures var g := Initiated(s, plan, missionfile, now, recoverTime).state.files;
            forall k :: k != MissionProgress && k != MissionPath ==> (k in g <==> k in s.files) && (k in g ==> g[k] == s.files[k])
  {
    match StaleChecked(s.files, now, recoverTime)
    case None =>
    case Some(f1) =>
      assert OthersKept(s.files, f1);
      if !(missionfile in f1 && missionfile == MissionPath) {
        var f2 := if missionfile in f1 then f1[MissionPath := f1[missionfile]] - {MissionProgress} else f1;
        assert OthersKept(s.files, f2);
        if MissionPath in f2 {
          var doc := match f2[MissionPath]
            case MissionText(d) => d
            case ProgressText(rec) => MissionDoc(None, rec.progress)
            case Corrupt => MissionDoc(None, None);
          assert OthersKept(s.files, FromDoc(s, f2, doc).state.files);
        }
      }
  }

  /** Every file other than the progress file and the mission file is as in `f`. */
  ghost predicate OthersKept(f: Files, g: Files) {
    forall k :: k != MissionProgress && k != MissionPath ==> (k in g <==> k in f) && (k in g ==> g[k] == f[k])
  }

  // ---------------------------------------------------------------------------
  // Resuming
  // ---------------------------------------------------------------------------

  /**
   * The two cuts lead _start to the same state whenever the saved progress is
   * 0, the plan is not a list, or the plan is a list of leaves and
   * mov_multiple nodes whose count differs from the saved progress.
   */
  predicate CutsAgree(root: Action, progress: int) {
    progress <= 0 || !root.List? || (FlatChildren(root.commands) && progress != Count(root))
  }

  lemma StartAgrees(s: McState, root: Action, env: Env, now: real)
    requires CutsAgree(root, s.progress)
    ensures Started(s, Some(root), env, now) == ResumedStart(s, Some(root), env, now)
  {
    if s.progress > 0 {
      if root.List? {
        var cs := root.commands;
        FlatListAgrees(cs, s.progress);
        ResumeListExact(cs, s.progress);
        if s.progress > CountList(cs) {
          FlatListOvershoot(cs, s.progress);
        }
      } else {
        FlatNodeAgrees(root, s.progress);
      }
    }
  }

  /**
   * _start as written, where its cut agrees with the corrected one: with
   * max_progress the plan's count, a saved progress that is not negative,
   * every action known and no failing move, the mission completes, progress
   * equals max_progress, and both mission files are gone.
   */
  lemma StartCompletes(s: McState, root: Action, env: Env, now: real)
    requires s.maxProgress == Count(root) && s.progress >= 0 && CutsAgree(root, s.progress)
    requires KnownSteps(Flatten(root)) && NoMovFailure(env)
    ensures var t := Started(s, Some(root), env, now);
            && t.progress == t.maxProgress == Count(root)
            && !t.running
            && MissionProgress !in t.files && MissionPath !in t.files
  {
    StartAgrees(s, root, env, now);
    ResumedStartCompletes(s, root, env, now);
  }

  /**
   * _start as written on [[a], b] with a saved progress of 1 (a done): the
   * cut hands back the whole plan, a runs again, and progress ends at 3 while
   * max_progress is 2.
   */
  lemma StartRepeatsNestedStep(a: Action, b: Action, s: McState, env: Env, now: real)
    requires a.Leaf? && b.Leaf? && !a.tag.Unrecognised? && !b.tag.Unrecognised?
    requires s.progress == 1 && s.maxProgress == 2 && NoMovFailure(env)
    ensures Started(s, Some(List([List([a]), b])), env, now).progress == 3
  {
    var root := List([List([a]), b]);
    NestedListResumesTooEarly(a, b);
    var s1 := s.(running := true);
    assert Started(s, Some(root), env, now) == Executed(root, s1, env, now);
    var cs := [List([a]), b];
    assert cs[1..] == [b] && [b][1..] == [] && [a][1..] == [];
    assert Flatten(a) == [LeafStep(a.tag, a.payload)];
    assert FlattenList([a]) == Flatten(a) + FlattenList([]);
    assert Flatten(List([a])) == [LeafStep(a.tag, a.payload)];
    assert FlattenList(cs[1..]) == [LeafStep(b.tag, b.payload)];
    assert Flatten(root) == Flatten(List([a])) + FlattenList(cs[1..]);
    ExecCountsAll(root, s1, env, now);
  }

  /**
   * _start as written on a list of leaves whose saved progress equals its
   * count (every step done, the record left behind): the whole list runs
   * again and progress ends at twice the count.
   */
  lemma StartRerunsConsumedList(cs: seq<Action>, s: McState, env: Env, now: real)
    requires FlatChildren(cs) && KnownSteps(FlattenList(cs)) && NoMovFailure(env)
    requires s.progress == s.maxProgress == CountList(cs) > 0
    ensures Started(s, Some(List(cs)), env, now).progress == 2 * CountList(cs)
  {
    FlatListExactlyConsumed(cs);
    var s1 := s.(running := true);
    assert Flatten(List(cs)) == FlattenList(cs);
    ExecCountsAll(List(cs), s1, env, now);
  }

  /**
   * The corrected _start: with max_progress the plan's count, a saved
   * progress that is not negative, every action known and no failing move,
   * the mission completes for every plan, however its lists nest.
   */
  lemma {:induction false} ResumedStartCompletes(s: McState, root: Action, env: Env, now: real)
    requires s.maxProgress == Count(root) && s.progress >= 0
    requires KnownSteps(Flatten(root)) && NoMovFailure(env)
    ensures var t := ResumedStart(s, Some(root), env, now);
            && t.progress == t.maxProgress == Count(root)
            && !t.running
            && MissionProgress !in t.files && MissionPath !in t.files
  {
    var s1 := s.(running := true);
    if s1.progress > 0 {
      ResumeExact(root, s1.progress);
      match ResumeSubplan(root, s1.progress)
      case Plan(q) =>
        KnownStepsSuffix(Flatten(root), s1.progress);
        ExecCountsAll(q, s1, env, now);
        KnownIsNotUnknownLeaf(q);
        ExecFinishes(q, s1, env, now);
      case Remaining(_) =>
        StartFromScratch(s1.(progress := 0), root, env, now);
    } else {
      StartFromScratch(s1, root, env, now);
    }
  }

  lemma StartFromScratch(s: McState, root: Action, env: Env, now: real)
    requires s.maxProgress == Count(root) && s.progress == 0
    requires KnownSteps(Flatten(root)) && NoMovFailure(env)
    ensures var t := Executed(root, s, env, now);
            && t.progress == t.maxProgress == Count(root)
            && !t.running
            && MissionProgress !in t.files && MissionPath !in t.files
  {
    ExecCountsAll(root, s, env, now);
    KnownIsNotUnknownLeaf(root);
    ExecFinishes(root, s, env, now);
  }
}
