/** Background admission: what an application may start after it has left the foreground. */
module Background {
  import opened Wrappers
  import opened TaskRecord
  import opened Subscribers
  import opened TaskTable
  import opened Invariants
  import opened Reachability
  import opened Recovery
  import opened Reactivation
  import opened Rules
  import opened Admission

  // ---------------------------------------------------------------- the union of modes

  /** Some task of the application among these keys has this mode. */
  predicate Used(tasks: Table, order: seq<string>, uid: int, mode: nat) {
    exists k :: k in order && k in tasks && tasks[k].app.uid == uid && mode in tasks[k].work.modes
  }

  lemma {:induction false} AddModesIs(acc: seq<nat>, modes: seq<nat>, mode: nat)
    ensures mode in AddModes(acc, modes) <==> mode in acc || mode in modes
  {
    if modes != [] {
      var n := |modes| - 1;
      AddModesIs(acc, modes[..n], mode);
      assert modes == modes[..n] + [modes[n]];
    }
  }

  lemma UsedSnoc(tasks: Table, order: seq<string>, uid: int, mode: nat)
    requires order != []
    ensures var n := |order| - 1;
            var last := order[n] in tasks && tasks[order[n]].app.uid == uid && mode in tasks[order[n]].work.modes;
            Used(tasks, order, uid, mode) <==> Used(tasks, order[..n], uid, mode) || last
  {
    assert order == order[..|order| - 1] + [order[|order| - 1]];
  }

  lemma {:induction false} CollectIs(tasks: Table, order: seq<string>, uid: int, mode: nat)
    ensures mode in CollectModes(tasks, order, uid) <==> Used(tasks, order, uid, mode)
  {
    if order != [] {
      hide Used, AddModes;
      var n := |order| - 1;
      CollectIs(tasks, order[..n], uid, mode);
      UsedSnoc(tasks, order, uid, mode);
      if order[n] in tasks && tasks[order[n]].app.uid == uid {
        AddModesIs(CollectModes(tasks, order[..n], uid), tasks[order[n]].work.modes, mode);
      }
    }
  }

  predicate NoRepeats(modes: seq<nat>) {
    forall i, j :: 0 <= i < j < |modes| ==> modes[i] != modes[j]
  }

  lemma {:induction false} AddModesOnce(acc: seq<nat>, modes: seq<nat>)
    requires NoRepeats(acc)
    ensures NoRepeats(AddModes(acc, modes))
  {
    if modes != [] {
      AddModesOnce(acc, modes[..|modes| - 1]);
    }
  }

  /** Each mode is remembered once. */
  lemma {:induction false} CollectedOnce(tasks: Table, order: seq<string>, uid: int)
    ensures NoRepeats(CollectModes(tasks, order, uid))
  {
    if order != [] {
      var n := |order| - 1;
      CollectedOnce(tasks, order[..n], uid);
      if order[n] in tasks {
        AddModesOnce(CollectModes(tasks, order[..n], uid), tasks[order[n]].work.modes);
      }
    }
  }

  function ModesOf(applied: map<int, seq<nat>>, uid: int): seq<nat> {
    if uid in applied then applied[uid] else []
  }

  lemma {:induction false} RebuildIs(tasks: Table, order: seq<string>, uid: int, mode: nat)
    ensures mode in ModesOf(Rebuild(tasks, order), uid) <==> Used(tasks, order, uid, mode)
  {
    if order != [] {
      hide Used, AddModes;
      var n := |order| - 1;
      RebuildIs(tasks, order[..n], uid, mode);
      UsedSnoc(tasks, order, uid, mode);
      var before, k := Rebuild(tasks, order[..n]), order[n];
      if k in tasks && tasks[k].app.uid == uid && uid in before {
        AddModesIs(before[uid], tasks[k].work.modes, mode);
      }
    }
  }

  /** The restart rebuild computes, for every application and whatever the order of the map, the same
      set of modes as the move to the background would. */
  lemma RebuildAgrees(tasks: Table, order: seq<string>, order': seq<string>, uid: int, mode: nat)
    requires IsWalk(order, tasks) && IsWalk(order', tasks)
    ensures mode in ModesOf(Rebuild(tasks, order), uid) <==> mode in CollectModes(tasks, order', uid)
    ensures mode in CollectModes(tasks, order', uid)
       <==> exists k :: k in tasks && tasks[k].app.uid == uid && mode in tasks[k].work.modes
  {
    hide Rebuild, CollectModes;
    RebuildIs(tasks, order, uid, mode);
    CollectIs(tasks, order', uid, mode);
  }

  // ---------------------------------------------------------------- admission

  function Admissible(s: State, u: int): Rule {
    Within(u, AppliedModes(s, u) + [AUDIO_PLAYBACK])
  }

  /** While the application is in the background, its request-object tasks use the modes remembered for it,
      and audio playback. */
  ghost predicate Admitted(s: State, u: int) {
    u !in s.foreground ==> AllObey(Admissible(s, u), s.tasks)
  }

  /** The request-object tasks of `u` that a restart would keep use audio playback only. */
  ghost predicate AudioOnly(file: Table, alive: Option<set<int>>, u: int) {
    forall k :: k in file && (alive.Some? ==> file[k].app.pid in alive.value) ==>
      Obeys(Within(u, [AUDIO_PLAYBACK]), file[k])
  }

  /** An update by id finds this record and replaces its modes. */
  predicate IsUpdated(s: State, caller: int, p: UpdateParam, env: UpdateEnv, r: Record) {
    Matches(ByIdAndRequest(p.taskId), r) && Replaces(s, caller, p, env, r)
  }

  /** What keeps admission intact, step by step. A start is refused or asks for no more than is remembered; an
      update does not get as far as replacing modes, or replaces them by remembered ones; a restart can read
      the processes and the foreground applications, or finds nothing but audio playback. */
  ghost predicate Admits(s: State, step: Step, u: int) {
    match step
    case StartStep(q, env, _) => u in s.foreground || !Accepts(s, q, env) || Obeys(Admissible(s, u), Candidate(s, q))
    case UpdateByIdStep(caller, p, env, _) =>
      u in s.foreground
      || forall k :: k in s.tasks && IsUpdated(s, caller, p, env, s.tasks[k]) ==>
           Permits(Admissible(s, u), s.tasks[k].app, p.modes)
    case UpdateByKeyStep(k, p, env, _) =>
      u in s.foreground || k !in s.tasks || !Rewrites(s, p, env, s.tasks[k])
      || Permits(Admissible(s, u), s.tasks[k].app, p.modes)
    case RestartStep(alive, reported, _, _) => (alive.Some? && reported.Some?) || AudioOnly(ReadTable(s.disk), alive, u)
    case _ => true
  }

  /** The walks of the steps that collect modes are complete. */
  ghost predicate Collects(s: State, step: Step) {
    match step
    case AppStateStep(_, _, order) => IsWalk(order, s.tasks)
    case RestartStep(_, _, order, _) => IsWalk(order, ReadTable(s.disk))
    case _ => true
  }

  /** All tasks of the application use modes from the union of their modes. */
  lemma UnionAdmits(tasks: Table, u: int, union: seq<nat>)
    requires forall k, m :: k in tasks && tasks[k].app.uid == u && m in tasks[k].work.modes ==> m in union
    ensures AllObey(Within(u, union + [AUDIO_PLAYBACK]), tasks)
  {
  }

  lemma MoveAdmits(s: State, u: int, order: seq<string>)
    requires IsWalk(order, s.tasks)
    ensures Admitted(AppState(s, u, false, order), u)
  {
    hide CollectModes, Permits;
    forall k, m | k in s.tasks && s.tasks[k].app.uid == u && m in s.tasks[k].work.modes
      ensures m in CollectModes(s.tasks, order, u)
    {
      CollectIs(s.tasks, order, u, m);
    }
    UnionAdmits(s.tasks, u, CollectModes(s.tasks, order, u));
  }

  lemma AppStateAdmitted(s: State, uid: int, toForeground: bool, order: seq<string>, u: int)
    requires Admitted(s, u) && IsWalk(order, s.tasks)
    ensures Admitted(AppState(s, uid, toForeground, order), u)
  {
    hide CollectModes, Permits;
    if u == uid && !toForeground {
      MoveAdmits(s, u, order);
    }
  }

  // ---------------------------------------------------------------- restart

  lemma RestartAdmitted(s: State, alive: set<int>, reported: set<int>, order: seq<string>, answers: map<string, Answer>,
                        u: int)
    requires IsWalk(order, ReadTable(s.disk))
    ensures Admitted(Restart(s, Some(alive), Some(reported), order, answers), u)
  {
    hide RestoreRounds, MaxTaskId, MaxNoteId, Rebuild, ReadTable, WriteTable, AllObey;
    var s' := Restart(s, Some(alive), Some(reported), order, answers);
    RoundsRecover(Fresh(s), order, alive, answers);
    assert s'.applied == Rebuild(s'.tasks, order);
    forall k, m | k in s'.tasks && s'.tasks[k].app.uid == u && m in s'.tasks[k].work.modes
      ensures m in ModesOf(s'.applied, u)
    {
      RebuildIs(s'.tasks, order, u, m);
    }
    UnionAdmits(s'.tasks, u, ModesOf(s'.applied, u));
  }

  lemma RestoreRoundKeepsWork(s: State, k: string, alive: set<int>, answers: map<string, Answer>)
    ensures var s' := RestoreRound(s, k, alive, answers);
            && SameAdmission(s, s')
            && forall j :: j in s'.tasks ==>
              j in s.tasks && s'.tasks[j].app == s.tasks[j].app && s'.tasks[j].work == s.tasks[j].work
  {
    hide Refresh, SharedCancel;
    if k in s.tasks {
      RefreshKeepsCore(s.tasks[k], s.nextNote, AnswerFor(answers, k));
      RefreshKeepsWork(s.tasks[k], s.nextNote, AnswerFor(answers, k));
    }
  }

  lemma {:induction false} RestoreRoundsKeepWork(s: State, order: seq<string>, alive: set<int>, answers: map<string,
                                                 Answer>)
    ensures var s' := RestoreRounds(s, order, alive, answers);
            && SameAdmission(s, s')
            && forall j :: j in s'.tasks ==>
              j in s.tasks && s'.tasks[j].app == s.tasks[j].app && s'.tasks[j].work == s.tasks[j].work
  {
    hide RestoreRound;
    if order != [] {
      var before := order[..|order| - 1];
      RestoreRoundsKeepWork(s, before, alive, answers);
      RestoreRoundKeepsWork(RestoreRounds(s, before, alive, answers), order[|order| - 1], alive, answers);
    }
  }

  /** The table after a restart, as far as admission is concerned: the records of the file whose process is
      alive, or all of them when that is not known. */
  lemma RestartKeepsWork(s: State, alive: Option<set<int>>, reported: Option<set<int>>, order: seq<string>,
                         answers: map<string, Answer>)
    requires IsWalk(order, ReadTable(s.disk))
    ensures var file, s' := ReadTable(s.disk), Restart(s, alive, reported, order, answers);
            && (forall k :: k in s'.tasks <==> k in file && (alive.Some? ==> file[k].app.pid in alive.value))
            && (forall k :: k in s'.tasks ==> s'.tasks[k].app == file[k].app && s'.tasks[k].work == file[k].work)
            && (alive.None? || reported.None? ==> s'.foreground == {} && s'.applied == map[])
  {
    hide RestoreRounds, MaxTaskId, MaxNoteId, Rebuild, ReadTable, WriteTable;
    if alive.Some? {
      RoundsRecover(Fresh(s), order, alive.value, answers);
      RestoreRoundsKeepWork(Fresh(s), order, alive.value, answers);
    }
  }

  /** After a restart admission holds exactly when the process list and the list of foreground applications
      were both readable, or the restored request-object tasks of the application use audio playback only:
      otherwise nothing is remembered for an application that is taken to be in the background. */
  lemma RestartAdmissionExact(s: State, alive: Option<set<int>>, reported: Option<set<int>>, order: seq<string>,
                              answers: map<string, Answer>, u: int)
    requires IsWalk(order, ReadTable(s.disk))
    ensures Admitted(Restart(s, alive, reported, order, answers), u)
       <==> (alive.Some? && reported.Some?) || AudioOnly(ReadTable(s.disk), alive, u)
  {
    hide IsWalk, ReadTable, Restart, AllIn;
    if alive.Some? && reported.Some? {
      RestartAdmitted(s, alive.value, reported.value, order, answers, u);
    } else {
      var file, s' := ReadTable(s.disk), Restart(s, alive, reported, order, answers);
      RestartKeepsWork(s, alive, reported, order, answers);
      assert Admissible(s', u) == Within(u, [AUDIO_PLAYBACK]);
      assert forall k :: k in s'.tasks ==>
        (Obeys(Within(u, [AUDIO_PLAYBACK]), s'.tasks[k]) <==> Obeys(Within(u, [AUDIO_PLAYBACK]), file[k]));
    }
  }

  // ---------------------------------------------------------------- start and update

  lemma StartKeepsForeground(s: State, q: Request, env: StartEnv, order: seq<string>)
    ensures SameAdmission(s, Start(s, q, env, order).s)
  {
    hide CheckStartModes, CheckMerge, Refresh, Notify, WriteTable, KeyOf, Allowed;
  }

  /** Neither update touches the foreground set or the remembered modes. */
  lemma UpdatesKeepAdmissionData(s: State, caller: int, k: string, p: UpdateParam, env: UpdateEnv, order: seq<string>)
    ensures SameAdmission(s, UpdateById(s, caller, p, env, order).s)
    ensures SameAdmission(s, UpdateByKey(s, k, p, env, order).s)
  {
    hide First, UpdateById, UpdateByKey, UpdateAccepted, LegacyAccepted, AllObey, ReadTable, AllIn;
    var found := First(s.tasks, order, ByIdAndRequest(p.taskId));
    var other := if found.Some? && found.value in s.tasks then s.tasks[found.value].app.uid + 1 else 0;
    UpdateByIdKeeps(s, caller, p, env, order, Within(other, []));
    UpdateByKeyKeeps(s, k, p, env, order, Within(if k in s.tasks then s.tasks[k].app.uid + 1 else 0, []));
  }

  /** A start of an application in the background breaks admission exactly when no guard stops it although it
      asks for more than is remembered, which takes the word of the application manager. */
  lemma StartAdmissionExact(s: State, u: int, q: Request, env: StartEnv, order: seq<string>)
    requires FreshIds(s.tasks, s.nextTask) && IsWalk(order, s.tasks) && Admitted(s, u)
    ensures Admitted(Start(s, q, env, order).s, u)
       <==> u in s.foreground || !Accepts(s, q, env) || Obeys(Admissible(s, u), Candidate(s, q))
  {
    hide FreshIds, IsWalk, Start, Accepts, Permits, Candidate, AllObey;
    StartKeepsForeground(s, q, env, order);
    if u !in s.foreground {
      StartExact(s, q, env, order, Admissible(s, u));
    }
  }

  lemma StartAdmitted(s: State, u: int, q: Request, env: StartEnv, order: seq<string>)
    requires Admitted(s, u) && (u in s.foreground || !Accepts(s, q, env) || Obeys(Admissible(s, u), Candidate(s, q)))
    ensures Admitted(Start(s, q, env, order).s, u)
  {
    hide Start, Accepts, Permits, Candidate, AllObey;
    StartKeepsForeground(s, q, env, order);
    if Start(s, q, env, order).status == Ok {
      AcceptedGuards(s, q, env, order);
    }
    if u !in s.foreground {
      StartKeeps(s, q, env, order, Admissible(s, u));
    }
  }

  /** An update, which is not checked against the remembered modes, breaks admission exactly when it replaces
      the modes of a task of the application by others. */
  lemma UpdateAdmissionExact(s: State, u: int, caller: int, p: UpdateParam, env: UpdateEnv, order: seq<string>,
                             k: string)
    requires Admitted(s, u) && u !in s.foreground && k in s.tasks
    ensures First(s.tasks, order, ByIdAndRequest(p.taskId)) == Some(k) ==>
              (Admitted(UpdateById(s, caller, p, env, order).s, u)
               <==> !Replaces(s, caller, p, env, s.tasks[k]) || Permits(Admissible(s, u), s.tasks[k].app, p.modes))
    ensures Admitted(UpdateByKey(s, k, p, env, order).s, u)
       <==> !Rewrites(s, p, env, s.tasks[k]) || Permits(Admissible(s, u), s.tasks[k].app, p.modes)
  {
    hide First, UpdateById, UpdateByKey, Replaces, Rewrites, Permits, AllObey;
    UpdatesKeepAdmissionData(s, caller, k, p, env, order);
    UpdateByKeyExact(s, k, p, env, order, Admissible(s, u));
    if First(s.tasks, order, ByIdAndRequest(p.taskId)) == Some(k) {
      UpdateByIdExact(s, caller, p, env, order, Admissible(s, u), k);
    }
  }

  lemma UpdateByIdAdmitted(s: State, u: int, caller: int, p: UpdateParam, env: UpdateEnv, order: seq<string>)
    requires Admitted(s, u) && Admits(s, UpdateByIdStep(caller, p, env, order), u)
    ensures Admitted(UpdateById(s, caller, p, env, order).s, u)
  {
    hide First, UpdateById, Replaces, Permits, AllObey;
    UpdatesKeepAdmissionData(s, caller, "", p, env, order);
    FirstFinds(s.tasks, order, ByIdAndRequest(p.taskId));
    var found := First(s.tasks, order, ByIdAndRequest(p.taskId));
    if u !in s.foreground {
      if found.Some? {
        UpdateByIdExact(s, caller, p, env, order, Admissible(s, u), found.value);
      } else {
        UpdateByIdKeeps(s, caller, p, env, order, Admissible(s, u));
      }
    }
  }

  lemma UpdateByKeyAdmitted(s: State, u: int, k: string, p: UpdateParam, env: UpdateEnv, order: seq<string>)
    requires Admitted(s, u) && Admits(s, UpdateByKeyStep(k, p, env, order), u)
    ensures Admitted(UpdateByKey(s, k, p, env, order).s, u)
  {
    hide UpdateByKey, Rewrites, Permits, AllObey;
    UpdatesKeepAdmissionData(s, 0, k, p, env, order);
    if u !in s.foreground {
      if k in s.tasks {
        UpdateByKeyExact(s, k, p, env, order, Admissible(s, u));
      } else {
        UpdateByKeyKeeps(s, k, p, env, order, Admissible(s, u));
      }
    }
  }

  // ---------------------------------------------------------------- every step and every run

  lemma StepAdmitted(s: State, step: Step, u: int)
    requires Admitted(s, u) && Admits(s, step, u) && Collects(s, step)
    ensures Admitted(Apply(s, step), u)
  {
    hide AllObey, IsWalk, Start, UpdateById, UpdateByKey, Restart, AppState, ReadTable, Accepts, Candidate, Replaces,
      Rewrites,
      Permits, AudioOnly;
    if step.StartStep? {
      StartAdmitted(s, u, step.q, step.startEnv, step.order);
    } else if step.UpdateByIdStep? {
      UpdateByIdAdmitted(s, u, step.caller, step.p, step.env, step.order);
    } else if step.UpdateByKeyStep? {
      UpdateByKeyAdmitted(s, u, step.k, step.p, step.env, step.order);
    } else if step.AppStateStep? {
      AppStateAdmitted(s, step.uid, step.toForeground, step.order, u);
    } else if step.RestartStep? {
      RestartAdmissionExact(s, step.alive, step.reported, step.order, step.answers, u);
    } else {
      hide Apply;
      RoutineKeeps(s, step, Admissible(s, u));
    }
  }

  /** The walks that look for a task by its id, or for one to merge with, are complete. */
  ghost predicate Searches(s: State, step: Step) {
    match step
    case StartStep(_, _, order) => IsWalk(order, s.tasks)
    case UpdateByIdStep(_, _, _, order) => IsWalk(order, s.tasks)
    case _ => true
  }

  lemma UpdateByIdStepExact(s: State, u: int, caller: int, p: UpdateParam, env: UpdateEnv, order: seq<string>)
    requires FreshIds(s.tasks, s.nextTask) && IsWalk(order, s.tasks) && Admitted(s, u)
    ensures Admitted(UpdateById(s, caller, p, env, order).s, u) <==> Admits(s, UpdateByIdStep(caller, p, env, order), u)
  {
    hide First, UpdateById, Replaces, Permits, AllObey, FreshIds;
    if Admits(s, UpdateByIdStep(caller, p, env, order), u) {
      UpdateByIdAdmitted(s, u, caller, p, env, order);
    } else {
      var k :| k in s.tasks && IsUpdated(s, caller, p, env, s.tasks[k])
               && !Permits(Admissible(s, u), s.tasks[k].app, p.modes);
      FirstIs(s.tasks, order, ByIdAndRequest(p.taskId), k, s.nextTask);
      UpdateAdmissionExact(s, u, caller, p, env, order, k);
    }
  }

  /** Background admission, exactly: a step keeps it if and only if the step's guards say so. */
  lemma StepAdmittedExact(s: State, step: Step, u: int)
    requires Inv(s, Full) && Admitted(s, u) && Collects(s, step) && Searches(s, step)
    ensures Admitted(Apply(s, step), u) <==> Admits(s, step, u)
  {
    hide Inv, AllObey, IsWalk, Start, UpdateById, UpdateByKey, Restart, AppState, ReadTable, Accepts, Candidate,
      Replaces, Rewrites, Permits, AudioOnly, FreshIds;
    InvIds(s);
    if step.StartStep? {
      StartAdmissionExact(s, u, step.q, step.startEnv, step.order);
    } else if step.UpdateByIdStep? {
      UpdateByIdStepExact(s, u, step.caller, step.p, step.env, step.order);
    } else if step.UpdateByKeyStep? {
      if u in s.foreground || step.k !in s.tasks {
        UpdateByKeyAdmitted(s, u, step.k, step.p, step.env, step.order);
      } else {
        UpdateAdmissionExact(s, u, 0, step.p, step.env, step.order, step.k);
      }
    } else if step.RestartStep? {
      RestartAdmissionExact(s, step.alive, step.reported, step.order, step.answers, u);
    } else {
      hide Apply;
      StepAdmitted(s, step, u);
    }
  }

  ghost predicate AdmitsRun(s: State, steps: seq<Step>, u: int) {
    if steps == [] then true
    else
      var before, last := steps[..|steps| - 1], steps[|steps| - 1];
      AdmitsRun(s, before, u) && Admits(Run(s, before), last, u) && Collects(Run(s, before), last)
  }

  /** The general form, from any state and for any run whose steps admit it. */
  lemma {:induction false} RunFromAdmitted(s: State, steps: seq<Step>, u: int)
    requires Admitted(s, u) && AdmitsRun(s, steps, u)
    ensures Admitted(Run(s, steps), u)
  {
    hide Apply, Admits, Collects, Admitted;
    if steps != [] {
      RunFromAdmitted(s, steps[..|steps| - 1], u);
      StepAdmitted(Run(s, steps[..|steps| - 1]), steps[|steps| - 1], u);
    }
  }

  /** What the admission check alone has to carry: no update, no start by the application while it is reported in the
      foreground, and no restart that cannot read a list. */
  predicate Unaided(step: Step, u: int) {
    match step
    case UpdateByIdStep(_, _, _, _) => false
    case UpdateByKeyStep(_, _, _, _) => false
    case StartStep(q, env, _) => q.uid == u ==> u !in env.reported
    case RestartStep(alive, reported, _, _) => alive.Some? && reported.Some?
    case _ => true
  }

  predicate AllUnaided(steps: seq<Step>, u: int) {
    forall i :: 0 <= i < |steps| ==> Unaided(steps[i], u)
  }

  lemma UnaidedAdmits(s: State, step: Step, u: int)
    requires Unaided(step, u)
    ensures Admits(s, step, u)
  {
    hide SameAbility, KeyOf, CheckStartModes, Publishable, CanMerge, ReadTable, NewRecord, WithTaskId;
    if step.StartStep? {
      RequestsAreNotInner(step.q);
      CandidateFacts(s, step.q, step.startEnv);
      CandidateKind(s, step.q);
    }
  }

  lemma CandidateKind(s: State, q: Request)
    ensures Candidate(s, q).app.byRequest == NewRecord(q).app.byRequest
    ensures Candidate(s, q).app.inner == NewRecord(q).app.inner
    ensures Candidate(s, q).app.uid == q.uid
  {
  }

  ghost predicate CollectsRun(s: State, steps: seq<Step>) {
    if steps == [] then true
    else CollectsRun(s, steps[..|steps| - 1]) && Collects(Run(s, steps[..|steps| - 1]), steps[|steps| - 1])
  }

  lemma {:induction false} UnaidedRun(s: State, steps: seq<Step>, u: int)
    requires CollectsRun(s, steps) && AllUnaided(steps, u)
    ensures AdmitsRun(s, steps, u)
  {
    hide Apply, Admits, Collects, Unaided;
    if steps != [] {
      UnaidedRun(s, steps[..|steps| - 1], u);
      UnaidedAdmits(Run(s, steps[..|steps| - 1]), steps[|steps| - 1], u);
    }
  }

  /** Background admission over whole runs: in a run without updates, without starts of the application while it
      is reported in the foreground, and with restarts that can read both lists, the application's request-object
      tasks use, whenever it is in the background, only the modes remembered for it and audio playback. */
  lemma RunAdmitted(steps: seq<Step>, u: int)
    requires CollectsRun(INIT, steps) && AllUnaided(steps, u)
    ensures Admitted(Run(INIT, steps), u)
  {
    hide AdmitsRun, CollectsRun, AllUnaided, Run;
    UnaidedRun(INIT, steps, u);
    RunFromAdmitted(INIT, steps, u);
  }

  // ---------------------------------------------------------------- the last move to the background

  lemma {:induction false} RunSplit(s: State, a: seq<Step>, b: seq<Step>)
    ensures Run(s, a + b) == Run(Run(s, a), b)
  {
    hide Apply;
    if b == [] {
      assert a + b == a;
    } else {
      var n := |b| - 1;
      RunSplit(s, a, b[..n]);
      assert (a + b)[..|a + b| - 1] == a + b[..n];
    }
  }

  /** Neither a restart nor another move of this application. */
  predicate Stays(step: Step, u: int) {
    !step.RestartStep? && !(step.AppStateStep? && step.uid == u)
  }

  lemma StepKeepsMemory(s: State, step: Step, u: int)
    requires Stays(step, u)
    ensures var s' := Apply(s, step);
            AppliedModes(s', u) == AppliedModes(s, u) && (u in s'.foreground <==> u in s.foreground)
  {
    hide Start, UpdateById, UpdateByKey, CollectModes, AllObey, ReadTable;
    if step.StartStep? {
      StartKeepsForeground(s, step.q, step.startEnv, step.order);
    } else if step.UpdateByIdStep? {
      UpdatesKeepAdmissionData(s, step.caller, "", step.p, step.env, step.order);
    } else if step.UpdateByKeyStep? {
      UpdatesKeepAdmissionData(s, 0, step.k, step.p, step.env, step.order);
    } else if !step.AppStateStep? {
      hide Apply;
      RoutineKeeps(s, step, PlainName);
    }
  }

  lemma {:induction false} RunKeepsMemory(s: State, steps: seq<Step>, u: int)
    requires forall i :: 0 <= i < |steps| ==> Stays(steps[i], u)
    ensures var s' := Run(s, steps);
            AppliedModes(s', u) == AppliedModes(s, u) && (u in s'.foreground <==> u in s.foreground)
  {
    hide Apply, Stays, AppliedModes;
    if steps != [] {
      RunKeepsMemory(s, steps[..|steps| - 1], u);
      StepKeepsMemory(Run(s, steps[..|steps| - 1]), steps[|steps| - 1], u);
    }
  }

  /** What is remembered is what was used when the application moved. */
  lemma MoveRemembers(s: State, u: int, order: seq<string>, mode: nat)
    requires IsWalk(order, s.tasks)
    ensures var s' := AppState(s, u, false, order);
            u !in s'.foreground && (mode in AppliedModes(s', u) <==> Used(s.tasks, order, u, mode))
  {
    hide CollectModes;
    CollectIs(s.tasks, order, u, mode);
  }

  /** The general form, for any continuation whose steps admit it. */
  lemma SinceMove(s: State, order: seq<string>, after: seq<Step>, u: int, k: string, i: nat)
    requires IsWalk(order, s.tasks) && (forall j :: 0 <= j < |after| ==> Stays(after[j], u))
    requires AdmitsRun(AppState(s, u, false, order), after, u)
    ensures var t := Run(AppState(s, u, false, order), after).tasks;
            k in t && t[k].app.uid == u && t[k].app.byRequest && i < |t[k].work.modes| ==>
              t[k].work.modes[i] == AUDIO_PLAYBACK || Used(s.tasks, order, u, t[k].work.modes[i])
  {
    hide AdmitsRun, AppState, IsWalk, Used, Run, Stays;
    var s1 := AppState(s, u, false, order);
    MoveAdmits(s, u, order);
    RunFromAdmitted(s1, after, u);
    RunKeepsMemory(s1, after, u);
    var t := Run(s1, after).tasks;
    if k in t && t[k].app.uid == u && t[k].app.byRequest && i < |t[k].work.modes| {
      MoveRemembers(s, u, order, t[k].work.modes[i]);
      assert Obeys(Admissible(s1, u), t[k]);
    }
  }

  lemma RunThrough(before: seq<Step>, step: Step, after: seq<Step>)
    ensures Run(INIT, before + [step] + after) == Run(Apply(Run(INIT, before), step), after)
  {
    hide Apply;
    RunSplit(INIT, before + [step], after);
    assert (before + [step])[..|before|] == before;
  }

  /** Background admission, in terms of the past: after an application has moved to the background, and until it
      moves again or the manager restarts, its request-object tasks use only modes that its tasks used when it
      moved, and audio playback, in every continuation without updates and without starts while the application is
      reported in the foreground. What came before the move does not matter. */
  lemma RunSinceMove(before: seq<Step>, order: seq<string>, after: seq<Step>, u: int, k: string, i: nat)
    requires IsWalk(order, Run(INIT, before).tasks) && (forall j :: 0 <= j < |after| ==> Stays(after[j], u))
    requires AllUnaided(after, u) && CollectsRun(AppState(Run(INIT, before), u, false, order), after)
    ensures var past, t := Run(INIT, before).tasks, Run(INIT, before + [AppStateStep(u, false, order)] + after).tasks;
            k in t && t[k].app.uid == u && t[k].app.byRequest && i < |t[k].work.modes| ==>
              t[k].work.modes[i] == AUDIO_PLAYBACK || Used(past, order, u, t[k].work.modes[i])
  {
    hide AdmitsRun, CollectsRun, AllUnaided, AppState, IsWalk, Used, Run, Stays;
    RunThrough(before, AppStateStep(u, false, order), after);
    UnaidedRun(AppState(Run(INIT, before), u, false, order), after, u);
    SinceMove(Run(INIT, before), order, after, u, k, i);
  }
}
