/** Which background modes tasks can end up with: admission from the background, merging, and the
    modes declared by the bundle, over whole runs. */
module Admission {
  import opened Wrappers
  import opened TaskRecord
  import opened Subscribers
  import opened TaskTable
  import opened Invariants
  import opened Reachability
  import opened Recovery
  import opened Reactivation
  import opened Rules
  import opened ModeChecks
  import L = Labels
  import D = Decimal

  // ---------------------------------------------------------------- rules over whole runs

  /** The rule holds in memory and in the file. */
  ghost predicate Holds(rule: Rule, s: State) {
    AllObey(rule, s.tasks) && AllObey(rule, ReadTable(s.disk))
  }

  /** `k` is the key a legacy update builds, from an ability name without underscores. */
  ghost predicate PlainLegacyKey(k: string) {
    exists uid, name, abilityId :: L.Plain(name) && k == L.TaskKey(uid, name, abilityId, false, NO_ID)
  }

  /** What each rule demands of the inputs. Ability names: no underscores where merging is concerned.
      Declared modes: what the manager finds cached is part of the configuration, and who updates a task by its id
      owns it. */
  ghost predicate Demands(rule: Rule, s: State, step: Step) {
    match step
    case StartStep(q, env, _) => GoodRequest(rule, s, q, env)
    case UpdateByIdStep(caller, p, env, order) =>
      var k := First(s.tasks, order, ByIdAndRequest(p.taskId));
      && (rule.MayCombine? ==> Small(p.modes))
      && (rule.Declared? && k.Some? && k.value in s.tasks ==>
            var app := s.tasks[k.value].app;
            && caller == app.uid && SmallConfig(rule.config)
            && env.configured <= ConfigOf(rule.config, caller, app.abilityName))
    case UpdateByKeyStep(k, p, env, _) =>
      && (rule.MayCombine? ==> Small(p.modes) && PlainLegacyKey(k))
      && (rule.Declared? && k in s.tasks ==>
            && SmallConfig(rule.config)
            && env.configured <= ConfigOf(rule.config, s.tasks[k].app.uid, s.tasks[k].app.abilityName))
    case _ => true
  }

  /** With plain names, a legacy key never finds a request-object task. */
  lemma LegacyKeyFindsLegacy(s: State, k: string)
    requires Keyed(s.tasks) && AllObey(PlainName, s.tasks) && PlainLegacyKey(k) && k in s.tasks
    ensures !s.tasks[k].app.byRequest
  {
    hide L.TaskKey;
    var app := s.tasks[k].app;
    assert Obeys(PlainName, s.tasks[k]);
    var uid, name, abilityId :| L.Plain(name) && k == L.TaskKey(uid, name, abilityId, false, NO_ID);
    L.LegacyAndRequestKeysDiffer(uid, name, abilityId, NO_ID, app.uid, app.abilityName, app.abilityId, app.taskId);
  }

  lemma UpdateByIdHolds(s: State, caller: int, p: UpdateParam, env: UpdateEnv, order: seq<string>, rule: Rule)
    requires Holds(rule, s) && !rule.Within? && Demands(rule, s, UpdateByIdStep(caller, p, env, order))
    ensures Holds(rule, UpdateById(s, caller, p, env, order).s)
  {
    hide ReadTable, UpdateById, First, AllDeclared, CheckModes, AllPass, IsJudged;
    var k := First(s.tasks, order, ByIdAndRequest(p.taskId));
    if k.Some? && k.value in s.tasks && rule.Declared? && UpdateAccepted(s.tasks[k.value], p, env) {
      CheckedDeclared(rule.config, env.configured, p.modes, s.tasks[k.value], env.keeping, env.special);
    }
    UpdateByIdKeeps(s, caller, p, env, order, rule);
  }

  lemma UpdateByKeyHolds(s: State, k: string, p: UpdateParam, env: UpdateEnv, order: seq<string>, rule: Rule)
    requires Holds(rule, s) && !rule.Within? && Demands(rule, s, UpdateByKeyStep(k, p, env, order))
    requires rule.MayCombine? ==> Keyed(s.tasks) && AllObey(PlainName, s.tasks)
    ensures Holds(rule, UpdateByKey(s, k, p, env, order).s)
  {
    hide Keyed, ReadTable, UpdateByKey, AllDeclared, CheckModes, AllPass, IsJudged, LegacySubModes, PlainLegacyKey;
    if k in s.tasks {
      if rule.MayCombine? {
        LegacyKeyFindsLegacy(s, k);
      }
      if rule.Declared? && LegacyAccepted(s.tasks[k], p, env) {
        LegacyDuty(s.tasks[k], s.nextNote, p, env.verdict);
        CheckedDeclared(rule.config, env.configured, p.modes, LegacySubModes(s.tasks[k], p), env.keeping, env.special);
      }
    }
    UpdateByKeyKeeps(s, k, p, env, order, rule);
  }

  lemma StepHolds(s: State, step: Step, rule: Rule)
    requires Holds(rule, s) && !rule.Within? && Demands(rule, s, step)
    requires rule.MayCombine? ==> Keyed(s.tasks) && AllObey(PlainName, s.tasks)
    ensures Holds(rule, Apply(s, step))
  {
    hide Keyed, AllObey, ReadTable, Start, UpdateById, UpdateByKey, Restart, AppState, GoodRequest;
    match step
    case StartStep(q, env, order) => GoodStartKeeps(s, q, env, order, rule);
    case UpdateByIdStep(caller, p, env, order) => UpdateByIdHolds(s, caller, p, env, order, rule);
    case UpdateByKeyStep(k, p, env, order) => UpdateByKeyHolds(s, k, p, env, order, rule);
    case AppStateStep(uid, toForeground, order) => AppStateQuiet(s, uid, toForeground, order);
    case RestartStep(alive, reported, order, answers) => RestartObeys(s, alive, reported, order, answers, rule);
    case _ =>
      assert Routine(step);
      hide Apply;
      RoutineKeeps(s, step, rule);
  }

  lemma AppStateQuiet(s: State, uid: int, toForeground: bool, order: seq<string>)
    ensures AppState(s, uid, toForeground, order).tasks == s.tasks
    ensures AppState(s, uid, toForeground, order).disk == s.disk
  {
    hide CollectModes;
  }

  ghost predicate DemandsRun(rule: Rule, s: State, steps: seq<Step>) {
    if steps == [] then true
    else DemandsRun(rule, s, steps[..|steps| - 1]) && Demands(rule, Run(s, steps[..|steps| - 1]), steps[|steps| - 1])
  }

  lemma {:induction false} RunHolds(steps: seq<Step>, rule: Rule)
    requires DemandsRun(rule, INIT, steps) && !rule.Within?
    requires rule.MayCombine? ==> DemandsRun(PlainName, INIT, steps)
    ensures Holds(rule, Run(INIT, steps))
  {
    hide Inv, Keyed, Apply, Demands, AllObey;
    if steps == [] {
      InitHolds(rule);
    } else {
      var before := steps[..|steps| - 1];
      RunHolds(before, rule);
      if rule.MayCombine? {
        RunInv(before, Basic);
        InvKeyed(Run(INIT, before));
        RunHolds(before, PlainName);
      }
      StepHolds(Run(INIT, before), steps[|steps| - 1], rule);
    }
  }

  lemma InvKeyed(s: State)
    requires Inv(s, Basic)
    ensures Keyed(s.tasks)
  {
  }

  lemma InitHolds(rule: Rule)
    ensures Holds(rule, INIT)
  {
  }

  /** Merge admission over whole runs: given ability names without underscores, no request-object task
      marked as combined ever holds the data-transfer or the special-scenario mode. */
  lemma RunCombined(steps: seq<Step>, k: string)
    requires DemandsRun(MayCombine, INIT, steps) && DemandsRun(PlainName, INIT, steps)
    ensures var t := Run(INIT, steps).tasks;
            k in t && t[k].app.byRequest && t[k].app.combined ==>
              DATA_TRANSFER !in t[k].work.modes && SPECIAL_SCENARIO !in t[k].work.modes
  {
    hide DemandsRun, Run, ReadTable;
    RunHolds(steps, MayCombine);
    var t := Run(INIT, steps).tasks;
    if k in t {
      assert Obeys(MayCombine, t[k]);
    }
  }

  /** Modes over whole runs, for a configuration that contains whatever the manager found cached: every mode of
      every new-interface task of an application is in it, or covered by the combined audio and recording mode. */
  lemma RunConfigured(steps: seq<Step>, config: Config, k: string, i: nat)
    requires DemandsRun(Declared(config), INIT, steps)
    ensures var t := Run(INIT, steps).tasks;
            k in t && t[k].app.newApi && !t[k].app.inner && i < |t[k].work.modes| ==>
              IsDeclared(config, t[k].app, t[k].work.modes[i])
  {
    hide DemandsRun, Run, ReadTable, IsDeclared;
    RunHolds(steps, Declared(config));
    var t := Run(INIT, steps).tasks;
    if k in t {
      assert Obeys(Declared(config), t[k]);
    }
  }

  // ---------------------------------------------------------------- exactly when an update breaks a rule

  /** The update by id replaces the modes of this record. */
  predicate Replaces(s: State, caller: int, p: UpdateParam, env: UpdateEnv, r: Record) {
    caller !in s.disabled && p.taskId >= 0 && UpdateAccepted(r, p, env) && env.named && !r.app.combined
  }

  lemma AfterUpdateModes(s: State, k: string, p: Posted, order: seq<string>, env: UpdateEnv)
    requires k in s.tasks
    ensures Settle(s, k, p).tasks[k] == p.r
    ensures var t := AfterUpdate(Settle(s, k, p), k, order, env).tasks;
            k in t && t[k].app == p.r.app && t[k].work.modes == p.r.work.modes
  {
    hide Reactivations, Notify, WriteTable;
    ReactivationsProgress(Settle(s, k, p), order, p.r.app.uid, env.answers);
  }

  lemma UpdateByIdStores(s: State, caller: int, p: UpdateParam, env: UpdateEnv, order: seq<string>, k: string)
    requires First(s.tasks, order, ByIdAndRequest(p.taskId)) == Some(k) && k in s.tasks
    requires Replaces(s, caller, p, env, s.tasks[k])
    ensures var t := UpdateById(s, caller, p, env, order).s.tasks;
            k in t && t[k].app == s.tasks[k].app && t[k].work.modes == p.modes
  {
    hide First, CheckModes, AllPass, IsJudged, UpdateNotification, AfterUpdate;
    var u := UpdateNotification(s.tasks[k], s.nextNote, p, env);
    CheckModesJudged(env.configured, p.modes, s.tasks[k], env.keeping, env.special);
    UpdateNotificationDuty(s.tasks[k], s.nextNote, p, env);
    AfterUpdateModes(s, k, u, order, env);
  }

  /** An update by id keeps a rule exactly when it does not get as far as replacing the modes, or the
      rule permits the new ones. */
  lemma UpdateByIdExact(s: State, caller: int, p: UpdateParam, env: UpdateEnv, order: seq<string>, rule: Rule,
                        k: string)
    requires AllObey(rule, s.tasks) && First(s.tasks, order, ByIdAndRequest(p.taskId)) == Some(k) && k in s.tasks
    ensures AllObey(rule, UpdateById(s, caller, p, env, order).s.tasks)
       <==> !Replaces(s, caller, p, env, s.tasks[k]) || Permits(rule, s.tasks[k].app, p.modes)
  {
    hide First, UpdateById, CheckModes, AllPass, IsJudged, Permits, ReadTable;
    var r := s.tasks[k];
    if !Replaces(s, caller, p, env, r) {
      UpdateRefused(s, caller, p, env, order, k, rule);
    } else if Permits(rule, r.app, p.modes) {
      UpdateByIdKeeps(s, caller, p, env, order, rule);
    } else {
      UpdateByIdStores(s, caller, p, env, order, k);
      var t := UpdateById(s, caller, p, env, order).s.tasks;
      assert !Obeys(rule, t[k]);
    }
  }

  /** Declared modes: the new ones have to be declared by the bundle that owns the task. The code looks
      the caller's configuration up instead, and finds the task by id alone. */
  lemma UpdateByIdDeclaredExact(s: State, caller: int, p: UpdateParam, env: UpdateEnv, order: seq<string>,
                                config: Config, k: string)
    requires AllObey(Declared(config), s.tasks) && Small(p.modes)
    requires First(s.tasks, order, ByIdAndRequest(p.taskId)) == Some(k) && k in s.tasks
    requires s.tasks[k].app.newApi && !s.tasks[k].app.inner
    ensures AllObey(Declared(config), UpdateById(s, caller, p, env, order).s.tasks)
       <==> !Replaces(s, caller, p, env, s.tasks[k]) || AllDeclared(config, s.tasks[k].app, p.modes)
  {
    hide First, UpdateById, Replaces, AllDeclared, AllObey;
    UpdateByIdExact(s, caller, p, env, order, Declared(config), k);
  }

  lemma UpdateRefused(s: State, caller: int, p: UpdateParam, env: UpdateEnv, order: seq<string>, k: string, rule: Rule)
    requires First(s.tasks, order, ByIdAndRequest(p.taskId)) == Some(k) && k in s.tasks
    requires !Replaces(s, caller, p, env, s.tasks[k])
    ensures Keeps(s, UpdateById(s, caller, p, env, order).s, rule)
  {
    hide First, CheckModes, AllPass, IsJudged, Keeps, Permits, UpdateById;
    if caller in s.disabled || p.taskId < 0 {
      UpdateRejectedEarly(s, caller, p, env, order);
      SameKeeps(s, s, rule);
    } else {
      UpdateByIdKeeps(s, caller, p, env, order, rule);
    }
  }

  lemma UpdateRejectedEarly(s: State, caller: int, p: UpdateParam, env: UpdateEnv, order: seq<string>)
    requires caller in s.disabled || p.taskId < 0
    ensures UpdateById(s, caller, p, env, order).s == s
  {
    hide First, CheckModes, AllPass, IsJudged, UpdateNotification, AfterUpdate;
  }

  /** The legacy update replaces the modes of this record. */
  predicate Rewrites(s: State, p: UpdateParam, env: UpdateEnv, r: Record) {
    r.app.uid !in s.disabled && !SameModes(r.work.modes, p.modes) && LegacyAccepted(r, p, env)
  }

  lemma UpdateByKeyStores(s: State, k: string, p: UpdateParam, env: UpdateEnv, order: seq<string>)
    requires k in s.tasks && Rewrites(s, p, env, s.tasks[k])
    ensures var t := UpdateByKey(s, k, p, env, order).s.tasks;
            k in t && t[k].app == s.tasks[k].app && t[k].work.modes == p.modes
  {
    hide CheckModes, AllPass, IsJudged, SameModes, LegacySubModes, LegacyPosted, AfterUpdate;
    LegacyDuty(s.tasks[k], s.nextNote, p, env.verdict);
    CheckModesJudged(env.configured, p.modes, LegacySubModes(s.tasks[k], p), env.keeping, env.special);
    AfterUpdateModes(s, k, LegacyPosted(s.tasks[k], s.nextNote, p, env.verdict), order, env);
  }

  lemma UpdateByKeyRefused(s: State, k: string, p: UpdateParam, env: UpdateEnv, order: seq<string>, rule: Rule)
    requires k in s.tasks && !Rewrites(s, p, env, s.tasks[k])
    ensures Keeps(s, UpdateByKey(s, k, p, env, order).s, rule)
  {
    hide CheckModes, AllPass, IsJudged, SameModes, LegacySubModes, LegacyPosted, AfterUpdate, Keeps, WriteTable;
    SameKeeps(s, s, rule);
    LegacyDuty(s.tasks[k], s.nextNote, p, env.verdict);
    CheckModesJudged(env.configured, p.modes, LegacySubModes(s.tasks[k], p), env.keeping, env.special);
    PutKeeps(s, k, LegacySubModes(s.tasks[k], p), Put(s, k, LegacySubModes(s.tasks[k], p)), rule);
  }

  /** The same for a legacy update. */
  lemma UpdateByKeyExact(s: State, k: string, p: UpdateParam, env: UpdateEnv, order: seq<string>, rule: Rule)
    requires AllObey(rule, s.tasks) && k in s.tasks
    ensures AllObey(rule, UpdateByKey(s, k, p, env, order).s.tasks)
       <==> !Rewrites(s, p, env, s.tasks[k]) || Permits(rule, s.tasks[k].app, p.modes)
  {
    hide UpdateByKey, CheckModes, AllPass, IsJudged, Rewrites, Permits, ReadTable;
    var r := s.tasks[k];
    if !Rewrites(s, p, env, r) {
      UpdateByKeyRefused(s, k, p, env, order, rule);
    } else if Permits(rule, r.app, p.modes) {
      UpdateByKeyKeeps(s, k, p, env, order, rule);
    } else {
      UpdateByKeyStores(s, k, p, env, order);
      var t := UpdateByKey(s, k, p, env, order).s.tasks;
      assert !Obeys(rule, t[k]);
    }
  }

  /** A legacy update keeps the merge rule exactly when the record its key finds is not a combined
      request-object task, or its modes are not replaced, or the new modes may be merged. */
  lemma UpdateByKeyCombineExact(s: State, k: string, p: UpdateParam, env: UpdateEnv, order: seq<string>)
    requires AllObey(MayCombine, s.tasks) && Small(p.modes) && k in s.tasks
    ensures AllObey(MayCombine, UpdateByKey(s, k, p, env, order).s.tasks)
       <==> !(s.tasks[k].app.byRequest && s.tasks[k].app.combined) || !Rewrites(s, p, env, s.tasks[k])
            || Mergeable(p.modes)
  {
    hide UpdateByKey, Rewrites, AllObey;
    UpdateByKeyExact(s, k, p, env, order, MayCombine);
  }

  /** With an underscore in its ability name, a legacy update does reach a request-object task: the one
      of ability "a" with this ability id and task id. */
  lemma UnderscoreUpdateBreaks(s: State, uid: int, abilityId: int, taskId: int, p: UpdateParam, env: UpdateEnv,
                               order: seq<string>)
    requires AllObey(MayCombine, s.tasks) && Small(p.modes) && DATA_TRANSFER in p.modes
    requires var k := L.TaskKey(uid, "a", abilityId, true, taskId);
             k in s.tasks && s.tasks[k].app.byRequest && s.tasks[k].app.combined && Rewrites(s, p, env, s.tasks[k])
    ensures var k := L.TaskKey(uid, L.Line(["a"], D.ToString(abilityId)), taskId, false, NO_ID);
            !AllObey(MayCombine, UpdateByKey(s, k, p, env, order).s.tasks)
  {
    hide UpdateByKey, Rewrites, AllObey;
    L.UnderscoreKeysCanCoincide(uid, abilityId, taskId, NO_ID);
    UpdateByKeyCombineExact(s, L.TaskKey(uid, "a", abilityId, true, taskId), p, env, order);
  }

  // ---------------------------------------------------------------- merging

  /** The task a merging start names: its id, the same application, both sides marked as combined, a
      notification to share, and the same sets of modes and submodes. */
  predicate CanMerge(target: Record, r: Record) {
    && target.app.taskId == r.work.mergeTaskId && target.app.uid == r.app.uid && target.app.combined
    && target.notice.id != NO_ID
    && SameModes(target.work.modes, r.work.modes) && SameModes(target.work.subModes, r.work.subModes)
  }

  /** The walk order plays no part: the target is the one task that qualifies. */
  lemma MatchMergeIs(tasks: Table, r: Record, order: seq<string>, nextTask: int, k: string)
    requires FreshIds(tasks, nextTask) && IsWalk(order, tasks)
    ensures MatchMerge(tasks, r, order) == Share(k) <==> k in tasks && CanMerge(tasks[k], r)
  {
    hide First, SameModes;
    var q := ByIdAndUid(r.work.mergeTaskId, r.app.uid);
    FirstFinds(tasks, order, q);
    if k in tasks && Matches(q, tasks[k]) {
      FirstIs(tasks, order, q, k, nextTask);
    }
  }

  lemma {:induction false} FirstOrderFree(tasks: Table, order: seq<string>, order': seq<string>, q: Query,
                                          nextTask: int)
    requires FreshIds(tasks, nextTask) && IsWalk(order, tasks) && IsWalk(order', tasks) && !q.OfUid?
    ensures First(tasks, order, q) == First(tasks, order', q)
  {
    hide First;
    FirstFinds(tasks, order, q);
    FirstFinds(tasks, order', q);
    var k, k' := First(tasks, order, q), First(tasks, order', q);
    if k.Some? {
      FirstIs(tasks, order', q, k.value, nextTask);
    } else if k'.Some? {
      FirstIs(tasks, order, q, k'.value, nextTask);
    }
  }

  lemma StartOrderFree(s: State, q: Request, env: StartEnv, order: seq<string>, order': seq<string>)
    requires FreshIds(s.tasks, s.nextTask) && IsWalk(order, s.tasks) && IsWalk(order', s.tasks)
    ensures Start(s, q, env, order) == Start(s, q, env, order')
  {
    hide First, FreshIds, IsWalk, Allowed, KeyOf, CheckStartModes, ModesPass, Insert, Refresh, SameModes;
    var r := Candidate(s, q);
    FirstOrderFree(s.tasks, order, order', ByIdAndUid(r.work.mergeTaskId, r.app.uid), s.nextTask);
    MergeOrderFree(s.tasks, r, order, order');
  }

  lemma MergeOrderFree(tasks: Table, r: Record, order: seq<string>, order': seq<string>)
    requires var q := ByIdAndUid(r.work.mergeTaskId, r.app.uid); First(tasks, order, q) == First(tasks, order', q)
    ensures CheckMerge(tasks, r, order) == CheckMerge(tasks, r, order')
  {
    hide First, SameModes;
  }

  /** An accepted merging start takes over label and id of the one task it names, publishes nothing and
      hands out no notification id. */
  lemma MergedStart(s: State, q: Request, env: StartEnv, order: seq<string>) returns (k: string)
    requires Inv(s, Full) && IsWalk(order, s.tasks) && Start(s, q, env, order).status == Ok
    requires NewRecord(q).app.byRequest && NewRecord(q).work.mergeTaskId != NO_ID
    ensures var r, s' := Candidate(s, q), Start(s, q, env, order).s;
            && r.app.combined && Mergeable(r.work.modes)
            && k in s.tasks && CanMerge(s.tasks[k], r)
            && KeyOf(r) !in s.tasks && KeyOf(r) in s'.tasks
            && s'.tasks[KeyOf(r)].notice.text == s.tasks[k].notice.text
            && s'.tasks[KeyOf(r)].notice.id == s.tasks[k].notice.id
            && s'.notes == s.notes && s'.nextNote == s.nextNote
  {
    hide First, Inv, Allowed, L.TaskKey, CheckStartModes, ModesPass, Refresh, SameModes, FreshIds, IsWalk, WriteTable,
      Notify;
    var r := Candidate(s, q);
    AcceptedStart(s, q, env, order);
    InvIds(s);
    k := CheckMerge(s.tasks, r, order).k;
    MatchMergeIs(s.tasks, r, order, s.nextTask, k);
  }

  lemma InvIds(s: State)
    requires Inv(s, Full)
    ensures FreshIds(s.tasks, s.nextTask)
  {
    hide ReadTable, KeyOf, Fits, SameAbility;
  }

  // ---------------------------------------------------------------- exactly when a start is accepted

  /** The answers with which composing and publishing a new record's notifications succeeds. */
  predicate Publishable(r: Record, a: Answer) {
    && !a.main.Unavailable? && !a.main.Rejected?
    && (HasLiveViewPart(r) ==> !a.sub.Unavailable? && !a.sub.Rejected?)
  }

  lemma RefreshOk(r: Record, next: int, a: Answer)
    requires !r.phase.suspended
    ensures Refresh(r, next, a).status == Ok <==> Publishable(r, a)
  {
    hide OwnLabel, OwnSubLabel;
    var main := Publish(r, next, !a.main.Rejected?);
    if HasLiveViewPart(r) {
      if a.main.Unavailable? {
      } else if main.status != Ok || a.sub.EmptyText? {
      } else if a.sub.Unavailable? {
      } else {
      }
    } else if r.notice.id == NO_ID {
    } else {
    }
  }

  predicate IsMerging(r: Record) {
    r.app.byRequest && r.work.mergeTaskId != NO_ID
  }

  /** A request-object task may be applied for: fewer than ten for the ability, and the application is in
      the foreground, remembered or reported there, or asks for audio playback only. */
  predicate MayApply(s: State, r: Record, env: StartEnv) {
    && |SameAbility(s.tasks, r.app.abilityId)| < ABILITY_TASK_MAX_NUM
    && (r.app.inner || r.app.uid in s.foreground || r.app.uid in env.reported
        || AllIn(r.work.modes, AppliedModes(s, r.app.uid) + [AUDIO_PLAYBACK]))
  }

  /** The guards of a start, in their order: the switch, pre-launch, admission, the key, the modes, merging,
      and publishing, unless the notification is shared or the caller wants none. */
  predicate Accepts(s: State, q: Request, env: StartEnv) {
    var r := Candidate(s, q);
    && r.app.uid !in s.disabled && !env.preLaunch && (r.app.byRequest ==> MayApply(s, r, env))
    && KeyOf(r) !in s.tasks && ModesPass(r, env)
    && (r.app.byRequest && r.app.combined ==> Mergeable(r.work.modes))
    && (IsMerging(r) ==> r.app.combined && exists k :: k in s.tasks && CanMerge(s.tasks[k], r))
    && (!IsMerging(r) && !(r.app.inner && !r.app.innerNotify) ==> Publishable(r, env.answer))
  }

  lemma CandidateFacts(s: State, q: Request, env: StartEnv)
    ensures var r := Candidate(s, q);
            && !r.phase.suspended && r.app.uid == NewRecord(q).app.uid
            && (Allowed(s, NewRecord(q), env) == Ok <==> !env.preLaunch && (r.app.byRequest ==> MayApply(s, r, env)))
  {
    hide SameAbility, AllIn;
  }

  /** The merge check passes for no one but a target that qualifies. */
  lemma MergeGuard(s: State, r: Record, order: seq<string>)
    ensures var m := CheckMerge(s.tasks, r, order);
            && (!m.Refuse? ==>
                  && (r.app.byRequest && r.app.combined ==> Mergeable(r.work.modes))
                  && (m.Share? <==> IsMerging(r))
                  && (IsMerging(r) ==> r.app.combined && m.k in s.tasks && CanMerge(s.tasks[m.k], r)))
  {
    hide First, SameModes;
    FirstFinds(s.tasks, order, ByIdAndUid(r.work.mergeTaskId, r.app.uid));
  }

  lemma MergeGuardExact(s: State, r: Record, order: seq<string>)
    requires FreshIds(s.tasks, s.nextTask) && IsWalk(order, s.tasks)
    requires r.app.byRequest && r.app.combined ==> Mergeable(r.work.modes)
    requires IsMerging(r) ==> r.app.combined && exists k :: k in s.tasks && CanMerge(s.tasks[k], r)
    ensures !CheckMerge(s.tasks, r, order).Refuse?
  {
    hide First, SameModes, FreshIds, IsWalk, MatchMerge;
    if IsMerging(r) {
      var k :| k in s.tasks && CanMerge(s.tasks[k], r);
      MatchMergeIs(s.tasks, r, order, s.nextTask, k);
    }
  }

  lemma SubmitStatus(s: State, r: Record, env: StartEnv, order: seq<string>)
    requires !r.phase.suspended
    ensures Submit(s, r, env, order).status == Ok
       <==> ModesPass(r, env) && !CheckMerge(s.tasks, r, order).Refuse?
            && (!IsMerging(r) && !(r.app.inner && !r.app.innerNotify) ==> Publishable(r, env.answer))
  {
    hide CheckStartModes, ModesPass, MatchMerge, Insert, Refresh, Publishable, SameModes;
    RefreshOk(r, s.nextNote, env.answer);
    StartModesJudged(r, env);
    MergeGuard(s, r, order);
    RefusalsFail(s.tasks, r, order);
  }

  lemma RefusalsFail(tasks: Table, r: Record, order: seq<string>)
    ensures CheckMerge(tasks, r, order).Refuse? ==> CheckMerge(tasks, r, order).status != Ok
  {
    hide First, SameModes;
  }

  /** An accepted start has passed all guards, whatever the walk. */
  lemma AcceptedGuards(s: State, q: Request, env: StartEnv, order: seq<string>)
    requires Start(s, q, env, order).status == Ok
    ensures Accepts(s, q, env)
  {
    hide CheckStartModes, ModesPass, CheckMerge, Submit, Publishable, MayApply, Mergeable, CanMerge, L.TaskKey,
      NewRecord, WithTaskId, Allowed;
    var r := Candidate(s, q);
    CandidateFacts(s, q, env);
    SubmitStatus(s.(nextTask := s.nextTask + 1), r, env, order);
    MergeGuard(s, r, order);
  }

  /** A start is accepted exactly when all guards pass. */
  lemma AcceptsExact(s: State, q: Request, env: StartEnv, order: seq<string>)
    requires FreshIds(s.tasks, s.nextTask) && IsWalk(order, s.tasks)
    ensures Start(s, q, env, order).status == Ok <==> Accepts(s, q, env)
  {
    hide FreshIds, IsWalk, CheckStartModes, ModesPass, CheckMerge, Submit, Publishable, MayApply, Mergeable, CanMerge,
      L.TaskKey, NewRecord, WithTaskId, Allowed;
    var r := Candidate(s, q);
    if Accepts(s, q, env) {
      CandidateFacts(s, q, env);
      MergeGuardExact(s, r, order);
      SubmitStatus(s.(nextTask := s.nextTask + 1), r, env, order);
    } else if Start(s, q, env, order).status == Ok {
      AcceptedGuards(s, q, env, order);
    }
  }

  /** An accepted start stores the requested record, up to its notification. */
  lemma StartStores(s: State, q: Request, env: StartEnv, order: seq<string>)
    requires Start(s, q, env, order).status == Ok
    ensures var r, t := Candidate(s, q), Start(s, q, env, order).s.tasks;
            KeyOf(r) in t && t[KeyOf(r)].app == r.app && t[KeyOf(r)].work == r.work
  {
    hide Notify, WriteTable, Refresh, CheckStartModes, ModesPass, First, SameModes, Allowed, L.TaskKey, NewRecord,
      WithTaskId;
    var r := Candidate(s, q);
    match CheckMerge(s.tasks, r, order) {
      case Refuse(_) =>
      case Share(j) =>
      case Separate =>
        RefreshKeepsCore(r, s.nextNote, env.answer);
        RefreshKeepsWork(r, s.nextNote, env.answer);
    }
  }

  /** A start keeps a rule exactly when a guard stops it or the rule permits what is asked for. */
  lemma StartExact(s: State, q: Request, env: StartEnv, order: seq<string>, rule: Rule)
    requires FreshIds(s.tasks, s.nextTask) && IsWalk(order, s.tasks) && AllObey(rule, s.tasks)
    ensures AllObey(rule, Start(s, q, env, order).s.tasks) <==> !Accepts(s, q, env) || Obeys(rule, Candidate(s, q))
  {
    hide FreshIds, IsWalk, Start, Accepts, Permits, ReadTable, Candidate, KeyOf;
    var r := Candidate(s, q);
    AcceptsExact(s, q, env, order);
    if !Accepts(s, q, env) || Obeys(rule, r) {
      StartKeeps(s, q, env, order, rule);
    } else {
      StartStores(s, q, env, order);
      assert !Obeys(rule, Start(s, q, env, order).s.tasks[KeyOf(r)]);
    }
  }
}
