/** Rules about what a task may do in the background, and why steps that neither start nor update a
    task keep every such rule. */
module Rules {
  import opened Wrappers
  import opened TaskRecord
  import opened Subscribers
  import opened TaskTable
  import opened ModeChecks
  import opened Invariants
  import opened Reachability
  import opened Recovery
  import opened Reactivation
  import L = Labels
  import D = Decimal

  /** Modes declared for an application's ability by its bundle. */
  type Config = map<(int, string), set<nat>>

  datatype Rule =
    | MayCombine
    | Declared(config: Config)
    | PlainName
    | Within(uid: int, allowed: seq<nat>)
    | ByComponents(asked: set<(int, string)>)

  function ConfigOf(config: Config, uid: int, abilityName: string): set<nat> {
    if (uid, abilityName) in config then config[(uid, abilityName)] else {}
  }

  /** The mode is declared, or is an audio, recording or call mode of a request-object task whose
      ability declares the combined mode. */
  predicate IsDeclared(config: Config, app: App, mode: nat) {
    var c := ConfigOf(config, app.uid, app.abilityName);
    (mode != 0 && mode in c) || (IsAvMode(mode) && app.byRequest && AV_PLAYBACK_AND_RECORD in c)
  }

  predicate AllDeclared(config: Config, app: App, modes: seq<nat>) {
    forall i :: 0 <= i < |modes| ==> IsDeclared(config, app, modes[i])
  }

  /** The modes of a configuration are bit positions. */
  predicate SmallConfig(config: Config) {
    forall p, m :: p in config && m in config[p] ==> m <= D.INT32_MAX
  }

  predicate Mergeable(modes: seq<nat>) {
    DATA_TRANSFER !in modes && SPECIAL_SCENARIO !in modes
  }

  /** The rule, for one task with these modes. */
  predicate Permits(rule: Rule, app: App, modes: seq<nat>) {
    match rule
    case MayCombine => Small(modes) && (app.byRequest && app.combined ==> Mergeable(modes))
    case Declared(config) => app.newApi && !app.inner ==> Small(modes) && AllDeclared(config, app, modes)
    case PlainName => L.Plain(app.abilityName)
    case Within(uid, allowed) => app.uid == uid && app.byRequest ==> AllIn(modes, allowed)
    case ByComponents(asked) => OfComponent(app) ==> (app.uid, app.abilityName) in asked
  }

  /** A component of the application itself asked for the task, with a notification. */
  predicate OfComponent(app: App) {
    app.innerNotify && app.fromComponent
  }

  predicate Obeys(rule: Rule, r: Record) {
    Permits(rule, r.app, r.work.modes)
  }

  ghost predicate AllObey(rule: Rule, t: Table) {
    forall k :: k in t ==> Obeys(rule, t[k])
  }

  lemma ObeysRestored(rule: Rule, r: Record)
    requires !rule.Within? && Obeys(rule, r)
    ensures Obeys(rule, Restored(r))
  {
    if Small(r.work.modes) {
      ModesRoundTrip(r.work.modes);
    }
  }

  lemma WrittenObey(rule: Rule, t: Table)
    requires !rule.Within? && AllObey(rule, t)
    ensures AllObey(rule, ReadTable(WriteTable(t)))
  {
    hide ReadTable, WriteTable, Obeys, Restored;
    TableRoundTrip(t);
    forall k | k in t ensures Obeys(rule, Restored(t[k])) {
      ObeysRestored(rule, t[k]);
    }
  }

  /** The rule survives in memory, and in the file as well where it does not depend on the moment;
      the admission data is untouched. */
  ghost predicate Keeps(s: State, s': State, rule: Rule) {
    && s'.foreground == s.foreground && s'.applied == s.applied
    && (AllObey(rule, s.tasks) ==> AllObey(rule, s'.tasks))
    && (!rule.Within? && AllObey(rule, s.tasks) && AllObey(rule, ReadTable(s.disk)) ==>
          AllObey(rule, ReadTable(s'.disk)))
  }

  ghost predicate SameAdmission(s: State, s': State) {
    s'.foreground == s.foreground && s'.applied == s.applied
  }

  lemma KeepsTrans(s: State, s1: State, s2: State, rule: Rule)
    requires Keeps(s, s1, rule) && Keeps(s1, s2, rule)
    ensures Keeps(s, s2, rule)
  {
    hide AllObey, ReadTable;
  }

  /** What matters of a new file: it is the old one or was written from the new table. */
  lemma FileKeeps(s: State, s': State, rule: Rule)
    requires SameAdmission(s, s') && (AllObey(rule, s.tasks) ==> AllObey(rule, s'.tasks))
    requires s'.disk == s.disk || s'.disk == WriteTable(s'.tasks)
    ensures Keeps(s, s', rule)
  {
    hide AllObey, ReadTable, WriteTable;
    if s'.disk != s.disk && !rule.Within? && AllObey(rule, s.tasks) {
      WrittenObey(rule, s'.tasks);
    }
  }

  lemma PutKeeps(s: State, k: string, r: Record, s': State, rule: Rule)
    requires k in s.tasks && r.app == s.tasks[k].app && r.work.modes == s.tasks[k].work.modes
    requires s'.tasks == s.tasks[k := r] && SameAdmission(s, s')
    requires (s'.disk == s.disk || s'.disk == WriteTable(s'.tasks))
    ensures Keeps(s, s', rule)
  {
    hide Permits, WriteTable;
    FileKeeps(s, s', rule);
  }

  lemma ErasedKeeps(s: State, k: string, s': State, rule: Rule)
    requires s'.tasks == s.tasks - {k} && SameAdmission(s, s') && (s'.disk == s.disk || s'.disk == WriteTable(s'.tasks))
    ensures Keeps(s, s', rule)
  {
    hide Obeys, WriteTable;
    FileKeeps(s, s', rule);
  }

  lemma SameKeeps(s: State, s': State, rule: Rule)
    requires s'.tasks == s.tasks && SameAdmission(s, s') && (s'.disk == s.disk || s'.disk == WriteTable(s'.tasks))
    ensures Keeps(s, s', rule)
  {
    hide AllObey, WriteTable;
    FileKeeps(s, s', rule);
  }

  // ---------------------------------------------------------------- the loops

  lemma SendKeepsDuty(r: Record, next: int, v: Verdict)
    ensures Send(r, next, v).r.app == r.app && Send(r, next, v).r.work == r.work
  {
    hide OwnLabel;
    if r.notice.id == NO_ID {
    } else {
    }
  }

  lemma RoundKeeps(s: State, k: string, job: Job, rule: Rule)
    requires k in s.tasks
    ensures Keeps(s, Round(s, k, s.tasks[k], job), rule)
  {
    hide Keeps, WriteTable, Notify, NotifyAudio, NotifyAppStop, HasUid, HasCallback, Send, Refresh, SharedCancel,
      AudioRound;
    var r := s.tasks[k];
    match job {
      case Audio(_) => AudioRoundKeeps(s, k, rule);
      case StandbyActive(_) => PutKeeps(s, k, StandbyAwake(r), Round(s, k, r, job), rule);
      case LiveViewShown(_) => PutKeeps(s, k, NoNote(r), Round(s, k, r, job), rule);
      case LiveViewGone(_, answers) =>
        SendKeepsDuty(r, s.nextNote, AnswerFor(answers, k).main);
        PutKeeps(s, k, Send(r, s.nextNote, AnswerFor(answers, k).main).r, Round(s, k, r, job), rule);
      case Republish(answers) =>
        RefreshKeepsCore(r, s.nextNote, AnswerFor(answers, k));
        RefreshKeepsWork(r, s.nextNote, AnswerFor(answers, k));
        PutKeeps(s, k, Refresh(r, s.nextNote, AnswerFor(answers, k)).r, Round(s, k, r, job), rule);
      case _ => ErasedKeeps(s, k, Round(s, k, r, job), rule);
    }
  }

  lemma AudioRoundKeeps(s: State, k: string, rule: Rule)
    requires k in s.tasks
    ensures Keeps(s, AudioRound(s, k, s.tasks[k]), rule)
  {
    hide Keeps, WriteTable, Notify, NotifyAudio, HasCallback;
    var r := s.tasks[k];
    if !HasCallback(s.subs, r.app.uid, SuspendFlag) {
      var r1 := r.(phase := r.phase.(audioDetected := false));
      PutKeeps(s, k, r1, AudioNotice(s, k, r1), rule);
    } else if r.phase.audioSuspends == 0 {
      PutKeeps(s, k, AudioPaused(r), AudioPause(s, k, AudioPaused(r)), rule);
    } else {
      ErasedKeeps(s, k, Save(Drop(s, k, r, FREEZE_CANCEL, MainNote(r))), rule);
    }
  }

  lemma {:induction false} VisitsKeep(s: State, order: seq<string>, job: Job, rule: Rule)
    ensures Keeps(s, Visits(s, order, job), rule)
  {
    hide Keeps, Round, Selected;
    if order == [] {
      SameKeeps(s, s, rule);
    } else {
      var n := |order| - 1;
      VisitsKeep(s, order[..n], job, rule);
      var before, k := Visits(s, order[..n], job), order[n];
      if k in before.tasks && Selected(job, before.tasks[k]) {
        RoundKeeps(before, k, job, rule);
        KeepsTrans(s, before, Round(before, k, before.tasks[k], job), rule);
      }
    }
  }

  lemma TellKeepsRule(s: State, uid: int, rule: Rule)
    ensures Keeps(s, TellAppStop(s, uid), rule)
  {
    hide Keeps, HasUid, NotifyAppStop;
    SameKeeps(s, TellAppStop(s, uid), rule);
  }

  lemma {:induction false} TellAllKeeps(s: State, uids: seq<int>, rule: Rule)
    ensures Keeps(s, TellAll(s, uids), rule)
  {
    hide Keeps, TellAppStop;
    if uids == [] {
      SameKeeps(s, s, rule);
    } else {
      var before := TellAll(s, uids[..|uids| - 1]);
      TellAllKeeps(s, uids[..|uids| - 1], rule);
      TellKeepsRule(before, uids[|uids| - 1], rule);
      KeepsTrans(s, before, TellAll(s, uids), rule);
    }
  }

  lemma LoopKeeps(s: State, job: Job, order: seq<string>, rule: Rule)
    ensures Keeps(s, Loop(s, job, order), rule)
  {
    hide Keeps, Visits, TellAppStop, TellAll, WriteTable;
    VisitsKeep(s, order, job, rule);
    var s1 := Visits(s, order, job);
    if job.ByUid? || job.ByUidAndMode? || job.Audio? {
      TellKeepsRule(s1, job.uid, rule);
      KeepsTrans(s, s1, TellAppStop(s1, job.uid), rule);
    } else if job.Everything? {
      SameKeeps(s1, Save(s1), rule);
      TellAllKeeps(Save(s1), job.uids, rule);
      KeepsTrans(s, s1, Save(s1), rule);
      KeepsTrans(s, Save(s1), TellAll(Save(s1), job.uids), rule);
    }
  }

  // ---------------------------------------------------------------- the other steps

  lemma SetReasonKeeps(s: State, k: string, reason: int, rule: Rule)
    ensures Keeps(s, SetReason(s, k, reason), rule)
  {
    hide Keeps, WriteTable;
    if k in s.tasks {
      PutKeeps(s, k, Because(s.tasks[k], reason), SetReason(s, k, reason), rule);
    } else {
      SameKeeps(s, s, rule);
    }
  }

  lemma DismissKeeps(s: State, k: string, isSub: bool, order: seq<string>, rule: Rule)
    ensures Keeps(s, Dismiss(s, k, isSub, order), rule)
  {
    hide Keeps, Loop, SetReason;
    SetReasonKeeps(s, k, REMOVE_NOTIFICATION_CANCEL, rule);
    var s1 := SetReason(s, k, REMOVE_NOTIFICATION_CANCEL);
    if k in s1.tasks && s1.tasks[k].notice.id != NO_ID {
      LoopKeeps(s1, Dismissed(s1.tasks[k].notice.text, s1.tasks[k].notice.id, isSub), order, rule);
      KeepsTrans(s, s1, Dismiss(s, k, isSub, order), rule);
    }
  }

  lemma StopTaskKeeps(s: State, taskId: int, order: seq<string>, refused: set<Note>, rule: Rule)
    ensures Keeps(s, StopTask(s, taskId, order, refused).s, rule)
  {
    hide Keeps, First, SharedCancel, WriteTable, Notify, NotifyAppStop, HasUid;
    SameKeeps(s, s, rule);
    var k := First(s.tasks, order, ById(taskId));
    if k.Some? && k.value in s.tasks {
      ErasedKeeps(s, k.value, StopAt(s, k.value, refused).s, rule);
    }
  }

  lemma {:induction false} StopEachKeeps(s: State, ids: seq<int>, order: seq<string>, refused: set<Note>, rule: Rule)
    ensures Keeps(s, StopEach(s, ids, order, refused).s, rule)
  {
    hide Keeps, StopTask;
    if ids == [] {
      SameKeeps(s, s, rule);
    } else {
      var before := StopEach(s, ids[..|ids| - 1], order, refused).s;
      StopEachKeeps(s, ids[..|ids| - 1], order, refused, rule);
      StopTaskKeeps(before, ids[|ids| - 1], order, refused, rule);
      KeepsTrans(s, before, StopTask(before, ids[|ids| - 1], order, refused).s, rule);
    }
  }

  lemma StopInnerKeeps(s: State, uid: int, name: string, abilityId: int, taskId: int, order: seq<string>,
                       refused: set<Note>, rule: Rule)
    ensures Keeps(s, StopInner(s, uid, name, abilityId, taskId, order, refused).s, rule)
    ensures Keeps(s, StopByContext(s, uid, name, abilityId, order, refused).s, rule)
  {
    hide Keeps, StopTask, StopEach, First, ContextIds;
    SameKeeps(s, s, rule);
    StopTaskKeeps(s, taskId, order, refused, rule);
    StopEachKeeps(s, ContextIds(s.tasks, order, uid, name, abilityId), order, refused, rule);
  }

  lemma StopByKeyKeeps(s: State, k: string, order: seq<string>, refused: set<Note>, rule: Rule)
    ensures Keeps(s, StopByKey(s, k, order, refused), rule)
  {
    hide Keeps, StopTask;
    if k in s.tasks {
      var s1 := SetReason(s, k, FREEZE_CANCEL);
      SetReasonKeeps(s, k, FREEZE_CANCEL, rule);
      StopTaskKeeps(s1, s1.tasks[k].app.taskId, order, refused, rule);
      KeepsTrans(s, s1, StopByKey(s, k, order, refused), rule);
    } else {
      SameKeeps(s, s, rule);
    }
  }

  lemma SuspendAtKeeps(s: State, uid: int, reason: int, k: string, rule: Rule)
    ensures Keeps(s, SuspendAt(s, uid, reason, k), rule) && Keeps(s, StandbySuspendAt(s, uid, reason, k), rule)
  {
    hide Keeps, WriteTable, Notify, TellAppStop;
    SameKeeps(s, s, rule);
    if k in s.tasks {
      var r := s.tasks[k];
      var r1, r2 := SuspendRecord(r, reason), StandbyRecord(r, reason);
      PutKeeps(s, k, r2, PutSuspended(s, k, r2), rule);
      var s1 := Noted(if r.app.uid == uid then PutSuspended(s, k, r1) else s, MainNote(r) + SubNote(r));
      if r.app.uid == uid {
        PutKeeps(s, k, r1, s1, rule);
      } else {
        SameKeeps(s, s1, rule);
      }
      TellKeepsRule(s1, uid, rule);
      KeepsTrans(s, s1, TellAppStop(s1, uid), rule);
    }
  }

  lemma SuspendKeeps(s: State, uid: int, reason: int, k: string, standby: bool, order: seq<string>, refused: set<Note>,
                     rule: Rule)
    ensures Keeps(s, Suspend(s, uid, reason, k, standby, order, refused), rule)
  {
    hide Keeps, SuspendAt, StandbySuspendAt, StopByKey, HasCallback;
    SameKeeps(s, s, rule);
    SuspendAtKeeps(s, uid, reason, k, rule);
    StopByKeyKeeps(s, k, order, refused, rule);
  }

  lemma ReactivatedKeeps(t: Turn, k: string, a: Answer, rule: Rule)
    requires k in t.s.tasks
    ensures Keeps(t.s, Reactivated(t, k, a).s, rule)
  {
    hide Keeps, Notify, Refresh, WriteTable;
    var s, r := t.s, Awake(t.s.tasks[k]);
    if r.notice.id == NO_ID {
      PutKeeps(s, k, r, Save(PutAwake(s, k, r)), rule);
    } else if t.id == ILLEGAL_ID || r.notice.id !in t.seen {
      var p := Refresh(r, s.nextNote, a);
      RefreshKeepsCore(r, s.nextNote, a);
      RefreshKeepsWork(r, s.nextNote, a);
      PutKeeps(s, k, p.r, Republished(t, k, r, p).s, rule);
    } else {
      PutKeeps(s, k, WithNote(r, t.text, t.id), Copied(t, k, r).s, rule);
    }
  }

  lemma {:induction false} ReactivationsKeep(s: State, order: seq<string>, uid: int, answers: map<string, Answer>,
                                             rule: Rule)
    ensures Keeps(s, Reactivations(s, order, uid, answers).s, rule)
  {
    hide Keeps, Reactivated;
    if order == [] {
      SameKeeps(s, s, rule);
    } else {
      var n := |order| - 1;
      ReactivationsKeep(s, order[..n], uid, answers, rule);
      var t, k := Reactivations(s, order[..n], uid, answers), order[n];
      if k in t.s.tasks && t.s.tasks[k].app.uid == uid && t.s.tasks[k].phase.suspended {
        ReactivatedKeeps(t, k, AnswerFor(answers, k), rule);
        KeepsTrans(s, t.s, Reactivated(t, k, AnswerFor(answers, k)).s, rule);
      }
    }
  }

  lemma ActiveKeeps(s: State, uid: int, standby: bool, order: seq<string>, answers: map<string, Answer>, rule: Rule)
    ensures Keeps(s, Active(s, uid, standby, order, answers), rule)
  {
    hide Keeps, Reactivations, Loop, HasCallback;
    SameKeeps(s, s, rule);
    ReactivationsKeep(s, order, uid, answers, rule);
    LoopKeeps(s, StandbyActive(uid), order, rule);
  }

  lemma ProgressKeeps(s: State, uid: int, taskId: int, progress: Option<ProgressInfo>, v: Verdict, order: seq<string>,
                      rule: Rule)
    ensures Keeps(s, UpdateProgress(s, uid, taskId, progress, v, order).s, rule)
  {
    hide Keeps, First, Send, WriteTable;
    SameKeeps(s, s, rule);
    var found := First(s.tasks, order, ByIdAndUid(taskId, uid));
    if found.Some? && found.value in s.tasks {
      var k := found.value;
      var r := s.tasks[k].(work := s.tasks[k].work.(progress := progress));
      SendKeepsDuty(r, s.nextNote, v);
      var s1 := Settle(s, k, Send(r, s.nextNote, v));
      PutKeeps(s, k, Send(r, s.nextNote, v).r, s1, rule);
      PutKeeps(s, k, Send(r, s.nextNote, v).r, Save(s1), rule);
    }
  }

  lemma AvSessionKeeps(s: State, uid: int, published: bool, v: Verdict, order: seq<string>, rule: Rule)
    ensures Keeps(s, AvSession(s, uid, published, v, order), rule)
  {
    hide Keeps, First, Send, WriteTable;
    SameKeeps(s, s, rule);
    SameKeeps(s, Save(s), rule);
    var found := First(s.tasks, order, OfUid(uid));
    if found.Some? && found.value in s.tasks {
      var k, r := found.value, s.tasks[found.value];
      if !r.phase.audioDetected {
        var r1 := r.(phase := r.phase.(audioDetected := true));
        PutKeeps(s, k, r1, Put(s, k, r1), rule);
      } else {
        SendKeepsDuty(r, s.nextNote, v);
        PutKeeps(s, k, Send(r, s.nextNote, v).r, Save(Settle(s, k, Send(r, s.nextNote, v))), rule);
        PutKeeps(s, k, NoNote(r), Save(Noted(Put(s, k, NoNote(r)), MainNote(r))), rule);
      }
    }
  }

  /** Steps that neither start nor update a task, nor move an application, nor restart. */
  predicate Routine(step: Step) {
    !step.StartStep? && !step.UpdateByIdStep? && !step.UpdateByKeyStep? && !step.AppStateStep? && !step.RestartStep?
  }

  lemma RoutineKeeps(s: State, step: Step, rule: Rule)
    requires Routine(step)
    ensures Keeps(s, Apply(s, step), rule)
  {
    hide Keeps, UpdateProgress, StopInner, StopByContext, StopByKey, Loop, Dismiss, Suspend, Active, AvSession, Known,
      Widen,
      StillNeeded, Narrow, Without, Snapshot;
    match step
    case ProgressStep(uid, taskId, progress, v, order) => ProgressKeeps(s, uid, taskId, progress, v, order, rule);
    case StopStep(uid, name, abilityId, taskId, order, refused) =>
      StopInnerKeeps(s, uid, name, abilityId, taskId, order, refused, rule);
    case AbilityGoneStep(uid, name, abilityId, order, refused) =>
      StopInnerKeeps(s, uid, name, abilityId, 0, order, refused, rule);
    case StopByKeyStep(k, order, refused) => StopByKeyKeeps(s, k, order, refused, rule);
    case LoopStep(job, order) => LoopKeeps(s, job, order, rule);
    case DismissStep(k, isSub, order) => DismissKeeps(s, k, isSub, order, rule);
    case SuspendStep(uid, reason, k, standby, order, refused) =>
      SuspendKeeps(s, uid, reason, k, standby, order, refused, rule);
    case ActiveStep(uid, standby, order, answers) => ActiveKeeps(s, uid, standby, order, answers, rule);
    case AvSessionStep(uid, published, v, order) => AvSessionKeeps(s, uid, published, v, order, rule);
    case SubscribeStep(sub) => SameKeeps(s, Apply(s, step), rule);
    case UnsubscribeStep(id, flags) => SameKeeps(s, Apply(s, step), rule);
    case SubscriberDiedStep(_) => SameKeeps(s, Apply(s, step), rule);
    case EnableStep(_, _) => SameKeeps(s, Apply(s, step), rule);
    case BannerStep => SameKeeps(s, Apply(s, step), rule);
  }

  // ---------------------------------------------------------------- start and update

  /** A start adds at most one record: the requested one, with another notification. */
  lemma SubmitAdds(s: State, r: Record, env: StartEnv, order: seq<string>, rule: Rule)
    requires Submit(s, r, env, order).status == Ok ==> Obeys(rule, r)
    ensures Keeps(s, Submit(s, r, env, order).s, rule)
  {
    hide Keeps, CheckStartModes, First, SameModes, Insert, Refresh, Permits;
    SameKeeps(s, s, rule);
    var p := Refresh(r, s.nextNote, env.answer);
    SameKeeps(s, Noted(s, p.notes).(nextNote := p.next), rule);
    RefreshKeepsCore(r, s.nextNote, env.answer);
    RefreshKeepsWork(r, s.nextNote, env.answer);
    if CheckStartModes(r, env) == Ok {
      match CheckMerge(s.tasks, r, order) {
        case Refuse(_) =>
        case Share(k) =>
          if k in s.tasks {
            var s1 := Put(s, k, MergeTarget(s.tasks[k], r));
            PutKeeps(s, k, MergeTarget(s.tasks[k], r), s1, rule);
            InsertKeeps(s, MergeInto(r, s.tasks[k]), s1, rule);
          }
        case Separate =>
          if r.app.inner && !r.app.innerNotify {
            InsertKeeps(s, r, s, rule);
          } else if p.status == Ok {
            InsertKeeps(s, p.r, Noted(s, p.notes).(nextNote := p.next), rule);
          }
      }
    }
  }

  lemma InsertKeeps(s: State, r: Record, s1: State, rule: Rule)
    requires Keeps(s, s1, rule) && Obeys(rule, r)
    ensures Keeps(s, Insert(s1, r), rule)
  {
    hide Notify, WriteTable, KeyOf, Permits, ReadTable;
    FileKeeps(s1, Insert(s1, r), rule);
    KeepsTrans(s, s1, Insert(s1, r), rule);
  }

  /** The record a start step would add. */
  function Candidate(s: State, q: Request): Record {
    WithTaskId(NewRecord(q), s.nextTask + 1)
  }

  lemma StartKeeps(s: State, q: Request, env: StartEnv, order: seq<string>, rule: Rule)
    requires Start(s, q, env, order).status == Ok ==> Obeys(rule, Candidate(s, q))
    ensures Keeps(s, Start(s, q, env, order).s, rule)
  {
    hide Keeps, Submit, KeyOf, Allowed, Obeys;
    var s1 := s.(nextTask := s.nextTask + 1);
    SameKeeps(s, s, rule);
    SameKeeps(s, s1, rule);
    var r := Candidate(s, q);
    if NewRecord(q).app.uid !in s.disabled && Allowed(s, NewRecord(q), env) == Ok && KeyOf(r) !in s.tasks {
      SubmitAdds(s1, r, env, order, rule);
      KeepsTrans(s, s1, Submit(s1, r, env, order).s, rule);
    }
  }

  /** The mode check of the new interface accepts only modes that are in every configuration which contains what
      is cached; with nothing cached, none. */
  lemma CheckedDeclared(config: Config, configured: set<nat>, modes: seq<nat>, r: Record, keeping: bool,
                        special: Status)
    requires configured <= ConfigOf(config, r.app.uid, r.app.abilityName)
    requires AllPass(modes, r.app, configured, keeping, special)
    ensures AllDeclared(config, r.app, modes) && (SmallConfig(config) ==> Small(modes))
  {
    forall i | 0 <= i < |modes| ensures IsDeclared(config, r.app, modes[i]) {
      assert Passes(modes[i], r.app, configured, keeping, special);
    }
  }

  /** An accepted start passed the mode check and the merge check. */
  lemma AcceptedStart(s: State, q: Request, env: StartEnv, order: seq<string>)
    requires Start(s, q, env, order).status == Ok
    ensures var r := Candidate(s, q);
            && CheckStartModes(r, env) == Ok && ModesPass(r, env) && Allowed(s, NewRecord(q), env) == Ok
            && KeyOf(r) !in s.tasks
            && !CheckMerge(s.tasks, r, order).Refuse?
  {
    hide CheckStartModes, ModesPass, First, SameModes, Insert, Refresh, L.TaskKey, Allowed;
    var r := Candidate(s, q);
    StartModesJudged(r, env);
    match CheckMerge(s.tasks, r, order) {
      case Refuse(_) =>
      case Share(_) =>
      case Separate =>
    }
  }

  /** A start keeps each rule, given what the rule demands of the request. */
  predicate GoodRequest(rule: Rule, s: State, q: Request, env: StartEnv) {
    match rule
    case MayCombine => Small(NewRecord(q).work.modes)
    case Declared(config) => SmallConfig(config) && env.configured <= ConfigOf(config, q.uid, q.abilityName)
    case PlainName => L.Plain(NewRecord(q).app.abilityName)
    case Within(uid, allowed) =>
      uid !in env.reported && uid !in s.foreground && allowed == AppliedModes(s, uid) + [AUDIO_PLAYBACK]
    case ByComponents(_) => Permits(rule, NewRecord(q).app, [])
  }

  lemma CandidateObeys(s: State, q: Request, env: StartEnv, order: seq<string>, rule: Rule)
    requires Start(s, q, env, order).status == Ok && GoodRequest(rule, s, q, env)
    ensures Obeys(rule, Candidate(s, q))
  {
    hide Start, NewRecord, CheckModes, AllPass, MatchMerge, KeyOf, SameAbility, AllDeclared;
    AcceptedStart(s, q, env, order);
    var r := Candidate(s, q);
    if rule.Declared? && r.app.newApi && !r.app.inner {
      NewRecordNames(q);
      CheckedDeclared(rule.config, env.configured, r.work.modes, r, env.keeping, env.special);
    }
    if rule.Within? {
      RequestsAreNotInner(q);
    }
  }

  lemma NewRecordNames(q: Request)
    ensures NewRecord(q).app.uid == q.uid && NewRecord(q).app.abilityName == q.abilityName
  {
  }

  lemma RequestsAreNotInner(q: Request)
    ensures !(NewRecord(q).app.byRequest && NewRecord(q).app.inner)
  {
  }

  lemma GoodStartKeeps(s: State, q: Request, env: StartEnv, order: seq<string>, rule: Rule)
    requires GoodRequest(rule, s, q, env)
    ensures Keeps(s, Start(s, q, env, order).s, rule)
  {
    hide Keeps, Start, Obeys, GoodRequest;
    if Start(s, q, env, order).status == Ok {
      CandidateObeys(s, q, env, order, rule);
    }
    StartKeeps(s, q, env, order, rule);
  }

  /** An update stores the record `p.r` under an existing key, perhaps reactivates, and writes. */
  lemma UpdatedKeeps(s: State, k: string, p: Posted, order: seq<string>, env: UpdateEnv, rule: Rule)
    requires k in s.tasks && (AllObey(rule, s.tasks) ==> Obeys(rule, p.r))
    ensures var s1 := Settle(s, k, p);
            Keeps(s, s1, rule) && k in s1.tasks && Keeps(s, AfterUpdate(s1, k, order, env), rule)
  {
    hide Permits, Reactivations, Notify, WriteTable, ReadTable;
    var s1 := Settle(s, k, p);
    FileKeeps(s, s1, rule);
    var uid := s1.tasks[k].app.uid;
    var s2 := if s1.tasks[k].phase.suspended then Activate(s1, uid, order, env.answers) else s1;
    ReactivationsKeep(s1, order, uid, env.answers, rule);
    if k in s2.tasks {
      SameKeeps(s2, Save(Emit(s2, TaskUpdate, s2.tasks[k])), rule);
    }
  }

  lemma UpdateNotificationDuty(r: Record, next: int, p: UpdateParam, env: UpdateEnv)
    ensures var u := UpdateNotification(r, next, p, env).r;
            u.app == r.app && u.work.modes == if env.named && !r.app.combined then p.modes else r.work.modes
  {
    hide Send, SameModes;
    var w := if p.want.Some? then r.(work := r.work.(want := p.want)) else r;
    SendKeepsDuty(w.(work := w.work.(modeId := p.modeId, modes := p.modes, subModes := p.subModes)), next, env.verdict);
  }

  lemma LegacyDuty(r: Record, next: int, p: UpdateParam, v: Verdict)
    ensures LegacySubModes(r, p).app == r.app && LegacySubModes(r, p).work.modes == r.work.modes
    ensures LegacyPosted(r, next, p, v).r.app == r.app && LegacyPosted(r, next, p, v).r.work.modes == p.modes
  {
    hide Send;
    var r1 := LegacySubModes(r, p);
    SendKeepsDuty(r1.(work := r1.work.(modes := p.modes, batchApi := p.batchApi)), next, v);
  }

  /** The checks before an update by id stores anything. */
  predicate UpdateAccepted(r: Record, p: UpdateParam, env: UpdateEnv) {
    && AllPass(p.modes, r.app, env.configured, env.keeping, env.special)
    && DATA_TRANSFER !in r.work.modes && DATA_TRANSFER !in p.modes && p.progress.None?
    && !(SPECIAL_SCENARIO in r.work.modes && p.combined)
  }

  lemma UpdateByIdKeeps(s: State, caller: int, p: UpdateParam, env: UpdateEnv, order: seq<string>, rule: Rule)
    requires var k := First(s.tasks, order, ByIdAndRequest(p.taskId));
             k.Some? && k.value in s.tasks ==>
               var r := s.tasks[k.value];
               UpdateAccepted(r, p, env) && env.named && !r.app.combined && Obeys(rule, r) ==>
                 Permits(rule, r.app, p.modes)
    ensures Keeps(s, UpdateById(s, caller, p, env, order).s, rule)
  {
    hide Keeps, First, CheckModes, AllPass, IsJudged, UpdateNotification, Settle, AfterUpdate, Permits;
    SameKeeps(s, s, rule);
    var found := First(s.tasks, order, ByIdAndRequest(p.taskId));
    if found.Some? && found.value in s.tasks {
      var k, r := found.value, s.tasks[found.value];
      CheckModesJudged(env.configured, p.modes, r, env.keeping, env.special);
      if UpdateAccepted(r, p, env) {
        UpdateNotificationDuty(r, s.nextNote, p, env);
        UpdatedKeeps(s, k, UpdateNotification(r, s.nextNote, p, env), order, env, rule);
      }
    }
  }

  /** The mode check of a legacy update. */
  predicate LegacyAccepted(r: Record, p: UpdateParam, env: UpdateEnv) {
    AllPass(p.modes, r.app, env.configured, env.keeping, env.special)
  }

  lemma UpdateByKeyKeeps(s: State, k: string, p: UpdateParam, env: UpdateEnv, order: seq<string>, rule: Rule)
    requires k in s.tasks && LegacyAccepted(s.tasks[k], p, env) && Obeys(rule, s.tasks[k]) ==>
               Permits(rule, s.tasks[k].app, p.modes)
    ensures Keeps(s, UpdateByKey(s, k, p, env, order).s, rule)
  {
    hide Keeps, CheckModes, AllPass, IsJudged, AfterUpdate, SameModes, LegacySubModes, LegacyPosted, Settle, Permits,
      WriteTable;
    SameKeeps(s, s, rule);
    if k in s.tasks {
      var r := s.tasks[k];
      LegacyDuty(r, s.nextNote, p, env.verdict);
      PutKeeps(s, k, LegacySubModes(r, p), Put(s, k, LegacySubModes(r, p)), rule);
      CheckModesJudged(env.configured, p.modes, LegacySubModes(r, p), env.keeping, env.special);
      if LegacyAccepted(r, p, env) {
        UpdatedKeeps(s, k, LegacyPosted(r, s.nextNote, p, env.verdict), order, env, rule);
      }
    }
  }

  // ---------------------------------------------------------------- restart

  lemma RestoreRoundObeys(s: State, k: string, alive: set<int>, answers: map<string, Answer>, rule: Rule)
    requires AllObey(rule, s.tasks)
    ensures AllObey(rule, RestoreRound(s, k, alive, answers).tasks)
  {
    hide Refresh, SharedCancel, Permits;
    if k in s.tasks {
      RefreshKeepsCore(s.tasks[k], s.nextNote, AnswerFor(answers, k));
      RefreshKeepsWork(s.tasks[k], s.nextNote, AnswerFor(answers, k));
    }
  }

  lemma {:induction false} RestoreRoundsObey(s: State, order: seq<string>, alive: set<int>, answers: map<string,
                                             Answer>, rule: Rule)
    requires AllObey(rule, s.tasks)
    ensures AllObey(rule, RestoreRounds(s, order, alive, answers).tasks)
  {
    hide AllObey, RestoreRound;
    if order != [] {
      var before := RestoreRounds(s, order[..|order| - 1], alive, answers);
      RestoreRoundsObey(s, order[..|order| - 1], alive, answers, rule);
      RestoreRoundObeys(before, order[|order| - 1], alive, answers, rule);
    }
  }

  /** A restart reads the file, so a rule the file obeys holds afterwards, in memory and in the file. */
  lemma RestartObeys(s: State, alive: Option<set<int>>, reported: Option<set<int>>, order: seq<string>,
                     answers: map<string, Answer>,
                     rule: Rule)
    requires !rule.Within? && AllObey(rule, ReadTable(s.disk))
    ensures var s' := Restart(s, alive, reported, order, answers);
            AllObey(rule, s'.tasks) && AllObey(rule, ReadTable(s'.disk))
  {
    hide AllObey, RestoreRounds, MaxTaskId, MaxNoteId, Rebuild, WriteTable, ReadTable;
    if alive.Some? {
      RestoreRoundsObey(Fresh(s), order, alive.value, answers, rule);
      WrittenObey(rule, RestoreRounds(Fresh(s), order, alive.value, answers).tasks);
    }
  }
}
