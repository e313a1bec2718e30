/** Runs from the initial state that reach what the exact conditions elsewhere leave possible. */
module Witnesses {
  import opened Wrappers
  import opened TaskRecord
  import opened Subscribers
  import opened TaskTable
  import opened ModeChecks
  import opened Invariants
  import opened Reachability
  import opened Mirror
  import opened Stopping
  import opened Notifications
  import opened Rules
  import opened Admission
  import opened Background
  import opened Recovery
  import L = Labels
  import D = Decimal
  import B = BundleCache

  // ---------------------------------------------------------------- building runs

  /** The request passes CheckTaskParam, or GetAbilityNamePid found a name for it. */
  predicate ProperRequest(q: Request) {
    && q.abilityName != ""
    && (q.AppRequest? && q.newApi ==> q.want.Some? && (q.byRequest ==> q.modes != [] && q.subModes != []))
    && (q.AppRequest? && q.batchApi ==> q.modes != [])
  }

  /** The checks in front of the event handler let the step through. */
  predicate Proper(step: Step) {
    match step
    case StartStep(q, _, _) => ProperRequest(q)
    case StopStep(_, name, _, _, _, _) => name != ""
    case AbilityGoneStep(_, name, _, _, _) => name != ""
    case _ => true
  }

  predicate ProperRun(steps: seq<Step>) {
    forall i :: 0 <= i < |steps| ==> Proper(steps[i])
  }

  lemma Snoc(steps: seq<Step>, step: Step)
    ensures Run(INIT, steps + [step]) == Apply(Run(INIT, steps), step)
    ensures SoundRun(INIT, steps) && !step.RestartStep? ==> SoundRun(INIT, steps + [step])
    ensures HarmlessRun(INIT, steps) && !step.LoopStep? ==> HarmlessRun(INIT, steps + [step])
    ensures ProperRun(steps) && Proper(step) ==> ProperRun(steps + [step])
  {
    hide Apply, Proper;
    assert (steps + [step])[..|steps|] == steps;
  }

  lemma NoSteps()
    ensures Run(INIT, []) == INIT && SoundRun(INIT, []) && HarmlessRun(INIT, []) && ProperRun([])
  {
  }

  const LISTENER: Subscriber := Subscriber(1, 100, true, {SuspendFlag})
  const SYSTEM_ABILITY: Subscriber := Subscriber(2, 0, false, {})

  lemma Subscribed(s: State, sub: Subscriber)
    requires !Known(s.subs, sub.id)
    ensures var s' := Subscribe(s, sub);
            && s'.subs == s.subs + [sub] && s'.tasks == s.tasks && s'.disabled == s.disabled
            && s'.nextTask == s.nextTask && s'.nextNote == s.nextNote
  {
  }

  function BundleOf(uid: int): string {
    if uid == 2 || uid == 200 then "c" else "b"
  }

  /** A request for an audio task with a notification, by the audio service or a component of the application. */
  function SoundRequest(uid: int, name: string, component: bool): Request {
    InnerRequest(BundleOf(uid), name, uid, 1, 0, AUDIO_PLAYBACK, true, component)
  }

  function Sounding(uid: int, name: string, component: bool, taskId: int): Record {
    WithTaskId(NewRecord(SoundRequest(uid, name, component)), taskId)
  }

  /** Everything is published, and these modes are found cached, which such a request does not look at. */
  function Answers(configured: set<nat>): StartEnv {
    StartEnv(false, {}, configured, false, Ok, Answer(Accepted, Accepted))
  }

  lemma SoundingStart(s: State, uid: int, name: string, component: bool, configured: set<nat>)
    requires uid !in s.disabled && KeyOf(Sounding(uid, name, component, s.nextTask + 1)) !in s.tasks
    ensures var r := Sounding(uid, name, component, s.nextTask + 1);
            var s' := Start(s, SoundRequest(uid, name, component), Answers(configured), []).s;
            && s'.tasks == s.tasks[KeyOf(r) := WithNote(r, OwnLabel(r), s.nextNote + 1)]
            && s'.nextTask == s.nextTask + 1 && s'.nextNote == s.nextNote + 1
            && s'.subs == s.subs && s'.disabled == s.disabled && s'.disk == WriteTable(s'.tasks)
  {
    hide KeyOf, OwnLabel, Notify, WriteTable;
    var r := Sounding(uid, name, component, s.nextTask + 1);
    assert Refresh(r, s.nextNote, Answers(configured).answer) == Publish(r, s.nextNote, true);
    KeyIgnoresNotes(r, OwnLabel(r), s.nextNote + 1);
  }

  /** The audio service starts an audio task for the application. */
  function Audible(uid: int): Request {
    SoundRequest(uid, "Webview2", false)
  }

  lemma AudibleProper(uid: int, env: StartEnv, order: seq<string>)
    ensures Proper(StartStep(Audible(uid), env, order))
  {
  }

  function AudibleRecord(uid: int, taskId: int): Record {
    Sounding(uid, "Webview2", false, taskId)
  }

  const ANSWERS: StartEnv := Answers({})

  lemma AudibleStart(s: State, uid: int)
    requires uid !in s.disabled && KeyOf(AudibleRecord(uid, s.nextTask + 1)) !in s.tasks
    ensures var r, s' := AudibleRecord(uid, s.nextTask + 1), Start(s, Audible(uid), ANSWERS, []).s;
            && s'.tasks == s.tasks[KeyOf(r) := WithNote(r, OwnLabel(r), s.nextNote + 1)]
            && s'.nextTask == s.nextTask + 1 && s'.nextNote == s.nextNote + 1
            && s'.subs == s.subs && s'.disabled == s.disabled && s'.disk == WriteTable(s'.tasks)
  {
    hide Start, KeyOf, OwnLabel, WriteTable, Sounding, Answers;
    SoundingStart(s, uid, "Webview2", false, {});
  }

  lemma KeyIgnoresNotes(r: Record, text: string, id: int)
    ensures KeyOf(WithNote(r, text, id)) == KeyOf(r)
  {
  }

  lemma AudibleFacts(uid: int, taskId: int)
    ensures var r := AudibleRecord(uid, taskId);
            && r.app.uid == uid && r.app.taskId == taskId && r.work.modes == [AUDIO_PLAYBACK] && r.notice.id == NO_ID
            && r.phase == BLANK.phase && r.app.pid == 1
  {
  }

  // ---------------------------------------------------------------- an audio suspension nobody is told of

  lemma StandbyHazard(s: State, k: string, r: Record)
    requires s.tasks == map[k := r] && r.app.uid == 100 && r.phase == BLANK.phase && AUDIO_PLAYBACK in r.work.modes
    requires s.subs == [SYSTEM_ABILITY, LISTENER]
    ensures var s' := Suspend(s, 100, 0, k, true, [], {});
            AudioHazard(s', 100) && IsSystemAbility(s'.subs, 2) && s'.tasks.Keys == {k}
  {
    hide Notify, WriteTable;
    assert s.subs[0] == SYSTEM_ABILITY && s.subs[1] == LISTENER;
    assert HasCallback(s.subs, 100, SuspendFlag);
    var s' := Suspend(s, 100, 0, k, true, [], {});
    assert s'.tasks[k] == StandbyRecord(r, 0);
  }

  lemma AudibleUnderWatch() returns (steps: seq<Step>, k: string)
    ensures ProperRun(steps) && SoundRun(INIT, steps) && HarmlessRun(INIT, steps)
    ensures var s := Run(INIT, steps);
            && s.tasks.Keys == {k} && s.subs == [SYSTEM_ABILITY, LISTENER] && s.tasks[k].app.uid == 100
            && s.tasks[k].phase == BLANK.phase && s.tasks[k].work.modes == [AUDIO_PLAYBACK]
  {
    hide Start, KeyOf, Subscribe, Run, SoundRun, HarmlessRun, ProperRun, OwnLabel, AudibleRecord, Audible, WriteTable,
      ProperRequest;
    k := KeyOf(AudibleRecord(100, 1));
    NoSteps();
    var a, b, c := SubscribeStep(SYSTEM_ABILITY), SubscribeStep(LISTENER), StartStep(Audible(100), ANSWERS, []);
    Snoc([], a);
    Subscribed(INIT, SYSTEM_ABILITY);
    Snoc([] + [a], b);
    Subscribed(Run(INIT, [] + [a]), LISTENER);
    Snoc([] + [a] + [b], c);
    AudibleStart(Run(INIT, [] + [a] + [b]), 100);
    AudibleProper(100, ANSWERS, []);
    AudibleFacts(100, 1);
    steps := [] + [a] + [b] + [c];
  }

  /** A system ability and an application that listens for suspension subscribe, the application gets an audio
      task, and standby suspends it. */
  lemma HazardReachable() returns (steps: seq<Step>, k: string)
    ensures ProperRun(steps) && SoundRun(INIT, steps) && HarmlessRun(INIT, steps)
    ensures var s := Run(INIT, steps); AudioHazard(s, 100) && IsSystemAbility(s.subs, 2) && s.tasks.Keys == {k}
  {
    hide AudioHazard, IsSystemAbility, Suspend, Run, SoundRun, HarmlessRun, ProperRun;
    var before;
    before, k := AudibleUnderWatch();
    var s := Run(INIT, before);
    assert s.tasks == map[k := s.tasks[k]];
    StandbyHazard(s, k, s.tasks[k]);
    steps := before + [SuspendStep(100, 0, k, true, [], {})];
    Snoc(before, SuspendStep(100, 0, k, true, [], {}));
  }

  /** The next audio suspension breaks the mirror: the system ability still counts the task as running. */
  lemma MirrorBreaks() returns (steps: seq<Step>)
    ensures ProperRun(steps) && SoundRun(INIT, steps) && !MirrorOk(Run(INIT, steps))
  {
    hide AudioHazard, IsSystemAbility, MirrorOk, Loop, Run, SoundRun, HarmlessRun, ProperRun, Inv;
    var before, k := HazardReachable();
    var s := Run(INIT, before);
    steps := before + [LoopStep(Audio(100), [k])];
    Snoc(before, LoopStep(Audio(100), [k]));
    RunInv(before, Full);
    RunMirror(before);
    assert IsWalk([k], s.tasks);
    AudioMirrorExact(s, 100, [k], 2);
  }

  // ---------------------------------------------------------------- a suspension that hits another application

  lemma ForeignTask() returns (steps: seq<Step>, k: string)
    ensures ProperRun(steps) && SoundRun(INIT, steps)
    ensures var s := Run(INIT, steps);
            && s.tasks.Keys == {k} && s.subs == [LISTENER] && s.tasks[k].app.uid == 200
            && !s.tasks[k].phase.suspended && s.tasks[k].notice.id != NO_ID
  {
    hide Start, KeyOf, Subscribe, Run, SoundRun, HarmlessRun, ProperRun, OwnLabel, AudibleRecord, Audible, WriteTable,
      ProperRequest;
    k := KeyOf(AudibleRecord(200, 1));
    NoSteps();
    var a, b := SubscribeStep(LISTENER), StartStep(Audible(200), ANSWERS, []);
    Snoc([], a);
    Subscribed(INIT, LISTENER);
    Snoc([] + [a], b);
    AudibleStart(Run(INIT, [] + [a]), 200);
    AudibleProper(200, ANSWERS, []);
    AudibleFacts(200, 1);
    steps := [] + [a] + [b];
  }

  lemma ListenerIsSuspended(s: State, k: string)
    requires s.subs == [LISTENER]
    ensures Suspend(s, 100, 0, k, false, [], {}) == SuspendAt(s, 100, 0, k)
  {
    hide SuspendAt;
    assert s.subs[0] == LISTENER;
  }

  /** Application 100 listens for suspension, application 200 gets a task, and a suspension names application
      100 and the key of that task. It keeps running, and its notification is withdrawn. */
  lemma SuspendHitsForeign() returns (steps: seq<Step>, step: Step, k: string)
    ensures ProperRun(steps) && SoundRun(INIT, steps) && Proper(step) && step.SuspendStep? && step.uid == 100
    ensures var s, s' := Run(INIT, steps), Apply(Run(INIT, steps), step);
            && k in s.tasks && s.tasks[k].app.uid == 200 && !s.tasks[k].phase.suspended && s.tasks[k].notice.id != NO_ID
            && s'.tasks == s.tasks && !SparedBoth(s, s', s.tasks[k])
  {
    hide Run, SoundRun, SparedBoth, Suspend, SuspendAt, Inv;
    steps, k := ForeignTask();
    step := SuspendStep(100, 0, k, false, [], {});
    var s := Run(INIT, steps);
    RunInv(steps, Basic);
    ListenerIsSuspended(s, k);
    SuspendSparesOthersExact(s, 100, 0, k);
    SuspendLeaves(s, 100, 0, k);
    var j :| j in s.tasks && s.tasks[j].app.uid != 100 && !SparedBoth(s, SuspendAt(s, 100, 0, k), s.tasks[j]);
    assert j == k;
  }

  lemma SuspendLeaves(s: State, uid: int, reason: int, k: string)
    requires k in s.tasks && s.tasks[k].app.uid != uid
    ensures SuspendAt(s, uid, reason, k).tasks == s.tasks
  {
    hide NotifyAppStop, HasUid;
  }

  // ---------------------------------------------------------------- a restart without a process list

  lemma RestoredAudible(s: State, k: string, r: Record)
    requires s.tasks == map[k := r] && s.disk == WriteTable(s.tasks)
    ensures var s' := Restart(s, None, None, [k], map[]);
            && s'.tasks == map[k := Restored(r)] && s'.nextTask == 0 && s'.nextNote == NO_ID && s'.disabled == {}
            && s'.subs == []
  {
    hide ReadTable, WriteTable, Restored;
    TableRoundTrip(s.tasks);
  }

  lemma RestoredKeeps(r: Record)
    ensures Restored(r).app == r.app && Restored(r).notice == r.notice
  {
  }

  lemma KeysOfUids(uid: int, uid': int, id: int, id': int)
    requires uid != uid'
    ensures KeyOf(AudibleRecord(uid, id)) != KeyOf(AudibleRecord(uid', id'))
  {
    L.KeysNameUid(uid, "Webview2", NO_ID, uid', "Webview2", NO_ID, false, id, id');
  }

  /** Application 100 gets a task, the manager restarts without a process list, and application 200 gets one:
      both have task id 1, and both use notification id 0. */
  lemma IdsCollide() returns (steps: seq<Step>, j: string, k: string)
    ensures ProperRun(steps)
    ensures var t := Run(INIT, steps).tasks;
            && j in t && k in t && t[j].app.uid != t[k].app.uid
            && t[j].app.taskId == t[k].app.taskId && t[j].notice.id == t[k].notice.id != NO_ID
  {
    hide Start, KeyOf, Run, SoundRun, HarmlessRun, ProperRun, OwnLabel, Restart, Restored, WriteTable;
    j, k := KeyOf(AudibleRecord(100, 1)), KeyOf(AudibleRecord(200, 1));
    NoSteps();
    var a, b := StartStep(Audible(100), ANSWERS, []), RestartStep(None, None, [j], map[]);
    var c := StartStep(Audible(200), ANSWERS, []);
    Snoc([], a);
    AudibleStart(INIT, 100);
    AudibleProper(100, ANSWERS, []);
    AudibleFacts(100, 1);
    Snoc([] + [a], b);
    var s := Run(INIT, [] + [a]);
    RestoredAudible(s, j, s.tasks[j]);
    RestoredKeeps(s.tasks[j]);
    Snoc([] + [a] + [b], c);
    KeysOfUids(100, 200, 1, 1);
    AudibleStart(Run(INIT, [] + [a] + [b]), 200);
    AudibleProper(200, ANSWERS, []);
    AudibleFacts(200, 1);
    steps := [] + [a] + [b] + [c];
  }

  lemma RestoredAwake(r: Record)
    requires r.phase == BLANK.phase
    ensures !Restored(r).phase.suspended
  {
  }

  /** Two tasks share an id, and the one of application 200 is removed: the system ability takes the other for
      stopped as well. */
  lemma StopMisheard(s: State, j: string, k: string)
    requires j in s.tasks && k in s.tasks && j != k && s.tasks[j].app.uid != 200 && s.tasks[k].app.uid == 200
    requires s.tasks[j].app.taskId == s.tasks[k].app.taskId && !s.tasks[j].phase.suspended && s.subs == [SYSTEM_ABILITY]
    ensures !MirrorOk(Apply(s, LoopStep(ByUid(200), [k])))
  {
    hide Notify, WriteTable, View, NotifyAppStop, HasUid, MainNote, SubNote;
    var r, job := s.tasks[k], ByUid(200);
    assert s.subs[0] == SYSTEM_ABILITY;
    assert IsSystemAbility(s.subs, 2);
    assert [k][..0] == [] && Visits(s, [], job) == s;
    var s1 := Save(Drop(s, k, r, FREEZE_CANCEL, MainNote(r) + SubNote(r)));
    assert Visits(s, [k], job) == s1;
    SystemAbilityHears(s.log, s.subs, TaskCancel, Because(r, FREEZE_CANCEL), 2);
    TellKeepsView(s1, 200, 2);
    var s' := Apply(s, LoopStep(job, [k]));
    assert r.app.taskId !in View(s'.log, 2);
    assert j in s'.tasks && s'.tasks[j] == s.tasks[j];
    assert r.app.taskId in Snapshot(s'.tasks);
    assert IsSystemAbility(s'.subs, 2);
  }

  /** Application 100 gets a task, the manager restarts without a process list, a system ability subscribes. */
  lemma RestoredUnderWatch() returns (steps: seq<Step>, j: string)
    ensures ProperRun(steps) && HarmlessRun(INIT, steps) && j == KeyOf(AudibleRecord(100, 1))
    ensures var s := Run(INIT, steps);
            && s.subs == [SYSTEM_ABILITY] && s.tasks.Keys == {j} && s.disabled == {} && s.nextTask == 0
            && s.tasks[j].app.uid == 100 && s.tasks[j].app.taskId == 1 && !s.tasks[j].phase.suspended
  {
    hide Start, KeyOf, Run, SoundRun, HarmlessRun, ProperRun, OwnLabel, Restart, Restored, WriteTable, Subscribe,
      AudibleRecord, Audible;
    j := KeyOf(AudibleRecord(100, 1));
    NoSteps();
    var a, b := StartStep(Audible(100), ANSWERS, []), RestartStep(None, None, [j], map[]);
    Snoc([], a);
    AudibleStart(INIT, 100);
    AudibleProper(100, ANSWERS, []);
    AudibleFacts(100, 1);
    Snoc([] + [a], b);
    var s := Run(INIT, [] + [a]);
    RestoredAudible(s, j, s.tasks[j]);
    RestoredKeeps(s.tasks[j]);
    RestoredAwake(s.tasks[j]);
    Snoc([] + [a] + [b], SubscribeStep(SYSTEM_ABILITY));
    Subscribed(Run(INIT, [] + [a] + [b]), SYSTEM_ABILITY);
    steps := [] + [a] + [b] + [SubscribeStep(SYSTEM_ABILITY)];
  }

  /** The mirror needs the process list: application 200 then gets a task with the same id, and its removal breaks
      the mirror. */
  lemma MirrorNeedsProcessList() returns (steps: seq<Step>)
    ensures ProperRun(steps) && HarmlessRun(INIT, steps) && !MirrorOk(Run(INIT, steps))
  {
    hide Start, KeyOf, Run, SoundRun, HarmlessRun, ProperRun, OwnLabel, MirrorOk, AudibleRecord, Audible;
    var watched, j := RestoredUnderWatch();
    var k, d := KeyOf(AudibleRecord(200, 1)), StartStep(Audible(200), ANSWERS, []);
    Snoc(watched, d);
    KeysOfUids(100, 200, 1, 1);
    AudibleStart(Run(INIT, watched), 200);
    AudibleProper(200, ANSWERS, []);
    AudibleFacts(200, 1);
    steps := watched + [d] + [LoopStep(ByUid(200), [k])];
    HarmlessSnoc(watched + [d], k);
    StopMisheard(Run(INIT, watched + [d]), j, k);
  }

  lemma HarmlessSnoc(steps: seq<Step>, k: string)
    requires ProperRun(steps) && HarmlessRun(INIT, steps)
    ensures ProperRun(steps + [LoopStep(ByUid(200), [k])])
    ensures HarmlessRun(INIT, steps + [LoopStep(ByUid(200), [k])])
    ensures Run(INIT, steps + [LoopStep(ByUid(200), [k])]) == Apply(Run(INIT, steps), LoopStep(ByUid(200), [k]))
  {
    hide Apply;
    Snoc(steps, LoopStep(ByUid(200), [k]));
    assert (steps + [LoopStep(ByUid(200), [k])])[..|steps|] == steps;
  }

  // ---------------------------------------------------------------- tasks by request object

  /** The submode with which a mode may be asked for: a live view for data transfer, a notification for playback or
      recording, or an ordinary notification. */
  function SubOf(mode: nat): nat {
    if mode == DATA_TRANSFER then 3 else if mode == AUDIO_PLAYBACK then 4 else if mode == AUDIO_RECORDING then 6 else 2
  }

  function SubsOf(modes: seq<nat>): (subs: seq<nat>)
    ensures |subs| == |modes|
  {
    seq(|modes|, i requires 0 <= i < |modes| => SubOf(modes[i]))
  }

  /** An application asks for a task with these modes, by a request object, for ability 7 with the name "a". */
  function Ask(uid: int, modes: seq<nat>, combined: bool, mergeTaskId: int): Request {
    AppRequest(BundleOf(uid), "a", uid, 1, 0, 0, true, modes, SubsOf(modes), 7, true, combined, mergeTaskId, true, 0,
               false, Some(WantAgentInfo(BundleOf(uid), "a")), None)
  }

  lemma AskProper(uid: int, modes: seq<nat>, combined: bool, mergeTaskId: int, env: StartEnv, order: seq<string>)
    requires modes != []
    ensures Proper(StartStep(Ask(uid, modes, combined, mergeTaskId), env, order))
  {
  }

  function Asked(uid: int, modes: seq<nat>, combined: bool, mergeTaskId: int, taskId: int): Record {
    WithTaskId(NewRecord(Ask(uid, modes, combined, mergeTaskId)), taskId)
  }

  /** The application manager reports the application in the foreground, the bundle declares these modes, and
      everything is published. */
  function Welcome(uid: int, configured: set<nat>): StartEnv {
    StartEnv(false, {uid}, configured, false, Ok, Answer(Accepted, Accepted))
  }

  lemma AskedFacts(uid: int, modes: seq<nat>, combined: bool, mergeTaskId: int, taskId: int)
    ensures var r := Asked(uid, modes, combined, mergeTaskId, taskId);
            && r.app == BLANK.app.(bundleName := BundleOf(uid), abilityName := "a", uid := uid, pid := 1,
                                   abilityId := 7, appIndex := 0, taskId := taskId, newApi := true, byRequest := true,
                                   combined := combined)
            && r.work.modes == modes && r.work.subModes == SubsOf(modes) && r.work.mergeTaskId == mergeTaskId
            && r.notice == BLANK.notice && r.phase == BLANK.phase
  {
  }

  /** Modes that need neither permission nor system rights. */
  predicate Ordinary(modes: seq<nat>, configured: set<nat>) {
    forall i :: 0 <= i < |modes| ==>
      modes[i] in {DATA_TRANSFER, AUDIO_PLAYBACK, AUDIO_RECORDING, LOCATION} && modes[i] in configured
  }

  lemma OrdinaryPass(r: Record, modes: seq<nat>, configured: set<nat>)
    requires Ordinary(modes, configured)
    ensures AllPass(modes, r.app, configured, false, Ok)
  {
  }

  lemma FewOfAbility(t: Table, abilityId: int)
    ensures |SameAbility(t, abilityId)| <= |t.Keys|
  {
    SubsetSize(SameAbility(t, abilityId), t.Keys);
  }

  lemma AskAccepted(s: State, uid: int, modes: seq<nat>, combined: bool, mergeTaskId: int,
                    configured: set<nat>, order: seq<string>)
    requires FreshIds(s.tasks, s.nextTask) && IsWalk(order, s.tasks) && uid !in s.disabled && |s.tasks.Keys| < 10
    requires Ordinary(modes, configured) && (combined ==> Mergeable(modes))
    requires KeyOf(Asked(uid, modes, combined, mergeTaskId, s.nextTask + 1)) !in s.tasks
    requires mergeTaskId != NO_ID ==>
               && combined
               && exists k :: && k in s.tasks
                              && CanMerge(s.tasks[k], Asked(uid, modes, combined, mergeTaskId, s.nextTask + 1))
    ensures Start(s, Ask(uid, modes, combined, mergeTaskId), Welcome(uid, configured), order).status == Ok
  {
    hide FreshIds, IsWalk, KeyOf, Start, Ordinary, Mergeable, CanMerge, AllPass, SameAbility, AllIn, Asked;
    var q, r := Ask(uid, modes, combined, mergeTaskId), Asked(uid, modes, combined, mergeTaskId, s.nextTask + 1);
    AskedFacts(uid, modes, combined, mergeTaskId, s.nextTask + 1);
    assert Candidate(s, q) == r by { CandidateIs(s, uid, modes, combined, mergeTaskId); }
    OrdinaryPass(r, modes, configured);
    FewOfAbility(s.tasks, 7);
    AcceptsExact(s, q, Welcome(uid, configured), order);
  }

  lemma CandidateIs(s: State, uid: int, modes: seq<nat>, combined: bool, mergeTaskId: int)
    ensures Candidate(s, Ask(uid, modes, combined, mergeTaskId))
         == Asked(uid, modes, combined, mergeTaskId, s.nextTask + 1)
  {
  }

  /** What an accepted start does, when it publishes and when it shares. */
  lemma StartPublishes(s: State, q: Request, env: StartEnv, order: seq<string>)
    requires Start(s, q, env, order).status == Ok && Candidate(s, q).app.byRequest && !IsMerging(Candidate(s, q))
    requires !Candidate(s, q).app.inner
    ensures var r := Candidate(s, q);
            var p := Refresh(r, s.nextNote, env.answer);
            Start(s, q, env, order).s
            == Insert(Noted(s.(nextTask := s.nextTask + 1), p.notes).(nextNote := p.next), p.r)
  {
    hide Allowed, CheckStartModes, First, SameModes, Refresh, Insert, L.TaskKey, NewRecord, WithTaskId;
  }

  lemma StartShares(s: State, q: Request, env: StartEnv, order: seq<string>, k: string)
    requires FreshIds(s.tasks, s.nextTask) && IsWalk(order, s.tasks)
    requires Start(s, q, env, order).status == Ok && IsMerging(Candidate(s, q)) && k in s.tasks
    requires CanMerge(s.tasks[k], Candidate(s, q))
    ensures var r := Candidate(s, q);
            Start(s, q, env, order).s
            == Insert(Put(s.(nextTask := s.nextTask + 1), k, MergeTarget(s.tasks[k], r)), MergeInto(r, s.tasks[k]))
  {
    hide FreshIds, IsWalk, Allowed, CheckStartModes, MatchMerge, CanMerge, Insert, L.TaskKey, NewRecord, WithTaskId;
    var r := Candidate(s, q);
    MatchMergeIs(s.tasks, r, order, s.nextTask, k);
    AcceptedStart(s, q, env, order);
    MergeIsMatch(s.tasks, r, order);
  }

  lemma MergeIsMatch(tasks: Table, r: Record, order: seq<string>)
    requires IsMerging(r) && !CheckMerge(tasks, r, order).Refuse?
    ensures CheckMerge(tasks, r, order) == MatchMerge(tasks, r, order)
  {
    hide MatchMerge;
  }

  /** One accepted start that publishes: the table gains the record, with its label and the next ids. */
  lemma AskPublishes(s: State, uid: int, modes: seq<nat>, combined: bool, configured: set<nat>,
                     order: seq<string>)
    requires FreshIds(s.tasks, s.nextTask) && IsWalk(order, s.tasks) && uid !in s.disabled && |s.tasks.Keys| < 10
    requires Ordinary(modes, configured) && (combined ==> Mergeable(modes))
    requires KeyOf(Asked(uid, modes, combined, NO_ID, s.nextTask + 1)) !in s.tasks
    ensures var r := Asked(uid, modes, combined, NO_ID, s.nextTask + 1);
            var p := Refresh(r, s.nextNote, Answer(Accepted, Accepted));
            var s' := Start(s, Ask(uid, modes, combined, NO_ID), Welcome(uid, configured), order).s;
            && s'.tasks == s.tasks[KeyOf(r) := p.r] && s'.nextTask == s.nextTask + 1 && s'.nextNote == p.next
            && s'.subs == s.subs && s'.disabled == s.disabled && s'.disk == WriteTable(s'.tasks)
  {
    hide FreshIds, IsWalk, Start, Ordinary, Mergeable, Refresh, Notify, WriteTable, L.TaskKey, Asked;
    var q, r := Ask(uid, modes, combined, NO_ID), Asked(uid, modes, combined, NO_ID, s.nextTask + 1);
    AskAccepted(s, uid, modes, combined, NO_ID, configured, order);
    AskedFacts(uid, modes, combined, NO_ID, s.nextTask + 1);
    CandidateIs(s, uid, modes, combined, NO_ID);
    StartPublishes(s, q, Welcome(uid, configured), order);
    RefreshKeepsCore(r, s.nextNote, Answer(Accepted, Accepted));
  }

  lemma InitFresh()
    ensures FreshIds(INIT.tasks, INIT.nextTask) && IsWalk([], INIT.tasks) && |INIT.tasks.Keys| == 0
  {
  }

  lemma {:induction false} RefreshPlain(r: Record, next: int)
    requires !r.phase.suspended && !HasLiveViewPart(r)
    ensures Refresh(r, next, Answer(Accepted, Accepted)) == Publish(r, next, true)
  {
    hide Publish;
  }

  /** A run of one start: one task, as asked for, in memory and in the file. */
  lemma OneTask(uid: int, modes: seq<nat>, combined: bool,
                configured: set<nat>) returns (steps: seq<Step>, k: string)
    requires Ordinary(modes, configured) && (combined ==> Mergeable(modes)) && |modes| == 1
    ensures ProperRun(steps) && SoundRun(INIT, steps) && k == L.TaskKey(uid, "a", 7, true, 1)
    ensures steps == [StartStep(Ask(uid, modes, combined, NO_ID), Welcome(uid, configured), [])]
    ensures var s, r := Run(INIT, steps), Asked(uid, modes, combined, NO_ID, 1);
            && s.tasks.Keys == {k} && s.tasks[k].app == r.app && s.tasks[k].work == r.work
            && s.disabled == {} && s.disk == WriteTable(s.tasks) && s.nextTask == 1
  {
    hide Start, Run, SoundRun, HarmlessRun, ProperRun, Ordinary, Mergeable, WriteTable, L.TaskKey, OwnLabel,
      FreshIds, IsWalk, Asked;
    var r := Asked(uid, modes, combined, NO_ID, 1);
    NoSteps();
    InitFresh();
    var a := StartStep(Ask(uid, modes, combined, NO_ID), Welcome(uid, configured), []);
    Snoc([], a);
    AskedFacts(uid, modes, combined, NO_ID, 1);
    AskPublishes(INIT, uid, modes, combined, configured, []);
    RefreshPlain(r, INIT.nextNote);
    AskProper(uid, modes, combined, NO_ID, Welcome(uid, configured), []);
    steps := [] + [a];
    k := KeyOf(r);
  }

  // ---------------------------------------------------------------- an undeclared mode

  const CONFIG: Config := map[(1, "a") := {LOCATION}, (2, "a") := {AUDIO_RECORDING}]
  const SECOND: string := L.TaskKey(2, "a", 7, true, 1)

  /** Application 2 starts a recording task, then application 1 a location task, each for its ability "a". */
  const ASK_RECORDING: Step :=
    StartStep(Ask(2, [AUDIO_RECORDING], false, NO_ID), Welcome(2, ConfigOf(CONFIG, 2, "a")), [])
  const ASK_LOCATION: Step :=
    StartStep(Ask(1, [LOCATION], false, NO_ID), Welcome(1, ConfigOf(CONFIG, 1, "a")), [SECOND])

  function NewModes(taskId: int, modes: seq<nat>): UpdateParam {
    UpdateParam(taskId, 0, modes, SubsOf(modes), true, false, None, None)
  }

  function UpdateAnswers(configured: set<nat>): UpdateEnv {
    UpdateEnv(configured, false, Ok, true, true, Accepted, map[])
  }

  lemma TwoDemands()
    ensures DemandsRun(Declared(CONFIG), INIT, [ASK_RECORDING] + [ASK_LOCATION])
  {
    hide Run, SubsOf;
    var one, two := [ASK_RECORDING], [ASK_RECORDING] + [ASK_LOCATION];
    assert one[..0] == [] && two[..1] == one;
    assert DemandsRun(Declared(CONFIG), INIT, []);
    assert Demands(Declared(CONFIG), Run(INIT, []), ASK_RECORDING);
    assert DemandsRun(Declared(CONFIG), INIT, one);
    assert Demands(Declared(CONFIG), Run(INIT, one), ASK_LOCATION);
  }

  /** Task 1 is the one of application 2, which caches its configuration, task 2 the one of application 1. */
  lemma TwoTasks() returns (steps: seq<Step>, k: string)
    ensures steps == [ASK_RECORDING] + [ASK_LOCATION] && ProperRun(steps) && SoundRun(INIT, steps)
    ensures var s, r := Run(INIT, steps), Asked(1, [LOCATION], false, NO_ID, 2);
            && s.tasks.Keys == {SECOND, k} && s.disabled == {} && s.tasks[SECOND].app.uid == 2
            && s.tasks[k].app == r.app && s.tasks[k].work == r.work
  {
    hide Start, Run, SoundRun, HarmlessRun, ProperRun, WriteTable, L.TaskKey, OwnLabel, FreshIds, IsWalk, Asked, Inv;
    var one, j := OneTask(2, [AUDIO_RECORDING], false, {AUDIO_RECORDING});
    var s, r := Run(INIT, one), Asked(1, [LOCATION], false, NO_ID, 2);
    AskedFacts(2, [AUDIO_RECORDING], false, NO_ID, 1);
    AskedFacts(1, [LOCATION], false, NO_ID, 2);
    k := KeyOf(r);
    L.KeysNameUid(1, "a", 7, 2, "a", 7, true, 2, 1);
    RunInv(one, Full);
    InvIds(s);
    WalkOfOne(j, s.tasks);
    AskPublishes(s, 1, [LOCATION], false, {LOCATION}, [j]);
    RefreshPlain(r, s.nextNote);
    Snoc(one, ASK_LOCATION);
    AskProper(1, [LOCATION], false, NO_ID, Welcome(1, ConfigOf(CONFIG, 1, "a")), [SECOND]);
    steps := [ASK_RECORDING] + [ASK_LOCATION];
  }

  lemma WalkOfOne(k: string, t: Table)
    requires t.Keys == {k}
    ensures IsWalk([k], t) && |t.Keys| == 1
  {
  }

  lemma ForeignUpdateAt(s: State, k: string)
    requires FreshIds(s.tasks, s.nextTask) && s.disabled == {} && AllObey(Declared(CONFIG), s.tasks) && k in s.tasks
    requires s.tasks[k].app == Asked(1, [LOCATION], false, NO_ID, 2).app && s.tasks[k].work.modes == [LOCATION]
    ensures var p, env := NewModes(2, [AUDIO_RECORDING]), UpdateAnswers(ConfigOf(CONFIG, 2, "a"));
            !AllObey(Declared(CONFIG), UpdateById(s, 2, p, env, [SECOND, k]).s.tasks)
  {
    hide UpdateById, FreshIds, First, AllPass, AllObey, Asked, L.TaskKey, SubsOf;
    var p, env := NewModes(2, [AUDIO_RECORDING]), UpdateAnswers({AUDIO_RECORDING});
    AskedFacts(1, [LOCATION], false, NO_ID, 2);
    FirstIs(s.tasks, [SECOND, k], ByIdAndRequest(2), k, s.nextTask);
    OrdinaryPass(s.tasks[k], [AUDIO_RECORDING], {AUDIO_RECORDING});
    assert !IsDeclared(CONFIG, s.tasks[k].app, p.modes[0]);
    UpdateByIdDeclaredExact(s, 2, p, env, [SECOND, k], CONFIG, k);
  }

  /** After the two starts, application 2 updates the task of application 1, by its id, to a mode that only the
      bundle of application 2 declares. */
  lemma ForeignUpdateBreaks() returns (steps: seq<Step>, step: Step)
    ensures ProperRun(steps) && SoundRun(INIT, steps) && DemandsRun(Declared(CONFIG), INIT, steps)
    ensures steps == [ASK_RECORDING] + [ASK_LOCATION] && SECOND in Run(INIT, steps).tasks
    ensures step.UpdateByIdStep? && step.caller == 2 && step.env.configured == ConfigOf(CONFIG, 2, "a")
    ensures AllObey(Declared(CONFIG), Run(INIT, steps).tasks)
    ensures !AllObey(Declared(CONFIG), Apply(Run(INIT, steps), step).tasks)
  {
    hide Run, SoundRun, ProperRun, UpdateById, FreshIds, Asked, Inv, AllObey, DemandsRun, L.TaskKey;
    var k;
    steps, k := TwoTasks();
    AskedFacts(1, [LOCATION], false, NO_ID, 2);
    TwoDemands();
    RunHolds(steps, Declared(CONFIG));
    step := UpdateByIdStep(2, NewModes(2, [AUDIO_RECORDING]), UpdateAnswers({AUDIO_RECORDING}), [SECOND, k]);
    RunInv(steps, Full);
    InvIds(Run(INIT, steps));
    ForeignUpdateAt(Run(INIT, steps), k);
  }

  // ---------------------------------------------------------------- audio playback without a declaration

  /** Application 1 has one ability, which declares no mode. */
  const SILENT: B.Bundles := map[1 := [B.Ability("a", {})]]
  const AUDIO_ONLY: set<nat> := {AUDIO_PLAYBACK}
  const BY_COMPONENT: string := L.TaskKey(1, "a", NO_ID, false, 1)

  const COMPONENT: Step := StartStep(SoundRequest(1, "a", true), Answers(AUDIO_ONLY), [])
  const ASK_AUDIO: Step := StartStep(Ask(1, [AUDIO_PLAYBACK], false, NO_ID), Welcome(1, AUDIO_ONLY), [BY_COMPONENT])
  const SILENT_EVENTS: seq<B.Event> := [B.Handled(COMPONENT, {1})] + [B.Handled(ASK_AUDIO, {1})]

  lemma SilentCache()
    ensures B.CacheAfter(SILENT, B.World(INIT, map[]), COMPONENT, {1}) == map[1 := map["a" := AUDIO_ONLY]]
  {
    hide KeyOf;
    var abilities := SILENT[1];
    assert abilities[..0] == [];
    assert B.Collected(abilities) == map[];
    assert B.AsksForInfo(INIT, COMPONENT.q, COMPONENT.startEnv);
  }

  lemma SilentDeclares()
    ensures !IsDeclared(B.Declaration(SILENT), Asked(1, [AUDIO_PLAYBACK], false, NO_ID, 2).app, AUDIO_PLAYBACK)
  {
    hide Asked, B.Declaration;
    AskedFacts(1, [AUDIO_PLAYBACK], false, NO_ID, 2);
    B.DeclarationIs(SILENT, 1, "a");
    assert SILENT[1][..0] == [];
    assert B.Collected(SILENT[1]) == map[];
  }

  /** The worlds along the two events. */
  lemma SilentWorlds()
    ensures B.After(SILENT, SILENT_EVENTS[..1]) == B.World(Apply(INIT, COMPONENT), map[1 := map["a" := AUDIO_ONLY]])
    ensures B.InformedRun(SILENT, SILENT_EVENTS) && B.OwnedRun(SILENT, SILENT_EVENTS)
    ensures B.Steps(SILENT_EVENTS) == [] + [COMPONENT] + [ASK_AUDIO]
    ensures B.After(SILENT, SILENT_EVENTS).s == Apply(Apply(INIT, COMPONENT), ASK_AUDIO)
  {
    hide Apply, B.CacheAfter, B.AsksForInfo, SoundRequest;
    var one, two := [B.Handled(COMPONENT, {1})], SILENT_EVENTS;
    assert one[..0] == [] && two[..1] == one;
    SilentCache();
    assert B.After(SILENT, []) == B.World(INIT, map[]);
    assert B.InformedRun(SILENT, []) && B.OwnedRun(SILENT, []);
    assert B.Steps(one) == [] + [COMPONENT];
    SilentStays(Apply(INIT, COMPONENT));
    SilentInformed(Apply(INIT, COMPONENT));
    assert B.InformedRun(SILENT, one) && B.OwnedRun(SILENT, one);
  }

  lemma SilentStays(s: State)
    ensures var c := map[1 := map["a" := AUDIO_ONLY]]; B.CacheAfter(SILENT, B.World(s, c), ASK_AUDIO, {1}) == c
  {
    hide B.AsksForInfo, SubsOf;
  }

  lemma SilentInformed(s: State)
    ensures B.Informed(SILENT, B.World(INIT, map[]), B.Handled(COMPONENT, {1}))
    ensures B.Informed(SILENT, B.World(s, map[1 := map["a" := AUDIO_ONLY]]), B.Handled(ASK_AUDIO, {1}))
  {
    hide B.CacheAfter, SubsOf;
    SilentCache();
    SilentStays(s);
  }

  lemma ComponentTask()
    ensures var steps := [] + [COMPONENT];
            && ProperRun(steps) && SoundRun(INIT, steps) && Run(INIT, steps) == Apply(INIT, COMPONENT)
            && Run(INIT, steps).tasks.Keys == {BY_COMPONENT}
            && Run(INIT, steps).disabled == {} && Run(INIT, steps).nextTask == 1
  {
    hide Start, Run, SoundRun, HarmlessRun, ProperRun, WriteTable, L.TaskKey, OwnLabel, Sounding;
    NoSteps();
    Snoc([], COMPONENT);
    SoundingFacts(1, "a", true, 1);
    SoundingStart(INIT, 1, "a", true, AUDIO_ONLY);
  }

  /** A component starts audio for ability "a" of application 1, whose bundle declares no mode, and so has audio
      playback cached for it; then the application starts the ability with that mode through the new interface. */
  lemma FallbackBreaks() returns (k: string)
    ensures B.InformedRun(SILENT, SILENT_EVENTS) && B.OwnedRun(SILENT, SILENT_EVENTS)
    ensures ProperRun(B.Steps(SILENT_EVENTS)) && SoundRun(INIT, B.Steps(SILENT_EVENTS))
    ensures var t := B.After(SILENT, SILENT_EVENTS).s.tasks;
            && k in t && t[k].app.newApi && !t[k].app.inner && t[k].work.modes == [AUDIO_PLAYBACK]
            && !IsDeclared(B.Declaration(SILENT), t[k].app, AUDIO_PLAYBACK)
  {
    hide Start, Run, SoundRun, HarmlessRun, ProperRun, ProperRequest, WriteTable, L.TaskKey, OwnLabel, FreshIds, IsWalk,
      Asked, Inv, B.InformedRun, B.OwnedRun, B.Steps, IsDeclared, B.After, SoundRequest, SubsOf;
    var s, r := Run(INIT, [] + [COMPONENT]), Asked(1, [AUDIO_PLAYBACK], false, NO_ID, 2);
    ComponentTask();
    Snoc([] + [COMPONENT], ASK_AUDIO);
    SilentWorlds();
    SilentDeclares();
    AskedFacts(1, [AUDIO_PLAYBACK], false, NO_ID, 2);
    k := KeyOf(r);
    RunInv([] + [COMPONENT], Full);
    InvIds(s);
    L.LegacyAndRequestKeysDiffer(1, "a", NO_ID, 1, 1, "a", 7, 2);
    WalkOfOne(BY_COMPONENT, s.tasks);
    AskPublishes(s, 1, [AUDIO_PLAYBACK], false, AUDIO_ONLY, [BY_COMPONENT]);
    RefreshPlain(r, s.nextNote);
    AskProper(1, [AUDIO_PLAYBACK], false, NO_ID, Welcome(1, AUDIO_ONLY), [BY_COMPONENT]);
  }

  lemma SoundingFacts(uid: int, name: string, component: bool, taskId: int)
    ensures KeyOf(Sounding(uid, name, component, taskId)) == L.TaskKey(uid, name, NO_ID, false, taskId)
  {
    hide L.TaskKey;
  }

  // ---------------------------------------------------------------- a combined task that transfers data

  lemma ModesDiffer(a: seq<nat>, b: seq<nat>, m: nat)
    requires m in b && m !in a
    ensures !SameModes(a, b)
  {
    var x, y := set n | n in a, set n | n in b;
    assert m in y && m !in x;
    assert SameModes(a, b) <==> x == y;
  }

  const BOTH_MODES: set<nat> := {DATA_TRANSFER, LOCATION}

  lemma UnderscoreUpdateAt(s: State, order: seq<string>)
    requires var k := L.TaskKey(1, "a", 7, true, 1);
             && s.tasks.Keys == {k} && s.disabled == {} && s.tasks[k].work.modes == [LOCATION]
             && s.tasks[k].app.byRequest && s.tasks[k].app.combined
    ensures var k := L.TaskKey(1, L.Line(["a"], D.ToString(7)), 1, false, NO_ID);
            var s' := UpdateByKey(s, k, NewModes(1, [DATA_TRANSFER]), UpdateAnswers(BOTH_MODES), order).s;
            AllObey(MayCombine, s.tasks) && !AllObey(MayCombine, s'.tasks)
  {
    hide UpdateByKey, AllPass, L.TaskKey, L.Line, D.ToString, SameModes;
    var r, p := s.tasks[L.TaskKey(1, "a", 7, true, 1)], NewModes(1, [DATA_TRANSFER]);
    OrdinaryPass(LegacySubModes(r, p), [DATA_TRANSFER], BOTH_MODES);
    ModesDiffer(r.work.modes, p.modes, DATA_TRANSFER);
    UnderscoreUpdateBreaks(s, 1, 7, 1, p, UpdateAnswers(BOTH_MODES), order);
  }

  /** Ability "a" starts a combined location task; a legacy update names ability "a_7", so that its key is that of
      the task, and gives it the data-transfer mode. */
  lemma UnderscoreUpdateReachable() returns (steps: seq<Step>, step: Step)
    ensures ProperRun(steps) && SoundRun(INIT, steps) && step.UpdateByKeyStep?
    ensures step.k == L.TaskKey(1, L.Line(["a"], D.ToString(7)), 1, false, NO_ID)
    ensures AllObey(MayCombine, Run(INIT, steps).tasks) && !AllObey(MayCombine, Apply(Run(INIT, steps), step).tasks)
  {
    hide Run, SoundRun, UpdateByKey, Asked, L.TaskKey, L.Line, D.ToString, AllObey;
    var k;
    steps, k := OneTask(1, [LOCATION], true, BOTH_MODES);
    AskedFacts(1, [LOCATION], true, NO_ID, 1);
    step := UpdateByKeyStep(L.TaskKey(1, L.Line(["a"], D.ToString(7)), 1, false, NO_ID), NewModes(1, [DATA_TRANSFER]),
                            UpdateAnswers(BOTH_MODES), []);
    UnderscoreUpdateAt(Run(INIT, steps), []);
  }

  // ---------------------------------------------------------------- a restart that forgets

  lemma RestartForgetsAt(s: State, k: string)
    requires s.tasks.Keys == {k} && s.disk == WriteTable(s.tasks) && s.tasks[k].work.modes == [LOCATION]
    requires s.tasks[k].app.uid == 1 && s.tasks[k].app.pid == 1 && s.tasks[k].app.byRequest
    ensures IsWalk([k], ReadTable(s.disk)) && !Admitted(Restart(s, Some({1}), None, [k], map[]), 1)
  {
    hide Restart, ReadTable, WriteTable, Restored;
    TableRoundTrip(s.tasks);
    RestoredLocation(s.tasks[k]);
    var file := ReadTable(s.disk);
    assert file[k] == Restored(s.tasks[k]);
    assert file[k].work.modes[0] !in [AUDIO_PLAYBACK];
    RestartAdmissionExact(s, Some({1}), None, [k], map[], 1);
  }

  lemma OneLocationTask() returns (steps: seq<Step>, k: string)
    ensures ProperRun(steps) && SoundRun(INIT, steps)
    ensures var s := Run(INIT, steps);
            && s.tasks.Keys == {k} && s.disk == WriteTable(s.tasks) && s.tasks[k].work.modes == [LOCATION]
            && s.tasks[k].app.uid == 1 && s.tasks[k].app.pid == 1 && s.tasks[k].app.byRequest
  {
    hide Run, SoundRun, Asked, WriteTable;
    steps, k := OneTask(1, [LOCATION], false, {LOCATION});
    AskedFacts(1, [LOCATION], false, NO_ID, 1);
  }

  lemma InForeground(s: State, u: int)
    ensures var s' := AppState(s, u, true, []); Admitted(s', u) && s'.tasks == s.tasks && s'.disk == s.disk
  {
  }

  /** Application 1 starts a location task and is in the foreground; the manager restarts without a list of
      foreground applications: the task is back, and nothing is remembered that would admit it. */
  lemma RestartForgets() returns (steps: seq<Step>, step: Step)
    ensures ProperRun(steps) && SoundRun(INIT, steps) && Sound(Run(INIT, steps), step) && step.RestartStep?
    ensures Admitted(Run(INIT, steps), 1) && !Admitted(Apply(Run(INIT, steps), step), 1)
  {
    hide Run, SoundRun, HarmlessRun, ProperRun, Restart, Asked, ReadTable, WriteTable, Admitted, IsWalk, AppState;
    var before, k := OneLocationTask();
    steps := before + [AppStateStep(1, true, [])];
    Snoc(before, AppStateStep(1, true, []));
    step := RestartStep(Some({1}), None, [k], map[]);
    InForeground(Run(INIT, before), 1);
    RestartForgetsAt(Run(INIT, steps), k);
  }

  lemma RestoredLocation(r: Record)
    requires r.work.modes == [LOCATION]
    ensures Restored(r).app == r.app && Restored(r).work.modes == [LOCATION]
  {
    ModesRoundTrip([LOCATION]);
  }
}
