/** The continuous-task manager as a transition system. Each function below is one piece of
    bg_continuous_task_mgr.cpp on an explicit state. The order in which an unordered map happens to
    be walked, and the answers of the application manager and the notification service, are inputs. */
module TaskTable {
  import opened Wrappers
  import opened Json
  import opened TaskRecord
  import opened Subscribers
  import L = Labels

  const NO_ID: int := -1
  const ILLEGAL_ID: int := -2
  const ABILITY_TASK_MAX_NUM: int := 10
  const BGMODE_NUMS: nat := 10
  const AUDIO_SUSPEND_REASON: int := 6

  const DATA_TRANSFER: nat := 1
  const AUDIO_PLAYBACK: nat := 2
  const AUDIO_RECORDING: nat := 3
  const LOCATION: nat := 4
  const BLUETOOTH_INTERACTION: nat := 5
  const WIFI_INTERACTION: nat := 7
  const VOIP: nat := 8
  const TASK_KEEPING: nat := 9
  const AV_PLAYBACK_AND_RECORD: nat := 12
  const SPECIAL_SCENARIO: nat := 13
  const AVSESSION_SUBMODE: nat := 5
  const ALL_MODES: nat := 0xFF

  datatype Status =
    | Ok | RequestsDisabled | PreLaunchState | TooManyTasks | OnBackground | AlreadyExists | NotExist
    | NoModeConfigured | NotSystemApp | KeepingRefused | SpecialRefused | InvalidMode
    | DataTransferNotMerged | SpecialNotMerged | CurrentNotCombined | TaskIdInvalid | TargetNotCombined
    | TargetHasNoNotification | ModeMismatch | NotificationUnverified | NotificationRefused
    | DataTransferNotUpdated | ProgressNotAllowed | UpdateModeMismatch | NotDataTransfer | CheckParam

  /** Calls to the notification service. Cancels name the field the id was taken from. */
  datatype Note = Post(text: string, id: int) | CancelMain(text: string, id: int) | CancelSub(text: string, id: int)

  datatype State = State(
    tasks: map<string, Record>, nextTask: int, nextNote: int,
    foreground: set<int>, applied: map<int, seq<nat>>, disabled: set<int>,
    subs: seq<Subscriber>, disk: Json,
    log: seq<Entry>, notes: seq<Note>)

  const INIT: State := State(map[], 0, NO_ID, {}, map[], {}, [], Null, [], [])

  datatype Reply = Reply(s: State, status: Status)

  // ---------------------------------------------------------------- small steps

  function Put(s: State, k: string, r: Record): State {
    s.(tasks := s.tasks[k := r])
  }

  function Erase(s: State, k: string): State {
    s.(tasks := s.tasks - {k})
  }

  /** RefreshTaskRecord, with the write succeeding. */
  function Save(s: State): State {
    s.(disk := WriteTable(s.tasks))
  }

  function Emit(s: State, change: Change, r: Record): State {
    s.(log := s.log + Notify(s.subs, change, r))
  }

  function Noted(s: State, notes: seq<Note>): State {
    s.(notes := s.notes + notes)
  }

  predicate HasUid(tasks: map<string, Record>, uid: int) {
    exists k :: k in tasks && tasks[k].app.uid == uid
  }

  /** HandleAppContinuousTaskStop. */
  function TellAppStop(s: State, uid: int): State {
    if HasUid(s.tasks, uid) then s else s.(log := s.log + NotifyAppStop(s.subs, uid))
  }

  predicate RefersTo(r: Record, text: string, id: int) {
    r.notice.id == id && r.notice.text == text
  }

  predicate Referenced(tasks: map<string, Record>, text: string, id: int) {
    exists k :: k in tasks && RefersTo(tasks[k], text, id)
  }

  function WithNote(r: Record, text: string, id: int): Record {
    r.(notice := r.notice.(text := text, id := id))
  }

  function NoNote(r: Record): Record {
    r.(notice := r.notice.(id := NO_ID))
  }

  function Because(r: Record, reason: int): Record {
    r.(phase := r.phase.(reason := reason))
  }

  function MainNote(r: Record): seq<Note> {
    [CancelMain(r.notice.text, r.notice.id)]
  }

  function SubNote(r: Record): seq<Note> {
    if r.notice.subId != NO_ID && r.app.byRequest then [CancelSub(r.notice.subText, r.notice.subId)] else []
  }

  /** CancelNotification: the cancels issued for a record that has just left the table. */
  function SharedCancel(tasks: map<string, Record>, r: Record): seq<Note> {
    if r.notice.id != NO_ID && !Referenced(tasks, r.notice.text, r.notice.id) then MainNote(r) + SubNote(r) else []
  }

  /** ... and its result: the service's answer to the last cancel. */
  function CancelStatus(notes: seq<Note>, refused: set<Note>): Status {
    if notes != [] && notes[|notes| - 1] in refused then NotificationRefused else Ok
  }

  // ---------------------------------------------------------------- publishing

  /** Outcome of composing the text and handing the notification to the service. */
  datatype Verdict = Unavailable | EmptyText | Suppressed | Accepted | Rejected

  datatype Answer = Answer(main: Verdict, sub: Verdict)

  datatype Posted = Posted(r: Record, next: int, notes: seq<Note>, status: Status)

  function OwnLabel(r: Record): string {
    L.MainLabel(r.app.uid, r.app.abilityName, r.app.abilityId, r.app.byRequest, r.app.taskId)
  }

  function OwnSubLabel(r: Record): string {
    L.SubLabel(r.app.uid, r.app.abilityName, r.app.abilityId, r.app.taskId, r.app.pid)
  }

  /** PublishNotification / PublishMainNotification: a record without an id gets the next one, and
      the counter stays advanced when the service refuses. */
  function Publish(r: Record, next: int, accepted: bool): Posted {
    var n := if r.notice.id == NO_ID then next + 1 else next;
    var id := if r.notice.id == NO_ID then n else r.notice.id;
    if accepted then Posted(WithNote(r, OwnLabel(r), id), n, [Post(OwnLabel(r), id)], Ok)
    else Posted(r, n, [], NotificationRefused)
  }

  function PublishSub(r: Record, next: int, accepted: bool): Posted {
    var n := if r.notice.subId == NO_ID then next + 1 else next;
    var id := if r.notice.subId == NO_ID then n else r.notice.subId;
    var text := OwnSubLabel(r);
    if accepted then Posted(r.(notice := r.notice.(subText := text, subId := id)), n, [Post(text, id)], Ok)
    else Posted(r, n, [], NotificationRefused)
  }

  /** SendContinuousTaskNotification. */
  function Send(r: Record, next: int, v: Verdict): Posted {
    match v
    case Unavailable => Posted(r, next, [], NotificationUnverified)
    case EmptyText =>
      if r.notice.id == NO_ID then Posted(r, next, [], Ok)
      else Posted(NoNote(r), next, MainNote(r), Ok)
    case Suppressed => Posted(r, next, [], Ok)
    case Accepted => Publish(r, next, true)
    case Rejected => Publish(r, next, false)
  }

  /** SendLiveViewAndOtherNotification: a live view for the transfer and a second notification for
      the other modes. A failing second one cancels the first. */
  function SendLive(r: Record, next: int, a: Answer): Posted {
    if a.main.Unavailable? then Posted(r, next, [], NotificationUnverified)
    else
      var main := Publish(r, next, !a.main.Rejected?);
      if main.status != Ok || a.sub.EmptyText? then main
      else
        var sub := if a.sub.Unavailable? then Posted(main.r, main.next, [], NotificationUnverified)
                   else PublishSub(main.r, main.next, !a.sub.Rejected?);
        sub.(notes := main.notes + if sub.status == Ok then sub.notes else MainNote(main.r))
  }

  predicate HasLiveViewPart(r: Record) {
    r.app.byRequest && |r.work.modes| > 1 && DATA_TRANSFER in r.work.modes
  }

  /** HandleActiveNotification. */
  function Refresh(r: Record, next: int, a: Answer): Posted {
    if r.phase.suspended then Posted(r, next, [], Ok)
    else if HasLiveViewPart(r) then SendLive(r, next, a)
    else Send(r, next, a.main)
  }

  /** Writing the outcome back into the table. */
  function Settle(s: State, k: string, p: Posted): State {
    Noted(Put(s, k, p.r), p.notes).(nextNote := p.next)
  }

  // ---------------------------------------------------------------- lookups

  datatype Query = ById(id: int) | ByIdAndRequest(id: int) | ByIdAndUid(id: int, uid: int) | OfUid(uid: int)

  predicate Matches(q: Query, r: Record) {
    match q
    case ById(id) => r.app.taskId == id
    case ByIdAndRequest(id) => r.app.taskId == id && r.app.byRequest
    case ByIdAndUid(id, uid) => r.app.taskId == id && r.app.uid == uid
    case OfUid(uid) => r.app.uid == uid
  }

  /** find_if over the table. */
  function First(tasks: map<string, Record>, order: seq<string>, q: Query): Option<string> {
    if order == [] then None
    else if order[0] in tasks && Matches(q, tasks[order[0]]) then Some(order[0])
    else First(tasks, order[1..], q)
  }

  // ---------------------------------------------------------------- loops over the table

  /** The loops that walk the whole table and treat each record on its own. */
  datatype Job =
    | ByUid(uid: int)
    | ByUidAndMode(uid: int, mode: nat)
    | Dismissed(text: string, id: int, isSub: bool)
    | AppGone(uid: int)
    | Cleared(uid: int)
    | Accounts(active: seq<int>)
    | InnerMode(mode: nat)
    | Everything(uids: seq<int>)
    | Audio(uid: int)
    | StandbyActive(uid: int)
    | LiveViewShown(uid: int)
    | LiveViewGone(uid: int, answers: map<string, Answer>)
    | Republish(answers: map<string, Answer>)

  /** CheckLiveViewInfoModes: location, and no other mode that has a live view. */
  predicate OnlyLocationView(r: Record) {
    && LOCATION in r.work.modes && DATA_TRANSFER !in r.work.modes
    && AUDIO_RECORDING !in r.work.modes && VOIP !in r.work.modes
  }

  predicate Selected(job: Job, r: Record) {
    match job
    case ByUid(uid) => r.app.uid == uid
    case ByUidAndMode(uid, mode) => r.app.uid == uid && mode in r.work.modes
    case Dismissed(text, id, _) => RefersTo(r, text, id)
    case AppGone(uid) => r.app.uid == uid
    case Cleared(uid) => r.app.uid == uid
    case Accounts(active) => r.app.userId !in active
    case InnerMode(mode) => r.app.inner && mode in r.work.modes
    case Everything(_) => true
    case Audio(uid) => r.app.uid == uid && AUDIO_PLAYBACK in r.work.modes
    case StandbyActive(uid) => r.app.uid == uid && r.phase.standbySuspended
    case LiveViewShown(uid) => r.app.uid == uid && r.notice.id != NO_ID && OnlyLocationView(r)
    case LiveViewGone(uid, _) => r.app.uid == uid && r.notice.id == NO_ID
    case Republish(_) => !r.phase.suspended
  }

  function AnswerFor(answers: map<string, Answer>, k: string): Answer {
    if k in answers then answers[k] else Answer(Unavailable, Unavailable)
  }

  function Awake(r: Record): Record {
    r.(phase := r.phase.(suspended := false, standby := false))
  }

  function StandbyAwake(r: Record): Record {
    r.(phase := r.phase.(standby := true, standbySuspended := false))
  }

  function PutAwake(s: State, k: string, r: Record): State {
    Emit(Put(s, k, r), TaskActive, r)
  }

  /** A cancel event, the record leaves the table. */
  function Drop(s: State, k: string, r: Record, reason: int, notes: seq<Note>): State {
    Erase(Noted(Emit(s, TaskCancel, Because(r, reason)), notes), k)
  }

  /** Drop, then the application-stop check, then the write. */
  function DropAndTell(s: State, k: string, r: Record, reason: int, notes: seq<Note>): State {
    Save(TellAppStop(Drop(s, k, r, reason, notes), r.app.uid))
  }

  /** One round of the audio loop: a notice when nobody listens for suspension, otherwise a
      suspension the first time and a removal the second time. */
  function AudioNotice(s: State, k: string, r: Record): State {
    Noted(Put(s, k, r), MainNote(r)).(log := s.log + NotifyAudio(s.subs, r))
  }

  function AudioPaused(r: Record): Record {
    r.(phase := r.phase.(audioDetected := false, suspended := true, audioSuspends := 1,
                         suspendReason := AUDIO_SUSPEND_REASON))
  }

  function AudioPause(s: State, k: string, r: Record): State {
    Save(Emit(Noted(Put(s, k, r), MainNote(r)), TaskSuspend, r))
  }

  function AudioRound(s: State, k: string, r: Record): State {
    if !HasCallback(s.subs, r.app.uid, SuspendFlag) then
      AudioNotice(s, k, r.(phase := r.phase.(audioDetected := false)))
    else if r.phase.audioSuspends == 0 then AudioPause(s, k, AudioPaused(r))
    else Save(Drop(s, k, r, FREEZE_CANCEL, MainNote(r)))
  }

  function Round(s: State, k: string, r: Record, job: Job): State {
    match job
    case ByUid(_) => Save(Drop(s, k, r, FREEZE_CANCEL, MainNote(r) + SubNote(r)))
    case ByUidAndMode(_, _) => Save(Drop(s, k, r, FREEZE_CANCEL, MainNote(r) + SubNote(r)))
    case Dismissed(_, _, isSub) =>
      DropAndTell(s, k, r, REMOVE_NOTIFICATION_CANCEL, if isSub then MainNote(r) else SubNote(r))
    case AppGone(_) =>
      DropAndTell(s, k, r, SYSTEM_CANCEL, (if r.notice.id != NO_ID then MainNote(r) else []) + SubNote(r))
    case Cleared(_) => DropAndTell(s, k, r, SYSTEM_CANCEL, MainNote(r))
    case Accounts(_) => DropAndTell(s, k, r, SYSTEM_CANCEL, MainNote(r))
    case InnerMode(_) => DropAndTell(s, k, r, SYSTEM_CANCEL, SharedCancel(s.tasks - {k}, r))
    case Everything(_) => Drop(s, k, r, r.phase.reason, MainNote(r))
    case Audio(_) => AudioRound(s, k, r)
    case StandbyActive(_) =>
      Save(PutAwake(s, k, StandbyAwake(r)))
    case LiveViewShown(_) => Save(Noted(Put(s, k, NoNote(r)), MainNote(r)))
    case LiveViewGone(_, answers) => Save(Settle(s, k, Send(r, s.nextNote, AnswerFor(answers, k).main)))
    case Republish(answers) => Settle(s, k, Refresh(r, s.nextNote, AnswerFor(answers, k)))
  }

  function Visit(s: State, k: string, job: Job): State {
    if k in s.tasks && Selected(job, s.tasks[k]) then Round(s, k, s.tasks[k], job) else s
  }

  function Visits(s: State, order: seq<string>, job: Job): State {
    if order == [] then s else Visit(Visits(s, order[..|order| - 1], job), order[|order| - 1], job)
  }

  // ---------------------------------------------------------------- removal

  function TellAll(s: State, uids: seq<int>): State {
    if uids == [] then s else TellAppStop(TellAll(s, uids[..|uids| - 1]), uids[|uids| - 1])
  }

  /** A whole loop. RemoveContinuousTaskRecordByUid, RemoveContinuousTaskRecordByUidAndMode and the
      audio loop check for an application stop once, at the end; DumpCancelTask writes and checks at the end. */
  function Loop(s: State, job: Job, order: seq<string>): State {
    match job
    case ByUid(uid) => TellAppStop(Visits(s, order, job), uid)
    case ByUidAndMode(uid, _) => TellAppStop(Visits(s, order, job), uid)
    case Audio(uid) => TellAppStop(Visits(s, order, job), uid)
    case Everything(uids) => TellAll(Save(Visits(s, order, job)), uids)
    case _ => Visits(s, order, job)
  }

  function SetReason(s: State, k: string, reason: int): State {
    if k in s.tasks then Put(s, k, Because(s.tasks[k], reason)) else s
  }

  /** StopContinuousTaskByUser. */
  function Dismiss(s: State, k: string, isSub: bool, order: seq<string>): State {
    var s1 := SetReason(s, k, REMOVE_NOTIFICATION_CANCEL);
    if k !in s1.tasks || s1.tasks[k].notice.id == NO_ID then s1
    else Loop(s1, Dismissed(s1.tasks[k].notice.text, s1.tasks[k].notice.id, isSub), order)
  }

  /** StopBackgroundRunningByTask for the record found under `k`. */
  function StopAt(s: State, k: string, refused: set<Note>): Reply
    requires k in s.tasks
  {
    var r := s.tasks[k];
    var notes := SharedCancel(s.tasks - {k}, r);
    Reply(DropAndTell(s, k, r, r.phase.reason, notes), CancelStatus(notes, refused))
  }

  /** StopBackgroundRunningByTask. */
  function StopTask(s: State, taskId: int, order: seq<string>, refused: set<Note>): Reply {
    var k := First(s.tasks, order, ById(taskId));
    if k.None? || k.value !in s.tasks then Reply(s, AlreadyExists) else StopAt(s, k.value, refused)
  }

  predicate InContext(r: Record, uid: int, abilityName: string, abilityId: int) {
    r.app.uid == uid && r.app.abilityName == abilityName && r.app.abilityId == abilityId
  }

  /** The ids collected by the first loop of StopBackgroundRunningByContext. */
  function ContextIds(tasks: map<string, Record>, order: seq<string>, uid: int, name: string,
                      abilityId: int): seq<int> {
    if order == [] then []
    else
      var n := |order| - 1;
      ContextIds(tasks, order[..n], uid, name, abilityId)
      + (if order[n] in tasks && InContext(tasks[order[n]], uid, name, abilityId) then [tasks[order[n]].app.taskId]
         else [])
  }

  /** ... and its second loop, which ends at the first failing cancel. */
  function StopEach(s: State, ids: seq<int>, order: seq<string>, refused: set<Note>): Reply {
    if ids == [] then Reply(s, Ok)
    else
      var before := StopEach(s, ids[..|ids| - 1], order, refused);
      if before.status != Ok then before else StopTask(before.s, ids[|ids| - 1], order, refused)
  }

  function StopByContext(s: State, uid: int, name: string, abilityId: int, order: seq<string>,
                         refused: set<Note>): Reply {
    StopEach(s, ContextIds(s.tasks, order, uid, name, abilityId), order, refused)
  }

  /** StopBackgroundRunningInner: by task id, or every task of one ability. */
  function StopInner(s: State, uid: int, name: string, abilityId: int, taskId: int, order: seq<string>,
                     refused: set<Note>): Reply {
    if taskId != NO_ID then
      if First(s.tasks, order, ById(taskId)).None? then Reply(s, NotExist) else StopTask(s, taskId, order, refused)
    else if ContextIds(s.tasks, order, uid, name, abilityId) == [] then Reply(s, NotExist)
    else StopByContext(s, uid, name, abilityId, order, refused)
  }

  /** HandleStopContinuousTask for one key. */
  function StopByKey(s: State, k: string, order: seq<string>, refused: set<Note>): State {
    if k !in s.tasks then s
    else
      var s1 := SetReason(s, k, FREEZE_CANCEL);
      StopTask(s1, s1.tasks[k].app.taskId, order, refused).s
  }

  /** HandleStopContinuousTask: one mode, everything, or the task under one key. */
  function StopByType(s: State, uid: int, taskType: nat, k: string, order: seq<string>, refused: set<Note>): State {
    if taskType == DATA_TRANSFER then Loop(s, ByUidAndMode(uid, taskType), order)
    else if taskType == ALL_MODES then Loop(s, ByUid(uid), order)
    else StopByKey(s, k, order, refused)
  }

  /** DumpCancelTask for one key. */
  function DumpStop(s: State, k: string, order: seq<string>, refused: set<Note>): State {
    if k in s.tasks then StopTask(s, s.tasks[k].app.taskId, order, refused).s else s
  }

  // ---------------------------------------------------------------- suspend and activate

  function SuspendRecord(r: Record, reason: int): Record {
    r.(phase := r.phase.(suspended := true, standby := false, suspendReason := reason))
  }

  function StandbyRecord(r: Record, reason: int): Record {
    r.(phase := r.phase.(standby := true, standbySuspended := true, suspendReason := reason))
  }

  /** A suspend event for the record just stored, and the write. */
  function PutSuspended(s: State, k: string, r: Record): State {
    Save(Emit(Put(s, k, r), TaskSuspend, r))
  }

  /** HandleSuspendContinuousTask: the notifications of the record under `k` are cancelled even when
      it belongs to another application and is left running. */
  function SuspendAt(s: State, uid: int, reason: int, k: string): State {
    if k !in s.tasks then s
    else
      var r := s.tasks[k];
      var s1 := if r.app.uid == uid then PutSuspended(s, k, SuspendRecord(r, reason)) else s;
      TellAppStop(Noted(s1, MainNote(r) + SubNote(r)), uid)
  }

  /** HandleSuspendContinuousTaskByStandby. */
  function StandbySuspendAt(s: State, uid: int, reason: int, k: string): State {
    if k !in s.tasks || s.tasks[k].app.uid != uid
       || s.tasks[k].phase.suspended || s.tasks[k].phase.standbySuspended then s
    else PutSuspended(s, k, StandbyRecord(s.tasks[k], reason))
  }

  /** SuspendContinuousTask: what happens depends on whether the application listens. */
  function Suspend(s: State, uid: int, reason: int, k: string, standby: bool, order: seq<string>,
                   refused: set<Note>): State {
    if standby then if HasCallback(s.subs, uid, SuspendFlag) then StandbySuspendAt(s, uid, reason, k) else s
    else if HasCallback(s.subs, uid, SuspendFlag) then SuspendAt(s, uid, reason, k)
    else StopByKey(s, k, order, refused)
  }

  /** State of the reactivation loop: the last handled notification and the ids handled so far. */
  datatype Turn = Turn(s: State, text: string, id: int, seen: seq<int>)

  /** The branch that republishes and remembers the notification. */
  function Republished(t: Turn, k: string, r: Record, p: Posted): Turn {
    Turn(Save(Settle(Emit(t.s, TaskActive, r), k, p)), p.r.notice.text, p.r.notice.id, t.seen + [r.notice.id])
  }

  /** The branch that copies the remembered notification. */
  function Copied(t: Turn, k: string, r: Record): Turn {
    t.(s := Save(Emit(Put(t.s, k, WithNote(r, t.text, t.id)), TaskActive, r)))
  }

  function Reactivated(t: Turn, k: string, a: Answer): Turn
    requires k in t.s.tasks
  {
    var r := Awake(t.s.tasks[k]);
    if r.notice.id == NO_ID then t.(s := Save(PutAwake(t.s, k, r)))
    else if t.id == ILLEGAL_ID || r.notice.id !in t.seen then Republished(t, k, r, Refresh(r, t.s.nextNote, a))
    else Copied(t, k, r)
  }

  function Reactivate(t: Turn, k: string, uid: int, answers: map<string, Answer>): Turn {
    if k in t.s.tasks && t.s.tasks[k].app.uid == uid && t.s.tasks[k].phase.suspended
    then Reactivated(t, k, AnswerFor(answers, k)) else t
  }

  function Reactivations(s: State, order: seq<string>, uid: int, answers: map<string, Answer>): Turn {
    if order == [] then Turn(s, "default", ILLEGAL_ID, [])
    else Reactivate(Reactivations(s, order[..|order| - 1], uid, answers), order[|order| - 1], uid, answers)
  }

  /** HandleActiveContinuousTask. */
  function Activate(s: State, uid: int, order: seq<string>, answers: map<string, Answer>): State {
    Reactivations(s, order, uid, answers).s
  }

  /** ActiveContinuousTask. */
  function Active(s: State, uid: int, standby: bool, order: seq<string>, answers: map<string, Answer>): State {
    if standby then if HasCallback(s.subs, uid, ActiveFlag) then Loop(s, StandbyActive(uid), order) else s
    else Activate(s, uid, order, answers)
  }

  // ---------------------------------------------------------------- start

  /** What a caller asks for: an application through the service, or a system component. */
  datatype Request =
    | AppRequest(bundleName: string, abilityName: string, uid: int, pid: int, userId: int, modeId: nat,
                 batchApi: bool, modes: seq<nat>, subModes: seq<nat>, abilityId: int, newApi: bool,
                 combined: bool, mergeTaskId: int, byRequest: bool, appIndex: int, system: bool,
                 want: Option<WantAgentInfo>, progress: Option<ProgressInfo>)
    | InnerRequest(bundleName: string, abilityName: string, uid: int, pid: int, userId: int, modeId: nat,
                   innerNotify: bool, fromComponent: bool)

  function FirstOtherMode(modes: seq<nat>, default: nat): nat {
    if modes == [] then default
    else if modes[0] != DATA_TRANSFER then modes[0] else FirstOtherMode(modes[1..], default)
  }

  /** The record constructor and InitRecordParam, or StartBackgroundRunningForInner. */
  function NewRecord(q: Request): Record {
    match q
    case AppRequest(bundle, ability, uid, pid, userId, modeId, batch, modes, subModes, abilityId, newApi,
                    combined, mergeTaskId, byRequest, appIndex, system, want, progress) =>
      var main := if batch && modes != [] then FirstOtherMode(modes, modes[0]) else modeId;
      BLANK.(app := App(bundle, ability, userId, uid, pid, abilityId, appIndex, NO_ID, newApi, false, false, false,
                        system, byRequest, combined),
             work := Work(main, batch, if batch then modes else modes + [modeId], subModes, mergeTaskId, want,
                          progress))
    case InnerRequest(bundle, ability, uid, pid, userId, modeId, innerNotify, fromComponent) =>
      BLANK.(app := App(bundle, ability, userId, uid, pid, NO_ID, NO_ID, NO_ID, true, true, innerNotify, fromComponent,
                        false, false, false),
             work := BLANK.work.(modeId := modeId, modes := [modeId]))
  }

  /** Answers the start step gets: pre-launch state, applications reported in the foreground, modes
      declared by the ability, permission for the two special modes, and the publishing outcome. */
  datatype StartEnv = StartEnv(preLaunch: bool, reported: set<int>, configured: set<nat>, keeping: bool,
                               special: Status, answer: Answer)

  /** CheckAbilityTaskNum counts these. */
  function SameAbility(tasks: map<string, Record>, abilityId: int): set<string> {
    set k | k in tasks && tasks[k].app.byRequest && tasks[k].app.abilityId == abilityId
  }

  function AppliedModes(s: State, uid: int): seq<nat> {
    if uid in s.applied then s.applied[uid] else []
  }

  /** CheckApplyMode. */
  predicate AllIn(modes: seq<nat>, allowed: seq<nat>) {
    forall i :: 0 <= i < |modes| ==> modes[i] in allowed
  }

  /** AllowApplyContinuousTask. */
  function Allowed(s: State, r: Record, env: StartEnv): Status {
    if env.preLaunch then PreLaunchState
    else if !r.app.byRequest then Ok
    else if |SameAbility(s.tasks, r.app.abilityId)| >= ABILITY_TASK_MAX_NUM then TooManyTasks
    else if r.app.inner || r.app.uid in s.foreground then Ok
    else if AllIn(r.work.modes, AppliedModes(s, r.app.uid) + [AUDIO_PLAYBACK]) then Ok
    else if r.app.uid in env.reported then Ok
    else OnBackground
  }

  predicate IsAvMode(mode: nat) {
    mode == AUDIO_PLAYBACK || mode == AUDIO_RECORDING || mode == VOIP
  }

  /** CheckBgmodeType; `configured` holds the modes whose bit is set in the ability's declaration. */
  function CheckMode(configured: set<nat>, mode: nat, newApi: bool, r: Record, keeping: bool, special: Status): Status {
    if !newApi then if configured == {} then NoModeConfigured else Ok
    else if mode == WIFI_INTERACTION && !r.app.system then NotSystemApp
    else if mode == TASK_KEEPING && !keeping then KeepingRefused
    else if mode == SPECIAL_SCENARIO && special != Ok then special
    else if IsAvMode(mode) && r.app.byRequest && AV_PLAYBACK_AND_RECORD in configured then Ok
    else if mode == 0 || mode !in configured then InvalidMode
    else Ok
  }

  function CheckModes(configured: set<nat>, modes: seq<nat>, newApi: bool, r: Record, keeping: bool,
                      special: Status): Status {
    if modes == [] then Ok
    else
      var first := CheckMode(configured, modes[0], newApi, r, keeping, special);
      if first != Ok then first else CheckModes(configured, modes[1..], newApi, r, keeping, special)
  }

  function CheckStartModes(r: Record, env: StartEnv): Status {
    if r.app.inner then if r.work.modeId == 0 || r.work.modeId > BGMODE_NUMS then InvalidMode else Ok
    else CheckModes(env.configured, r.work.modes, r.app.newApi, r, env.keeping, env.special)
  }

  /** CheckModesSame. */
  predicate SameModes(a: seq<nat>, b: seq<nat>) {
    (set m | m in a) == (set m | m in b)
  }

  /** A target to share the notification of, or the reason why there is none. */
  datatype Merge = Separate | Share(k: string) | Refuse(status: Status)

  /** DetermineMatchCombinedTaskNotifacation. */
  function MatchMerge(tasks: map<string, Record>, r: Record, order: seq<string>): Merge {
    var k := First(tasks, order, ByIdAndUid(r.work.mergeTaskId, r.app.uid));
    if k.None? || k.value !in tasks then Refuse(TaskIdInvalid)
    else
      var t := tasks[k.value];
      if !t.app.combined then Refuse(TargetNotCombined)
      else if t.notice.id == NO_ID then Refuse(TargetHasNoNotification)
      else if !SameModes(t.work.modes, r.work.modes) || !SameModes(t.work.subModes, r.work.subModes) then
        Refuse(ModeMismatch)
      else Share(k.value)
  }

  /** CheckCombinedTaskNotification. */
  function CheckMerge(tasks: map<string, Record>, r: Record, order: seq<string>): Merge {
    if !r.app.byRequest then Separate
    else if r.app.combined && DATA_TRANSFER in r.work.modes then Refuse(DataTransferNotMerged)
    else if r.app.combined && SPECIAL_SCENARIO in r.work.modes then Refuse(SpecialNotMerged)
    else if r.work.mergeTaskId == NO_ID then Separate
    else if !r.app.combined then Refuse(CurrentNotCombined)
    else MatchMerge(tasks, r, order)
  }

  /** The new record shares the target's notification, the target is marked. */
  function MergeInto(r: Record, target: Record): Record {
    WithNote(r, target.notice.text, target.notice.id)
  }

  function MergeTarget(target: Record, r: Record): Record {
    target.(work := target.work.(mergeTaskId := r.work.mergeTaskId))
  }

  function Insert(s: State, r: Record): State {
    Save(Emit(Put(s, KeyOf(r), r), TaskStart, r))
  }

  /** StartBackgroundRunningSubmit. */
  function Submit(s: State, r: Record, env: StartEnv, order: seq<string>): Reply {
    var modes := CheckStartModes(r, env);
    if modes != Ok then Reply(s, modes)
    else match CheckMerge(s.tasks, r, order)
      case Refuse(status) => Reply(s, status)
      case Share(k) =>
        if k !in s.tasks then Reply(s, TaskIdInvalid)
        else
          Reply(Insert(Put(s, k, MergeTarget(s.tasks[k], r)), MergeInto(r, s.tasks[k])), Ok)
      case Separate =>
        if r.app.inner && !r.app.innerNotify then Reply(Insert(s, r), Ok)
        else
          var p := Refresh(r, s.nextNote, env.answer);
          var s1 := Noted(s, p.notes).(nextNote := p.next);
          if p.status != Ok then Reply(s1, p.status) else Reply(Insert(s1, p.r), Ok)
  }

  function WithTaskId(r: Record, taskId: int): Record {
    r.(app := r.app.(taskId := taskId))
  }

  /** StartBackgroundRunningInner. The id counter advances even when a later check fails. */
  function Start(s: State, q: Request, env: StartEnv, order: seq<string>): Reply {
    var r0 := NewRecord(q);
    if r0.app.uid in s.disabled then Reply(s, RequestsDisabled)
    else
      var allowed := Allowed(s, r0, env);
      if allowed != Ok then Reply(s, allowed)
      else
        var s1, r := s.(nextTask := s.nextTask + 1), WithTaskId(r0, s.nextTask + 1);
        if KeyOf(r) in s1.tasks then Reply(s1, AlreadyExists) else Submit(s1, r, env, order)
  }

  // ---------------------------------------------------------------- update

  datatype UpdateParam = UpdateParam(taskId: int, modeId: nat, modes: seq<nat>, subModes: seq<nat>, batchApi: bool,
                                     combined: bool, progress: Option<ProgressInfo>, want: Option<WantAgentInfo>)

  /** `named`: the application's label could be read. `refreshed`: republishing an existing
      notification succeeded. */
  datatype UpdateEnv = UpdateEnv(configured: set<nat>, keeping: bool, special: Status, named: bool,
                                 refreshed: bool, verdict: Verdict, answers: map<string, Answer>)

  function AfterUpdate(s: State, k: string, order: seq<string>, env: UpdateEnv): State
    requires k in s.tasks
  {
    var s1 := if s.tasks[k].phase.suspended then Activate(s, s.tasks[k].app.uid, order, env.answers) else s;
    if k in s1.tasks then Save(Emit(s1, TaskUpdate, s1.tasks[k])) else s1
  }

  /** UpdateTaskNotification: the record as changed, and whether the update goes on. */
  function UpdateNotification(r: Record, next: int, p: UpdateParam, env: UpdateEnv): Posted {
    if !env.named then Posted(r, next, [], NotificationUnverified)
    else
      var w := if p.want.Some? then r.(work := r.work.(want := p.want)) else r;
      if r.app.combined then
        Posted(w, next, [], if !SameModes(r.work.modes, p.modes) then UpdateModeMismatch
                            else if env.refreshed then Ok else NotificationRefused)
      else
        var u := w.(work := w.work.(modeId := p.modeId, modes := p.modes, subModes := p.subModes));
        if env.verdict.EmptyText? then Posted(u, next, [], Ok)
        else if u.notice.id == NO_ID then Send(u, next, env.verdict)
        else Posted(u, next, [], if env.refreshed then Ok else NotificationRefused)
  }

  /** UpdateBackgroundRunningByTaskIdInner. The task is found by id alone. */
  function UpdateById(s: State, caller: int, p: UpdateParam, env: UpdateEnv, order: seq<string>): Reply {
    if caller in s.disabled then Reply(s, RequestsDisabled)
    else if p.taskId < 0 then Reply(s, TaskIdInvalid)
    else
      var found := First(s.tasks, order, ByIdAndRequest(p.taskId));
      if found.None? || found.value !in s.tasks then Reply(s, NotExist)
      else
        var k := found.value;
        var r := s.tasks[k];
        var checked := CheckModes(env.configured, p.modes, true, r, env.keeping, env.special);
        if checked != Ok then Reply(s, checked)
        else if DATA_TRANSFER in r.work.modes || DATA_TRANSFER in p.modes then Reply(s, DataTransferNotUpdated)
        else if p.progress.Some? then Reply(s, ProgressNotAllowed)
        else if SPECIAL_SCENARIO in r.work.modes && p.combined then Reply(s, SpecialNotMerged)
        else
          var posted := UpdateNotification(r, s.nextNote, p, env);
          var s1 := Settle(s, k, posted);
          if posted.status != Ok then Reply(s1, posted.status) else Reply(AfterUpdate(s1, k, order, env), Ok)
  }

  /** Submodes are dropped unless the Bluetooth mode stays. */
  function LegacySubModes(r: Record, p: UpdateParam): Record {
    if BLUETOOTH_INTERACTION in p.modes then r else r.(work := r.work.(subModes := []))
  }

  /** The new modes are stored; the notification is untouched when data transfer stays. */
  function LegacyPosted(r: Record, next: int, p: UpdateParam, v: Verdict): Posted {
    var r1 := LegacySubModes(r, p);
    var r2 := r1.(work := r1.work.(modes := p.modes, batchApi := p.batchApi));
    if DATA_TRANSFER in r.work.modes && DATA_TRANSFER in p.modes then Posted(r2, next, [], Ok) else Send(r2, next, v)
  }

  /** UpdateBackgroundRunningInner. The key is built from the caller's uid and the ability it names. */
  function UpdateByKey(s: State, k: string, p: UpdateParam, env: UpdateEnv, order: seq<string>): Reply {
    if k !in s.tasks then Reply(s, NotExist)
    else
      var r := s.tasks[k];
      if r.app.uid in s.disabled then Reply(s, RequestsDisabled)
      else if SameModes(r.work.modes, p.modes) then Reply(s, Ok)
      else
        var r1 := LegacySubModes(r, p);
        var checked := CheckModes(env.configured, p.modes, true, r1, env.keeping, env.special);
        if checked != Ok then Reply(Put(s, k, r1), checked)
        else
          var posted := LegacyPosted(r, s.nextNote, p, env.verdict);
          var s1 := Settle(s, k, posted);
          if posted.status != Ok then Reply(s1, posted.status) else Reply(AfterUpdate(s1, k, order, env), Ok)
  }

  /** UpdateDataTransferProgressInner. */
  function UpdateProgress(s: State, uid: int, taskId: int, progress: Option<ProgressInfo>, v: Verdict,
                          order: seq<string>): Reply {
    if taskId < 0 then Reply(s, TaskIdInvalid)
    else if progress.None? then Reply(s, ProgressNotAllowed)
    else
      var found := First(s.tasks, order, ByIdAndUid(taskId, uid));
      if found.None? || found.value !in s.tasks then Reply(s, NotExist)
      else
        var k := found.value;
        if DATA_TRANSFER !in s.tasks[k].work.modes then Reply(s, NotDataTransfer)
        else
          var posted := Send(s.tasks[k].(work := s.tasks[k].work.(progress := progress)), s.nextNote, v);
          var s1 := Settle(s, k, posted);
          if posted.status != Ok then Reply(s1, posted.status) else Reply(Save(s1), Ok)
  }

  // ---------------------------------------------------------------- foreground, subscribers, switches

  function AddModes(acc: seq<nat>, modes: seq<nat>): seq<nat> {
    if modes == [] then acc
    else
      var before := AddModes(acc, modes[..|modes| - 1]);
      if modes[|modes| - 1] in before then before else before + [modes[|modes| - 1]]
  }

  /** The union collected by OnAppStateChanged. */
  function CollectModes(tasks: map<string, Record>, order: seq<string>, uid: int): seq<nat> {
    if order == [] then []
    else
      var n := |order| - 1;
      var before := CollectModes(tasks, order[..n], uid);
      if order[n] in tasks && tasks[order[n]].app.uid == uid then AddModes(before, tasks[order[n]].work.modes)
      else before
  }

  /** OnAppStateChanged. */
  function AppState(s: State, uid: int, toForeground: bool, order: seq<string>): State {
    if toForeground then s.(foreground := s.foreground + {uid})
    else
      s.(foreground := s.foreground - {uid},
         applied := if s.tasks == map[] then s.applied - {uid}
                    else s.applied[uid := CollectModes(s.tasks, order, uid)])
  }

  /** GetContinuousTaskAppsInner without suspended tasks, reduced to the task ids. */
  function Snapshot(tasks: map<string, Record>): set<int> {
    set k | k in tasks && !tasks[k].phase.suspended :: tasks[k].app.taskId
  }

  predicate Known(subs: seq<Subscriber>, id: int) {
    exists i :: 0 <= i < |subs| && subs[i].id == id
  }

  /** A second subscription only widens the flags of an application. */
  function Widen(subs: seq<Subscriber>, sub: Subscriber): seq<Subscriber> {
    seq(|subs|, i requires 0 <= i < |subs| =>
      if subs[i].id == sub.id && subs[i].hap then subs[i].(flags := subs[i].flags + sub.flags) else subs[i])
  }

  /** AddSubscriberInner, followed by the subscriber's reading of the running tasks. */
  function Subscribe(s: State, sub: Subscriber): State {
    if Known(s.subs, sub.id) then s.(subs := Widen(s.subs, sub))
    else s.(subs := s.subs + [sub], log := s.log + [Joined(sub.id, Snapshot(s.tasks))])
  }

  function Without(subs: seq<Subscriber>, id: int): seq<Subscriber> {
    if subs == [] then []
    else
      var n := |subs| - 1;
      Without(subs[..n], id) + if subs[n].id == id then [] else [subs[n]]
  }

  function Narrow(subs: seq<Subscriber>, id: int, flags: set<Flag>): seq<Subscriber> {
    seq(|subs|, i requires 0 <= i < |subs| =>
      if subs[i].id == id then subs[i].(flags := subs[i].flags - flags) else subs[i])
  }

  predicate StillNeeded(subs: seq<Subscriber>, id: int, flags: set<Flag>) {
    exists i :: 0 <= i < |subs| && subs[i].id == id && subs[i].hap && subs[i].flags - flags != {}
  }

  /** RemoveSubscriberInner: an application stays while it has flags left. */
  function Unsubscribe(s: State, id: int, flags: set<Flag>): State {
    s.(subs := if StillNeeded(s.subs, id, flags) then Narrow(s.subs, id, flags) else Without(s.subs, id))
  }

  /** The AVSession branch of the notification: AVSessionNotifyUpdateNotificationInner. */
  function AvSession(s: State, uid: int, published: bool, v: Verdict, order: seq<string>): State {
    var found := First(s.tasks, order, OfUid(uid));
    if found.None? || found.value !in s.tasks then s
    else
      var k := found.value;
      var r := s.tasks[k];
      if !r.phase.audioDetected then Put(s, k, r.(phase := r.phase.(audioDetected := true)))
      else if !published && AVSESSION_SUBMODE in r.work.subModes then s
      else if !published && r.work.modes == [AUDIO_PLAYBACK] then Save(Settle(s, k, Send(r, s.nextNote, v)))
      else if DATA_TRANSFER in r.work.modes then s
      else if v.EmptyText? then Save(Noted(Put(s, k, NoNote(r)), MainNote(r)))
      else Save(s)
  }

  // ---------------------------------------------------------------- restart

  /** One round of CheckPersistenceData. */
  function RestoreRound(s: State, k: string, alive: set<int>, answers: map<string, Answer>): State {
    if k !in s.tasks then s
    else
      var r := s.tasks[k];
      if r.app.pid !in alive then Noted(Erase(s, k), SharedCancel(s.tasks - {k}, r))
      else if r.notice.id == NO_ID then s
      else Settle(s, k, Refresh(r, s.nextNote, AnswerFor(answers, k)))
  }

  function RestoreRounds(s: State, order: seq<string>, alive: set<int>, answers: map<string, Answer>): State {
    if order == [] then s
    else RestoreRound(RestoreRounds(s, order[..|order| - 1], alive, answers), order[|order| - 1], alive, answers)
  }

  /** The maxima are taken over all records read, those of dead processes included. */
  function MaxTaskId(tasks: map<string, Record>, order: seq<string>): int {
    if order == [] then -1
    else
      var before, k := MaxTaskId(tasks, order[..|order| - 1]), order[|order| - 1];
      if k in tasks && tasks[k].app.taskId > before then tasks[k].app.taskId else before
  }

  function MaxNoteId(tasks: map<string, Record>, order: seq<string>): int {
    if order == [] then -1
    else
      var before, k := MaxNoteId(tasks, order[..|order| - 1]), order[|order| - 1];
      if k in tasks && tasks[k].notice.id > before then tasks[k].notice.id else before
  }

  function Rebuild(tasks: map<string, Record>, order: seq<string>): map<int, seq<nat>> {
    if order == [] then map[]
    else
      var before, k := Rebuild(tasks, order[..|order| - 1]), order[|order| - 1];
      if k !in tasks then before
      else
        var r := tasks[k];
        before[r.app.uid := if r.app.uid in before then AddModes(before[r.app.uid], r.work.modes) else r.work.modes]
  }

  /** RestoreApplyRecord. */
  function RestoreApplied(s: State, reported: Option<set<int>>, order: seq<string>): State {
    if reported.None? then s.(foreground := {})
    else s.(foreground := reported.value, applied := Rebuild(s.tasks, order))
  }

  /** A new process: everything in memory starts from its initial value and the file is read. */
  function Fresh(s: State): State {
    INIT.(tasks := ReadTable(s.disk), disk := s.disk, log := s.log, notes := s.notes)
  }

  /** HandlePersistenceData in a new process. Without a process list it ends before the counters are set. */
  function Restart(s: State, alive: Option<set<int>>, reported: Option<set<int>>, order: seq<string>,
                   answers: map<string, Answer>): State {
    var s0 := Fresh(s);
    if alive.None? then s0
    else
      var s1 := RestoreRounds(s0, order, alive.value, answers);
      var t, n := MaxTaskId(s0.tasks, order), MaxNoteId(s0.tasks, order);
      var s2 := s1.(nextTask := if t != -1 then t else s1.nextTask, nextNote := if n != -1 then n else s1.nextNote);
      RestoreApplied(Save(s2), reported, order)
  }

  // ---------------------------------------------------------------- runs

  datatype Step =
    | StartStep(q: Request, startEnv: StartEnv, order: seq<string>)
    | UpdateByIdStep(caller: int, p: UpdateParam, env: UpdateEnv, order: seq<string>)
    | UpdateByKeyStep(k: string, p: UpdateParam, env: UpdateEnv, order: seq<string>)
    | ProgressStep(uid: int, taskId: int, progress: Option<ProgressInfo>, v: Verdict, order: seq<string>)
    | StopStep(uid: int, name: string, abilityId: int, taskId: int, order: seq<string>, refused: set<Note>)
    | AbilityGoneStep(uid: int, name: string, abilityId: int, order: seq<string>, refused: set<Note>)
    | StopByKeyStep(k: string, order: seq<string>, refused: set<Note>)
    | LoopStep(job: Job, order: seq<string>)
    | DismissStep(k: string, isSub: bool, order: seq<string>)
    | SuspendStep(uid: int, reason: int, k: string, standby: bool, order: seq<string>, refused: set<Note>)
    | ActiveStep(uid: int, standby: bool, order: seq<string>, answers: map<string, Answer>)
    | AvSessionStep(uid: int, published: bool, v: Verdict, order: seq<string>)
    | AppStateStep(uid: int, toForeground: bool, order: seq<string>)
    | SubscribeStep(sub: Subscriber)
    | UnsubscribeStep(id: int, flags: set<Flag>)
    | SubscriberDiedStep(id: int)
    | EnableStep(uid: int, enable: bool)
    | BannerStep
    | RestartStep(alive: Option<set<int>>, reported: Option<set<int>>, order: seq<string>, answers: map<string, Answer>)

  function Apply(s: State, step: Step): State {
    match step
    case StartStep(q, env, order) => Start(s, q, env, order).s
    case UpdateByIdStep(caller, p, env, order) => UpdateById(s, caller, p, env, order).s
    case UpdateByKeyStep(k, p, env, order) => UpdateByKey(s, k, p, env, order).s
    case ProgressStep(uid, taskId, progress, v, order) => UpdateProgress(s, uid, taskId, progress, v, order).s
    case StopStep(uid, name, abilityId, taskId, order, refused) =>
      StopInner(s, uid, name, abilityId, taskId, order, refused).s
    case AbilityGoneStep(uid, name, abilityId, order, refused) =>
      StopByContext(s, uid, name, abilityId, order, refused).s
    case StopByKeyStep(k, order, refused) => StopByKey(s, k, order, refused)
    case LoopStep(job, order) => Loop(s, job, order)
    case DismissStep(k, isSub, order) => Dismiss(s, k, isSub, order)
    case SuspendStep(uid, reason, k, standby, order, refused) => Suspend(s, uid, reason, k, standby, order, refused)
    case ActiveStep(uid, standby, order, answers) => Active(s, uid, standby, order, answers)
    case AvSessionStep(uid, published, v, order) => AvSession(s, uid, published, v, order)
    case AppStateStep(uid, toForeground, order) => AppState(s, uid, toForeground, order)
    case SubscribeStep(sub) => Subscribe(s, sub)
    case UnsubscribeStep(id, flags) => Unsubscribe(s, id, flags)
    case SubscriberDiedStep(id) => s.(subs := Without(s.subs, id))
    case EnableStep(uid, enable) => s.(disabled := if enable then s.disabled - {uid} else s.disabled + {uid})
    case BannerStep => s.(nextNote := s.nextNote + 1)
    case RestartStep(alive, reported, order, answers) => Restart(s, alive, reported, order, answers)
  }

  function Run(s: State, steps: seq<Step>): State {
    if steps == [] then s else Apply(Run(s, steps[..|steps| - 1]), steps[|steps| - 1])
  }

  /** `order` lists the keys of the table, each once: a possible walk over the unordered map. */
  ghost predicate IsWalk(order: seq<string>, tasks: map<string, Record>) {
    && (forall k :: k in tasks <==> k in order)
    && (forall i, j :: 0 <= i < j < |order| ==> order[i] != order[j])
  }
}
