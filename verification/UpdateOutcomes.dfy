/** What an update answers, what it stores, and what it leaves alone, in the fields of the records: updates by task id
    and by ability, progress updates, and the change of an AVSession. */
module UpdateOutcomes {
  import opened Wrappers
  import opened TaskRecord
  import opened Subscribers
  import opened TaskTable
  import opened Invariants
  import opened Reachability
  import opened Recovery
  import opened Reactivation
  import opened ModeChecks
  import opened Publishing
  import opened Rules

  /** The same modes, in whatever order and number. */
  ghost predicate SameSet(a: seq<nat>, b: seq<nat>) {
    forall m :: m in a <==> m in b
  }

  lemma SameModesIs(a: seq<nat>, b: seq<nat>)
    ensures SameModes(a, b) <==> SameSet(a, b)
  {
    var x, y := set m | m in a, set m | m in b;
    assert forall m :: m in x <==> m in a;
    assert forall m :: m in y <==> m in b;
  }

  /** The other tasks are the same tasks doing the same work; without a reactivation they are as they were. */
  ghost predicate OthersKept(t: Table, t': Table, k: string, awake: bool) {
    && t'.Keys == t.Keys
    && forall j :: j in t && j != k ==>
         t'[j].app == t[j].app && t'[j].work == t[j].work && (awake ==> t'[j] == t[j])
  }

  /** An accepted update is announced and written. */
  ghost predicate IsAnnounced(s: State, s': State, k: string) {
    k in s'.tasks && s'.disk == WriteTable(s'.tasks) && s'.log == s.log + Notify(s.subs, TaskUpdate, s'.tasks[k])
  }

  ghost predicate Unannounced(s: State, s': State) {
    s'.disk == s.disk && s'.log == s.log
  }

  /** How an update goes on once the record `p.r` is stored, for a running task and for a suspended one. */
  lemma AfterUpdateAwake(s: State, k: string, p: Posted, order: seq<string>, env: UpdateEnv)
    requires k in s.tasks && !p.r.phase.suspended
    ensures var s1 := Settle(s, k, p);
            k in s1.tasks && AfterUpdate(s1, k, order, env)
                             == s1.(log := s.log + Notify(s.subs, TaskUpdate, p.r), disk := WriteTable(s1.tasks))
  {
    hide Activate, Notify, WriteTable;
  }

  lemma AfterUpdateAsleep(s: State, k: string, order: seq<string>, env: UpdateEnv)
    requires k in s.tasks && s.tasks[k].phase.suspended
    ensures var s' := AfterUpdate(s, k, order, env);
            && k in s'.tasks && s'.tasks[k].app == s.tasks[k].app && s'.tasks[k].work == s.tasks[k].work
            && OthersKept(s.tasks, s'.tasks, k, false) && s'.disk == WriteTable(s'.tasks)
            && (k in order ==> !s'.tasks[k].phase.suspended)
  {
    hide Reactivations, Notify, WriteTable;
    ReactivationsProgress(s, order, s.tasks[k].app.uid, env.answers);
  }

  lemma AfterUpdateIs(s: State, k: string, p: Posted, order: seq<string>, env: UpdateEnv)
    requires k in s.tasks && p.r.app == s.tasks[k].app && p.r.phase == s.tasks[k].phase
    ensures var s1, s' := Settle(s, k, p), AfterUpdate(Settle(s, k, p), k, order, env);
            && k in s'.tasks && s'.tasks[k].app == p.r.app && s'.tasks[k].work == p.r.work
            && OthersKept(s.tasks, s'.tasks, k, !p.r.phase.suspended) && s'.disk == WriteTable(s'.tasks)
            && (!p.r.phase.suspended ==>
                  s' == s1.(log := s.log + Notify(s.subs, TaskUpdate, p.r), disk := WriteTable(s1.tasks)))
            && (p.r.phase.suspended && k in order ==> !s'.tasks[k].phase.suspended)
  {
    hide AfterUpdate, Notify, WriteTable;
    if p.r.phase.suspended {
      AfterUpdateAsleep(Settle(s, k, p), k, order, env);
    } else {
      AfterUpdateAwake(s, k, p, order, env);
    }
  }

  // ---------------------------------------------------------------- update by task id

  /** A combined task keeps what it does; another one takes it all from the request. The want agent is replaced when
      there is a new one. */
  function WorkById(r: Record, p: UpdateParam): Work {
    var want := if p.want.Some? then p.want else r.work.want;
    if r.app.combined then
      Work(r.work.modeId, r.work.batchApi, r.work.modes, r.work.subModes, r.work.mergeTaskId, want, r.work.progress)
    else Work(p.modeId, r.work.batchApi, p.modes, p.subModes, r.work.mergeTaskId, want, r.work.progress)
  }

  /** The answer once the request has passed the checks. */
  ghost predicate AnswersById(status: Status, r: Record, p: UpdateParam, env: UpdateEnv) {
    if r.app.combined then
      status == if !SameSet(r.work.modes, p.modes) then UpdateModeMismatch
                else if env.refreshed then Ok else NotificationRefused
    else if env.verdict.EmptyText? then status == Ok
    else if r.notice.id != -1 then status == if env.refreshed then Ok else NotificationRefused
    else if env.verdict.Unavailable? then status == NotificationUnverified
    else status == if env.verdict.Rejected? then NotificationRefused else Ok
  }

  /** What is stored, whatever the answer: the work; and, for a task that shows no notification, what publishing makes
      of it. */
  ghost predicate StoredById(s: State, s': State, k: string, p: UpdateParam, env: UpdateEnv)
    requires k in s.tasks
  {
    var r := s.tasks[k];
    && k in s'.tasks && s'.tasks[k].app == r.app && s'.tasks[k].work == WorkById(r, p)
    && OthersKept(s.tasks, s'.tasks, k, !r.phase.suspended)
    && (!r.phase.suspended ==>
          if r.app.combined || r.notice.id != -1 || env.verdict.EmptyText? then
            s'.tasks[k] == r.(work := WorkById(r, p)) && s'.nextNote == s.nextNote && s'.notes == s.notes
          else
            && |s.notes| <= |s'.notes| && s'.notes[..|s.notes|] == s.notes
            && exists status ::
                 IsSent(r.(work := WorkById(r, p)), s.nextNote, env.verdict,
                        Posted(s'.tasks[k], s'.nextNote, s'.notes[|s.notes|..], status)))
  }

  lemma NotificationById(r: Record, next: int, p: UpdateParam, env: UpdateEnv)
    requires env.named
    ensures var u := UpdateNotification(r, next, p, env);
            && u.r.app == r.app && u.r.phase == r.phase && u.r.work == WorkById(r, p)
            && AnswersById(u.status, r, p, env)
            && if r.app.combined || r.notice.id != -1 || env.verdict.EmptyText?
               then u.r == r.(work := WorkById(r, p)) && u.next == next && u.notes == []
               else IsSent(r.(work := WorkById(r, p)), next, env.verdict, u)
  {
    hide Send, OwnLabel, SameModes, SameSet;
    SameModesIs(r.work.modes, p.modes);
    var u := r.(work := WorkById(r, p));
    SendIs(u, next, env.verdict);
  }

  /** The answer and the effect of an update by task id: who may not, which check stops it with which error, what it
      stores otherwise. */
  lemma UpdateByIdOutcome(s: State, caller: int, p: UpdateParam, env: UpdateEnv, order: seq<string>, k: string)
    requires FreshIds(s.tasks, s.nextTask) && k in order && k in s.tasks
    requires s.tasks[k].app.taskId == p.taskId && s.tasks[k].app.byRequest
    ensures var r, reply := s.tasks[k], UpdateById(s, caller, p, env, order);
            if caller in s.disabled then reply == Reply(s, RequestsDisabled)
            else if !AllPass(p.modes, r.app, env.configured, env.keeping, env.special) then
              reply.s == s && IsJudged(reply.status, p.modes, r.app, env.configured, env.keeping, env.special)
            else if 1 in r.work.modes || 1 in p.modes then reply == Reply(s, DataTransferNotUpdated)
            else if p.progress.Some? then reply == Reply(s, ProgressNotAllowed)
            else if 13 in r.work.modes && p.combined then reply == Reply(s, SpecialNotMerged)
            else if !env.named then reply == Reply(s, NotificationUnverified)
            else
              && AnswersById(reply.status, r, p, env) && StoredById(s, reply.s, k, p, env)
              && if reply.status != Ok then Unannounced(s, reply.s)
                 else (r.phase.suspended || IsAnnounced(s, reply.s, k)) && reply.s.disk == WriteTable(reply.s.tasks)
  {
    hide FreshIds, First, CheckModes, AllPass, IsJudged, UpdateNotification, AfterUpdate, WorkById, AnswersById, IsSent,
      Notify, WriteTable;
    var r := s.tasks[k];
    FirstIs(s.tasks, order, ByIdAndRequest(p.taskId), k, s.nextTask);
    PositiveId(s, k);
    CheckModesJudged(env.configured, p.modes, r, env.keeping, env.special);
    var u := UpdateNotification(r, s.nextNote, p, env);
    if env.named {
      NotificationById(r, s.nextNote, p, env);
      AfterUpdateIs(s, k, u, order, env);
      NotesSplit(s.notes, u.notes);
    } else {
      Unnamed(s, k, p, env);
    }
  }

  lemma PositiveId(s: State, k: string)
    requires FreshIds(s.tasks, s.nextTask) && k in s.tasks
    ensures s.tasks[k].app.taskId >= 0
  {
  }

  lemma NotesSplit(a: seq<Note>, b: seq<Note>)
    ensures (a + b)[..|a|] == a && (a + b)[|a|..] == b
  {
  }

  lemma Unnamed(s: State, k: string, p: UpdateParam, env: UpdateEnv)
    requires k in s.tasks && !env.named
    ensures var same := Posted(s.tasks[k], s.nextNote, [], NotificationUnverified);
            UpdateNotification(s.tasks[k], s.nextNote, p, env) == same && Settle(s, k, same) == s
  {
    assert s.tasks[k := s.tasks[k]] == s.tasks;
    assert s.notes + [] == s.notes;
  }

  /** No request-object task has this id. */
  lemma UpdateByIdMissing(s: State, caller: int, p: UpdateParam, env: UpdateEnv, order: seq<string>)
    requires forall k :: k in s.tasks && s.tasks[k].app.byRequest ==> s.tasks[k].app.taskId != p.taskId
    ensures UpdateById(s, caller, p, env, order)
         == Reply(s, if caller in s.disabled then RequestsDisabled
                     else if p.taskId < 0 then TaskIdInvalid else NotExist)
  {
    hide First;
    FirstFinds(s.tasks, order, ByIdAndRequest(p.taskId));
  }

  // ---------------------------------------------------------------- update by ability

  /** Submodes stay only with the Bluetooth mode. */
  function SubModesLeft(r: Record, p: UpdateParam): seq<nat> {
    if 5 in p.modes then r.work.subModes else []
  }

  function WorkByKey(r: Record, p: UpdateParam): Work {
    Work(r.work.modeId, p.batchApi, p.modes, SubModesLeft(r, p), r.work.mergeTaskId, r.work.want, r.work.progress)
  }

  /** Publishing, or nothing when data transfer stays. */
  ghost predicate PostedByKey(r: Record, next: int, p: UpdateParam, v: Verdict, posted: Posted) {
    var u := r.(work := WorkByKey(r, p));
    if 1 in r.work.modes && 1 in p.modes then posted == Posted(u, next, [], Ok) else IsSent(u, next, v, posted)
  }

  /** The record `u.r`, which does this work, is stored whatever the service answers; a suspended application is
      reactivated, and the update announced and written, when it accepts. */
  ghost predicate IsStored(s: State, reply: Reply, k: string, u: Posted, work: Work)
    requires k in s.tasks
  {
    var r := s.tasks[k];
    && reply.status == u.status && k in reply.s.tasks && reply.s.tasks[k].app == r.app && reply.s.tasks[k].work == work
    && OthersKept(s.tasks, reply.s.tasks, k, !r.phase.suspended || u.status != Ok)
    && (!r.phase.suspended || u.status != Ok ==>
          reply.s.tasks[k] == u.r && reply.s.nextNote == u.next && reply.s.notes == s.notes + u.notes)
    && if u.status != Ok then Unannounced(s, reply.s)
       else (r.phase.suspended || IsAnnounced(s, reply.s, k)) && reply.s.disk == WriteTable(reply.s.tasks)
  }

  lemma LegacyPostedIs(r: Record, next: int, p: UpdateParam, v: Verdict)
    ensures PostedByKey(r, next, p, v, LegacyPosted(r, next, p, v))
    ensures LegacySubModes(r, p) == r.(work := r.work.(subModes := SubModesLeft(r, p)))
  {
    hide Send, IsSent;
    SendIs(r.(work := WorkByKey(r, p)), next, v);
  }

  /** The answer and the effect of an update by ability. The submodes go before the modes are checked; once they have
      passed, the work is stored whatever the service answers. */
  lemma UpdateByKeyOutcome(s: State, k: string, p: UpdateParam, env: UpdateEnv, order: seq<string>)
    requires k in s.tasks
    ensures var r, reply := s.tasks[k], UpdateByKey(s, k, p, env, order);
            if r.app.uid in s.disabled then reply == Reply(s, RequestsDisabled)
            else if SameSet(r.work.modes, p.modes) then reply == Reply(s, Ok)
            else if !AllPass(p.modes, r.app, env.configured, env.keeping, env.special) then
              && reply.s == s.(tasks := s.tasks[k := r.(work := r.work.(subModes := SubModesLeft(r, p)))])
              && IsJudged(reply.status, p.modes, r.app, env.configured, env.keeping, env.special)
            else exists u :: PostedByKey(r, s.nextNote, p, env.verdict, u) && IsStored(s, reply, k, u, WorkByKey(r, p))
  {
    hide CheckModes, AllPass, IsJudged, LegacyPosted, LegacySubModes, AfterUpdate, WorkByKey, IsSent, IsStored,
      SameModes, SameSet, PostedByKey;
    var r := s.tasks[k];
    SameModesIs(r.work.modes, p.modes);
    LegacyPostedIs(r, s.nextNote, p, env.verdict);
    CheckModesJudged(env.configured, p.modes, LegacySubModes(r, p), env.keeping, env.special);
    var u := LegacyPosted(r, s.nextNote, p, env.verdict);
    PostedKeeps(r, s.nextNote, p, env.verdict, u);
    StoredIs(s, k, u, order, env, WorkByKey(r, p));
    assert PostedByKey(r, s.nextNote, p, env.verdict, u);
  }

  lemma StoredIs(s: State, k: string, u: Posted, order: seq<string>, env: UpdateEnv, work: Work)
    requires k in s.tasks && u.r.app == s.tasks[k].app && u.r.phase == s.tasks[k].phase && u.r.work == work
    ensures var s1 := Settle(s, k, u);
            && k in s1.tasks
            && var s' := if u.status != Ok then s1 else AfterUpdate(s1, k, order, env);
               IsStored(s, Reply(s', u.status), k, u, work)
  {
    hide AfterUpdate, Notify, WriteTable;
    AfterUpdateIs(s, k, u, order, env);
  }

  lemma PostedKeeps(r: Record, next: int, p: UpdateParam, v: Verdict, posted: Posted)
    requires PostedByKey(r, next, p, v, posted)
    ensures posted.r.app == r.app && posted.r.phase == r.phase && posted.r.work == WorkByKey(r, p)
  {
    hide OwnLabel;
  }

  lemma UpdateByKeyMissing(s: State, k: string, p: UpdateParam, env: UpdateEnv, order: seq<string>)
    requires k !in s.tasks
    ensures UpdateByKey(s, k, p, env, order) == Reply(s, NotExist)
  {
  }

  // ---------------------------------------------------------------- progress

  /** A progress update of a task of the application that transfers data: the progress is stored whatever the service
      answers, and written when it accepts. Nobody is told. */
  lemma ProgressOutcome(s: State, uid: int, taskId: int, progress: Option<ProgressInfo>, v: Verdict,
                        order: seq<string>, k: string)
    requires FreshIds(s.tasks, s.nextTask) && k in order && k in s.tasks
    requires s.tasks[k].app.taskId == taskId && s.tasks[k].app.uid == uid
    ensures var r, reply := s.tasks[k], UpdateProgress(s, uid, taskId, progress, v, order);
            if progress.None? then reply == Reply(s, ProgressNotAllowed)
            else if 1 !in r.work.modes then reply == Reply(s, NotDataTransfer)
            else
              exists u ::
                && IsSent(r.(work := r.work.(progress := progress)), s.nextNote, v, u) && reply.status == u.status
                && reply.s == s.(tasks := s.tasks[k := u.r], nextNote := u.next, notes := s.notes + u.notes,
                                 disk := if u.status == Ok then WriteTable(s.tasks[k := u.r]) else s.disk)
  {
    hide FreshIds, First, Send, IsSent, WriteTable;
    var r := s.tasks[k];
    FirstIs(s.tasks, order, ByIdAndUid(taskId, uid), k, s.nextTask);
    PositiveId(s, k);
    var u := r.(work := r.work.(progress := progress));
    SendIs(u, s.nextNote, v);
    assert IsSent(u, s.nextNote, v, Send(u, s.nextNote, v));
  }

  /** No task of the application has this id. */
  lemma ProgressMissing(s: State, uid: int, taskId: int, progress: Option<ProgressInfo>, v: Verdict,
                        order: seq<string>)
    requires forall k :: k in s.tasks && s.tasks[k].app.uid == uid ==> s.tasks[k].app.taskId != taskId
    ensures UpdateProgress(s, uid, taskId, progress, v, order)
         == Reply(s, if taskId < 0 then TaskIdInvalid else if progress.None? then ProgressNotAllowed else NotExist)
  {
    hide First;
    FirstFinds(s.tasks, order, ByIdAndUid(taskId, uid));
  }

  // ---------------------------------------------------------------- a change of the AVSession

  /** The walk comes to `k` before any other task of the application. */
  predicate ComesFirst(t: Table, order: seq<string>, uid: int, i: nat) {
    && i < |order| && order[i] in t && t[order[i]].app.uid == uid
    && forall j :: 0 <= j < i ==> order[j] !in t || t[order[j]].app.uid != uid
  }

  lemma {:induction false} FirstOfUid(t: Table, order: seq<string>, uid: int, i: nat)
    requires ComesFirst(t, order, uid, i)
    ensures First(t, order, OfUid(uid)) == Some(order[i])
  {
    if i > 0 {
      assert forall j :: 0 <= j < i ==> order[1..][j] == order[j + 1] || j == i - 1;
      assert order[0] !in t || t[order[0]].app.uid != uid;
      FirstOfUid(t, order[1..], uid, i - 1);
    }
  }

  /** The first task of the application decides. An undetected one gets the flag. When the AVSession's notification is
      withdrawn, a task with its submode keeps quiet, and one that only plays audio publishes its own. Otherwise, while
      it is shown or for tasks with other modes, nothing is published, and an empty text withdraws the notification of a
      task that does not transfer data. */
  lemma AvSessionOutcome(s: State, uid: int, published: bool, v: Verdict, order: seq<string>, i: nat)
    requires ComesFirst(s.tasks, order, uid, i)
    ensures var k, r, s' := order[i], s.tasks[order[i]], AvSession(s, uid, published, v, order);
            if !r.phase.audioDetected then s' == s.(tasks := s.tasks[k := r.(phase := r.phase.(audioDetected := true))])
            else if !published && 5 in r.work.subModes then s' == s
            else if !published && r.work.modes == [2] then
              exists u :: && IsSent(r, s.nextNote, v, u)
                          && s' == s.(tasks := s.tasks[k := u.r], nextNote := u.next, notes := s.notes + u.notes,
                                      disk := WriteTable(s.tasks[k := u.r]))
            else if 1 in r.work.modes then s' == s
            else if v.EmptyText? then
              var t := s.tasks[k := r.(notice := r.notice.(id := -1))];
              s' == s.(tasks := t, notes := s.notes + [CancelMain(r.notice.text, r.notice.id)], disk := WriteTable(t))
            else s' == s.(disk := WriteTable(s.tasks))
  {
    hide First, Send, IsSent, WriteTable;
    FirstOfUid(s.tasks, order, uid, i);
    var r := s.tasks[order[i]];
    SendIs(r, s.nextNote, v);
    assert IsSent(r, s.nextNote, v, Send(r, s.nextNote, v));
  }

  /** A change of the AVSession posts exactly when it is withdrawn, the first task of the application is a detected
      one that only plays audio, without the AVSession's submode, and the service accepts; then under the task's own
      label. */
  lemma AvSessionPosts(s: State, uid: int, published: bool, v: Verdict, order: seq<string>, i: nat, n: Note)
    requires ComesFirst(s.tasks, order, uid, i) && n.Post?
    ensures var k, r, s' := order[i], s.tasks[order[i]], AvSession(s, uid, published, v, order);
            var posts := !published && v.Accepted? && r.phase.audioDetected && r.work.modes == [2]
                         && 5 !in r.work.subModes;
            && k in s'.tasks
            && multiset(s'.notes)[n] == multiset(s.notes)[n]
               + One(posts && n.text == OwnLabel(r) && n == Post(s'.tasks[k].notice.text, s'.tasks[k].notice.id))
  {
    hide AvSession, OwnLabel, WriteTable;
    AvSessionOutcome(s, uid, published, v, order, i);
  }

  lemma AvSessionNobody(s: State, uid: int, published: bool, v: Verdict, order: seq<string>)
    requires forall k :: k in s.tasks ==> s.tasks[k].app.uid != uid
    ensures AvSession(s, uid, published, v, order) == s
  {
    hide First;
    FirstFinds(s.tasks, order, OfUid(uid));
  }
}
