/** What every reachable state of the task manager satisfies, and why each small step keeps it. */
module Invariants {
  import opened Wrappers
  import opened Json
  import opened TaskRecord
  import opened Subscribers
  import opened TaskTable
  import L = Labels

  type Table = map<string, Record>

  // ---------------------------------------------------------------- predicates

  /** The entry's key is the one computed from its record. */
  ghost predicate Keyed(tasks: Table) {
    forall k :: k in tasks ==> k == KeyOf(tasks[k])
  }

  /** Task ids are distinct, positive and already given out. */
  ghost predicate FreshIds(tasks: Table, nextTask: int) {
    && 0 <= nextTask && (forall k :: k in tasks ==> 1 <= tasks[k].app.taskId <= nextTask)
    && (forall j, k :: j in tasks && k in tasks && tasks[j].app.taskId == tasks[k].app.taskId ==> j == k)
  }

  /** Two tasks that share a notification id belong to one application. */
  ghost predicate Isolated(tasks: Table, nextNote: int) {
    && NO_ID <= nextNote && (forall k :: k in tasks ==> tasks[k].notice.id <= nextNote)
    && (forall j, k :: j in tasks && k in tasks && tasks[j].notice.id == tasks[k].notice.id != NO_ID ==>
          tasks[j].app.uid == tasks[k].app.uid)
  }

  /** Labels in use: the main one names the application, the additional one is the task's own. */
  predicate Fits(r: Record) {
    && (r.notice.id != NO_ID ==> L.LabelOfUid(r.notice.text, r.app.uid, false))
    && (r.notice.subId != NO_ID ==> r.notice.subText == OwnSubLabel(r))
  }

  /** Every record's labels fit. */
  ghost predicate Labelled(tasks: Table) {
    forall k :: k in tasks ==> Fits(tasks[k])
  }

  /** At most ten request-object tasks share an ability id. */
  ghost predicate Bounded(tasks: Table) {
    forall abilityId :: |SameAbility(tasks, abilityId)| <= ABILITY_TASK_MAX_NUM
  }

  /** Tasks requested by system components are never request-object tasks. */
  ghost predicate OuterRequests(tasks: Table) {
    forall k :: k in tasks ==> !(tasks[k].app.byRequest && tasks[k].app.inner)
  }

  /** How much is said of a table. Over every run: keys, labels and bounds. With fresh ids and isolated
      notifications: over runs whose restarts can read the process list. */
  datatype Grade = Basic | Full

  ghost predicate TableOk(tasks: Table, nextTask: int, nextNote: int, g: Grade) {
    && Keyed(tasks) && Labelled(tasks) && Bounded(tasks) && OuterRequests(tasks) && NO_ID <= nextNote
    && (g.Full? ==> FreshIds(tasks, nextTask) && Isolated(tasks, nextNote))
  }

  predicate SameCore(a: Record, b: Record) {
    a.app == b.app && a.phase.suspended == b.phase.suspended
  }

  /** The file and the table agree on keys, on whose task each one is (id, uid, pid, ...) and on suspend flags. */
  ghost predicate Agree(file: Table, tasks: Table) {
    file.Keys == tasks.Keys && forall k :: k in tasks ==> SameCore(file[k], tasks[k])
  }

  ghost predicate Live(s: State, g: Grade) {
    TableOk(s.tasks, s.nextTask, s.nextNote, g) && Distinct(s.subs)
  }

  ghost predicate Inv(s: State, g: Grade) {
    && Live(s, g)
    && TableOk(ReadTable(s.disk), s.nextTask, s.nextNote, g)
    && Agree(ReadTable(s.disk), s.tasks)
  }

  // ---------------------------------------------------------------- tables that evolve

  predicate SameTask(a: Record, b: Record) {
    a.app == b.app
  }

  ghost predicate Survives(t: Table, t': Table) {
    t'.Keys <= t.Keys && forall k :: k in t' ==> SameTask(t[k], t'[k])
  }

  lemma SubsetSize<T>(a: set<T>, b: set<T>)
    requires a <= b
    ensures |a| <= |b|
  {
    assert b == a + (b - a);
  }

  lemma SurvivorsOk(t: Table, t': Table, nextTask: int, g: Grade)
    requires Survives(t, t') && Keyed(t) && Bounded(t) && OuterRequests(t) && (g.Full? ==> FreshIds(t, nextTask))
    ensures Keyed(t') && Bounded(t') && OuterRequests(t') && (g.Full? ==> FreshIds(t', nextTask))
  {
    forall a ensures |SameAbility(t', a)| <= ABILITY_TASK_MAX_NUM {
      SubsetSize(SameAbility(t', a), SameAbility(t, a));
    }
  }

  /** Removing entries, and changing entries outside their identity and notifications. */
  lemma QuietTableOk(t: Table, t': Table, nextTask: int, nextNote: int, g: Grade)
    requires TableOk(t, nextTask, nextNote, g) && Survives(t, t')
    requires forall k :: k in t' ==> t[k].notice == t'[k].notice
    ensures TableOk(t', nextTask, nextNote, g)
  {
    SurvivorsOk(t, t', nextTask, g);
  }

  lemma TableOkGrows(t: Table, a: int, b: int, a': int, b': int, g: Grade)
    requires TableOk(t, a, b, g) && a <= a' && b <= b'
    ensures TableOk(t, a', b', g)
  {
  }

  // ---------------------------------------------------------------- the file

  lemma SaveInv(s: State, g: Grade)
    requires Live(s, g)
    ensures Inv(Save(s), g)
  {
    hide L.LabelOfUid, SameAbility, KeyOf, WriteTable, ReadTable, ParseModes, ModesText;
    TableRoundTrip(s.tasks);
    var file := ReadTable(WriteTable(s.tasks));
    assert file.Keys == s.tasks.Keys;
    QuietTableOk(s.tasks, file, s.nextTask, s.nextNote, g);
  }

  /** A step that does not write must leave keys, ids, uid, pid and suspend flags alone. */
  lemma UnsavedInv(s: State, s': State, g: Grade)
    requires Inv(s, g) && Live(s', g) && s'.disk == s.disk && s.nextTask <= s'.nextTask && s.nextNote <= s'.nextNote
    requires Agree(s.tasks, s'.tasks)
    ensures Inv(s', g)
  {
    TableOkGrows(ReadTable(s.disk), s.nextTask, s.nextNote, s'.nextTask, s'.nextNote, g);
  }

  // ---------------------------------------------------------------- one record changes

  /** A new value for a record, as far as its notifications are concerned. `shared` is an id that is
      already in use by the same application. */
  predicate Renotes(r: Record, r': Record, next: int, next': int) {
    && SameTask(r, r') && next <= next' && Fits(r')
    && (r'.notice.id == NO_ID || r'.notice.id == r.notice.id || next < r'.notice.id <= next')
  }

  lemma PutTableOk(t: Table, nextTask: int, next: int, k: string, r: Record, next': int, g: Grade)
    requires TableOk(t, nextTask, next, g) && k in t && Renotes(t[k], r, next, next')
    ensures TableOk(t[k := r], nextTask, next', g)
  {
    hide KeyOf, Fits, SameAbility;
    var t' := t[k := r];
    SurvivorsOk(t, t', nextTask, g);
    assert Labelled(t') && (g.Full? ==> Isolated(t', next'));
  }

  lemma PutLive(s: State, k: string, r: Record, next: int, g: Grade)
    requires Live(s, g) && k in s.tasks && Renotes(s.tasks[k], r, s.nextNote, next)
    ensures Live(Put(s, k, r).(nextNote := next), g)
  {
    hide TableOk;
    PutTableOk(s.tasks, s.nextTask, s.nextNote, k, r, next, g);
  }

  /** ... or takes over an id that a task of the same application already has. */
  lemma PutSharedOk(t: Table, nextTask: int, next: int, k: string, r: Record, j: string, g: Grade)
    requires TableOk(t, nextTask, next, g) && k in t && j in t && SameTask(t[k], r) && Fits(r)
    requires t[j].app.uid == r.app.uid && t[j].notice.id == r.notice.id
    ensures TableOk(t[k := r], nextTask, next, g)
  {
    hide KeyOf, Fits, SameAbility;
    SurvivorsOk(t, t[k := r], nextTask, g);
    assert Labelled(t[k := r]) && (g.Full? ==> Isolated(t[k := r], next));
  }

  lemma RecordFits(s: State, k: string, g: Grade)
    requires Live(s, g) && k in s.tasks
    ensures Fits(s.tasks[k]) && NO_ID <= s.nextNote
  {
  }

  /** What publishing does to a record and to the id counter. */
  predicate Follows(r: Record, next: int, p: Posted) {
    && Renotes(r, p.r, next, p.next)
    && p.r.phase == r.phase && p.r.work == r.work
    && (r.notice.id != NO_ID ==> p.r.notice.id == NO_ID || p.r.notice.id == r.notice.id)
  }

  lemma PublishFollows(r: Record, next: int, accepted: bool)
    requires Fits(r)
    ensures Follows(r, next, Publish(r, next, accepted)) && Follows(r, next, PublishSub(r, next, accepted))
    ensures PublishSub(r, next, accepted).r.notice.id == r.notice.id
  {
    hide L.LabelOfUid, L.MainLabel, L.SubLabel;
    L.LabelsNameTheirUid(r.app.uid, r.app.abilityName, r.app.abilityId, r.app.byRequest, r.app.taskId, r.app.pid);
  }

  lemma SendFollows(r: Record, next: int, v: Verdict)
    requires Fits(r)
    ensures Follows(r, next, Send(r, next, v))
  {
    hide L.LabelOfUid, Publish;
    PublishFollows(r, next, v.Accepted?);
    if r.notice.id == NO_ID {
    } else {
    }
  }

  lemma SendLiveFollows(r: Record, next: int, a: Answer)
    requires Fits(r)
    ensures Follows(r, next, SendLive(r, next, a))
  {
    hide L.LabelOfUid, OwnLabel, Publish, PublishSub;
    PublishFollows(r, next, !a.main.Rejected?);
    var main := Publish(r, next, !a.main.Rejected?);
    PublishFollows(main.r, main.next, !a.sub.Rejected?);
    if main.status != Ok || a.sub.EmptyText? {
    } else if a.sub.Unavailable? {
    } else {
    }
  }

  lemma RefreshFollows(r: Record, next: int, a: Answer)
    requires Fits(r)
    ensures Follows(r, next, Refresh(r, next, a))
  {
    hide L.LabelOfUid, Send, SendLive;
    SendFollows(r, next, a.main);
    SendLiveFollows(r, next, a);
  }

  // ---------------------------------------------------------------- what a step does to the table

  predicate SameRest(s: State, s': State) {
    s'.nextTask == s.nextTask && s'.subs == s.subs
  }

  lemma LiveParts(s: State, s': State, g: Grade)
    requires Live(s, g) && s'.tasks == s.tasks && s'.nextNote == s.nextNote && SameRest(s, s')
    ensures Live(s', g)
  {
  }

  lemma SavedInv(s: State, g: Grade)
    requires Live(s, g) && s.disk == WriteTable(s.tasks)
    ensures Inv(s, g)
  {
    hide TableOk, ReadTable, WriteTable;
    SaveInv(s, g);
    assert Save(s) == s;
  }

  lemma ErasedLive(s: State, k: string, s': State, g: Grade)
    requires Live(s, g) && s'.tasks == s.tasks - {k} && s'.nextNote == s.nextNote && SameRest(s, s')
    ensures Live(s', g)
  {
    QuietTableOk(s.tasks, s'.tasks, s.nextTask, s.nextNote, g);
  }

  /** The step removed one record and wrote the table. */
  lemma ErasedInv(s: State, k: string, s': State, g: Grade)
    requires Inv(s, g) && s'.tasks == s.tasks - {k} && s'.nextNote == s.nextNote && SameRest(s, s')
    requires s'.disk == WriteTable(s'.tasks)
    ensures Inv(s', g)
  {
    hide TableOk, ReadTable, WriteTable;
    ErasedLive(s, k, s', g);
    SavedInv(s', g);
  }

  /** The step changed one record; it wrote the table, or left the persisted core alone. */
  lemma ChangedInv(s: State, k: string, r: Record, s': State, g: Grade)
    requires Inv(s, g) && k in s.tasks && Renotes(s.tasks[k], r, s.nextNote, s'.nextNote)
    requires s'.tasks == s.tasks[k := r] && SameRest(s, s')
    requires s'.disk == WriteTable(s'.tasks) || (s'.disk == s.disk && SameCore(s.tasks[k], r))
    ensures Inv(s', g)
  {
    hide TableOk, ReadTable, WriteTable, Fits;
    PutLive(s, k, r, s'.nextNote, g);
    LiveParts(Put(s, k, r).(nextNote := s'.nextNote), s', g);
    if s'.disk == WriteTable(s'.tasks) {
      SavedInv(s', g);
    } else {
      UnsavedInv(s, s', g);
    }
  }

  // ---------------------------------------------------------------- the loops

  lemma InvFits(s: State, k: string, g: Grade)
    requires Inv(s, g) && k in s.tasks
    ensures Fits(s.tasks[k]) && NO_ID <= s.nextNote && Live(s, g)
  {
  }

  lemma RoundInv(s: State, k: string, job: Job, g: Grade)
    requires Inv(s, g) && k in s.tasks && !job.Everything?
    ensures Inv(Round(s, k, s.tasks[k], job), g)
  {
    hide Inv, Live, WriteTable, Notify, NotifyAppStop, Send, Refresh, L.LabelOfUid, AudioRound, SharedCancel, HasUid;
    var r := s.tasks[k];
    InvFits(s, k, g);
    match job {
      case Audio(_) =>
        AudioRoundInv(s, k, g);
      case StandbyActive(_) =>
        ChangedInv(s, k, StandbyAwake(r), Round(s, k, r, job), g);
      case LiveViewShown(_) =>
        ChangedInv(s, k, NoNote(r), Round(s, k, r, job), g);
      case LiveViewGone(_, answers) =>
        SendFollows(r, s.nextNote, AnswerFor(answers, k).main);
        ChangedInv(s, k, Send(r, s.nextNote, AnswerFor(answers, k).main).r, Round(s, k, r, job), g);
      case Republish(answers) =>
        RefreshFollows(r, s.nextNote, AnswerFor(answers, k));
        ChangedInv(s, k, Refresh(r, s.nextNote, AnswerFor(answers, k)).r, Round(s, k, r, job), g);
      case _ =>
        ErasedInv(s, k, Round(s, k, r, job), g);
    }
  }

  lemma AudioRoundInv(s: State, k: string, g: Grade)
    requires Inv(s, g) && k in s.tasks
    ensures Inv(AudioRound(s, k, s.tasks[k]), g)
  {
    hide Inv, Live, WriteTable, Notify, NotifyAudio, HasCallback, L.LabelOfUid;
    var r := s.tasks[k];
    InvFits(s, k, g);
    if !HasCallback(s.subs, r.app.uid, SuspendFlag) {
      var r1 := r.(phase := r.phase.(audioDetected := false));
      ChangedInv(s, k, r1, AudioNotice(s, k, r1), g);
    } else if r.phase.audioSuspends == 0 {
      ChangedInv(s, k, AudioPaused(r), AudioPause(s, k, AudioPaused(r)), g);
    } else {
      ErasedInv(s, k, Save(Drop(s, k, r, FREEZE_CANCEL, MainNote(r))), g);
    }
  }

  lemma InvParts(s: State, s': State, g: Grade)
    requires Inv(s, g) && s'.tasks == s.tasks && s'.nextNote == s.nextNote && SameRest(s, s') && s'.disk == s.disk
    ensures Inv(s', g)
  {
  }

  lemma {:induction false} VisitsInv(s: State, order: seq<string>, job: Job, g: Grade)
    requires Inv(s, g) && !job.Everything?
    ensures Inv(Visits(s, order, job), g)
  {
    hide Inv, Round, Selected;
    if order != [] {
      var n := |order| - 1;
      VisitsInv(s, order[..n], job, g);
      var before := Visits(s, order[..n], job);
      if order[n] in before.tasks {
        RoundInv(before, order[n], job, g);
      }
    }
  }

  lemma {:induction false} EverythingLive(s: State, order: seq<string>, uids: seq<int>, g: Grade)
    requires Live(s, g)
    ensures Live(Visits(s, order, Everything(uids)), g)
  {
    hide Live, Notify;
    if order != [] {
      var n := |order| - 1;
      EverythingLive(s, order[..n], uids, g);
      var before, k := Visits(s, order[..n], Everything(uids)), order[n];
      if k in before.tasks {
        var r := before.tasks[k];
        ErasedLive(before, k, Drop(before, k, r, r.phase.reason, MainNote(r)), g);
      }
    }
  }

  lemma TellInv(s: State, uid: int, g: Grade)
    requires Inv(s, g)
    ensures Inv(TellAppStop(s, uid), g)
  {
    hide Inv, NotifyAppStop, HasUid;
    if !HasUid(s.tasks, uid) {
      InvParts(s, s.(log := s.log + NotifyAppStop(s.subs, uid)), g);
    }
  }

  lemma {:induction false} TellAllInv(s: State, uids: seq<int>, g: Grade)
    requires Inv(s, g)
    ensures Inv(TellAll(s, uids), g)
  {
    hide Inv, TellAppStop;
    if uids != [] {
      TellAllInv(s, uids[..|uids| - 1], g);
      TellInv(TellAll(s, uids[..|uids| - 1]), uids[|uids| - 1], g);
    }
  }

  lemma LoopInv(s: State, job: Job, order: seq<string>, g: Grade)
    requires Inv(s, g)
    ensures Inv(Loop(s, job, order), g)
  {
    hide TableOk, ReadTable, WriteTable, Visits, TellAppStop, TellAll;
    match job {
      case ByUid(uid) =>
        VisitsInv(s, order, job, g);
        TellInv(Visits(s, order, job), uid, g);
      case ByUidAndMode(uid, _) =>
        VisitsInv(s, order, job, g);
        TellInv(Visits(s, order, job), uid, g);
      case Audio(uid) =>
        VisitsInv(s, order, job, g);
        TellInv(Visits(s, order, job), uid, g);
      case Everything(uids) =>
        EverythingLive(s, order, uids, g);
        var s1 := Visits(s, order, job);
        SavedInv(Save(s1), g);
        TellAllInv(Save(s1), uids, g);
      case _ =>
        VisitsInv(s, order, job, g);
    }
  }

  // ---------------------------------------------------------------- stopping

  lemma SetReasonInv(s: State, k: string, reason: int, g: Grade)
    requires Inv(s, g)
    ensures Inv(SetReason(s, k, reason), g)
  {
    hide Inv, L.LabelOfUid, WriteTable;
    if k in s.tasks {
      InvFits(s, k, g);
      ChangedInv(s, k, Because(s.tasks[k], reason), SetReason(s, k, reason), g);
    }
  }

  lemma DismissInv(s: State, k: string, isSub: bool, order: seq<string>, g: Grade)
    requires Inv(s, g)
    ensures Inv(Dismiss(s, k, isSub, order), g)
  {
    hide Inv, Loop, SetReason;
    SetReasonInv(s, k, REMOVE_NOTIFICATION_CANCEL, g);
    var s1 := SetReason(s, k, REMOVE_NOTIFICATION_CANCEL);
    if k in s1.tasks && s1.tasks[k].notice.id != NO_ID {
      LoopInv(s1, Dismissed(s1.tasks[k].notice.text, s1.tasks[k].notice.id, isSub), order, g);
    }
  }

  lemma StopTaskInv(s: State, taskId: int, order: seq<string>, refused: set<Note>, g: Grade)
    requires Inv(s, g)
    ensures Inv(StopTask(s, taskId, order, refused).s, g)
  {
    hide Inv, First, SharedCancel, WriteTable, Notify, NotifyAppStop, HasUid;
    var k := First(s.tasks, order, ById(taskId));
    if k.Some? && k.value in s.tasks {
      ErasedInv(s, k.value, StopAt(s, k.value, refused).s, g);
    }
  }

  lemma {:induction false} StopEachInv(s: State, ids: seq<int>, order: seq<string>, refused: set<Note>, g: Grade)
    requires Inv(s, g)
    ensures Inv(StopEach(s, ids, order, refused).s, g)
  {
    hide Inv, StopTask;
    if ids != [] {
      StopEachInv(s, ids[..|ids| - 1], order, refused, g);
      StopTaskInv(StopEach(s, ids[..|ids| - 1], order, refused).s, ids[|ids| - 1], order, refused, g);
    }
  }

  lemma StopInnerInv(s: State, uid: int, name: string, abilityId: int, taskId: int, order: seq<string>,
                     refused: set<Note>, g: Grade)
    requires Inv(s, g)
    ensures Inv(StopInner(s, uid, name, abilityId, taskId, order, refused).s, g)
    ensures Inv(StopByContext(s, uid, name, abilityId, order, refused).s, g)
  {
    hide Inv, StopTask, StopEach, First, ContextIds;
    StopTaskInv(s, taskId, order, refused, g);
    StopEachInv(s, ContextIds(s.tasks, order, uid, name, abilityId), order, refused, g);
  }

  lemma StopByKeyInv(s: State, k: string, order: seq<string>, refused: set<Note>, g: Grade)
    requires Inv(s, g)
    ensures Inv(StopByKey(s, k, order, refused), g)
  {
    hide Inv, StopTask;
    if k in s.tasks {
      SetReasonInv(s, k, FREEZE_CANCEL, g);
      var s1 := SetReason(s, k, FREEZE_CANCEL);
      StopTaskInv(s1, s1.tasks[k].app.taskId, order, refused, g);
    }
  }

  // ---------------------------------------------------------------- suspending and activating

  lemma PutSuspendedInv(s: State, k: string, reason: int, g: Grade)
    requires Inv(s, g) && k in s.tasks
    ensures Inv(PutSuspended(s, k, SuspendRecord(s.tasks[k], reason)), g)
    ensures Inv(PutSuspended(s, k, StandbyRecord(s.tasks[k], reason)), g)
  {
    hide Inv, L.LabelOfUid, WriteTable, Notify;
    InvFits(s, k, g);
    var r1, r2 := SuspendRecord(s.tasks[k], reason), StandbyRecord(s.tasks[k], reason);
    ChangedInv(s, k, r1, PutSuspended(s, k, r1), g);
    ChangedInv(s, k, r2, PutSuspended(s, k, r2), g);
  }

  lemma SuspendAtInv(s: State, uid: int, reason: int, k: string, g: Grade)
    requires Inv(s, g)
    ensures Inv(SuspendAt(s, uid, reason, k), g) && Inv(StandbySuspendAt(s, uid, reason, k), g)
  {
    hide Inv, PutSuspended, TellAppStop, SuspendRecord, StandbyRecord;
    if k in s.tasks {
      PutSuspendedInv(s, k, reason, g);
      var r := s.tasks[k];
      var s1 := if r.app.uid == uid then PutSuspended(s, k, SuspendRecord(r, reason)) else s;
      InvParts(s1, Noted(s1, MainNote(r) + SubNote(r)), g);
      TellInv(Noted(s1, MainNote(r) + SubNote(r)), uid, g);
    }
  }

  lemma SuspendInv(s: State, uid: int, reason: int, k: string, standby: bool, order: seq<string>, refused: set<Note>,
                   g: Grade)
    requires Inv(s, g)
    ensures Inv(Suspend(s, uid, reason, k, standby, order, refused), g)
  {
    hide Inv, SuspendAt, StandbySuspendAt, StopByKey, HasCallback;
    SuspendAtInv(s, uid, reason, k, g);
    StopByKeyInv(s, k, order, refused, g);
  }

  /** The remembered notification is that of a reactivated task of the same application. */
  ghost predicate Remembers(t: Turn, uid: int) {
    t.id == ILLEGAL_ID || t.id == NO_ID
    || (L.LabelOfUid(t.text, uid, false)
        && exists j :: && j in t.s.tasks && t.s.tasks[j].app.uid == uid
                       && t.s.tasks[j].notice.id == t.id && !t.s.tasks[j].phase.suspended)
  }

  ghost predicate TurnOk(t: Turn, uid: int, g: Grade) {
    Inv(t.s, g) && Remembers(t, uid)
  }

  lemma SharedInv(s: State, k: string, r: Record, j: string, s': State, g: Grade)
    requires Inv(s, g) && k in s.tasks && j in s.tasks && SameTask(s.tasks[k], r) && Fits(r)
    requires s.tasks[j].app.uid == r.app.uid && s.tasks[j].notice.id == r.notice.id
    requires s'.tasks == s.tasks[k := r] && s'.nextNote == s.nextNote && SameRest(s, s')
    requires s'.disk == WriteTable(s'.tasks)
    ensures Inv(s', g)
  {
    hide TableOk, ReadTable, WriteTable, Fits;
    PutSharedOk(s.tasks, s.nextTask, s.nextNote, k, r, j, g);
    SavedInv(s', g);
  }

  lemma RepublishedOk(t: Turn, k: string, uid: int, a: Answer, g: Grade)
    requires TurnOk(t, uid, g) && k in t.s.tasks && t.s.tasks[k].app.uid == uid && t.s.tasks[k].notice.id != NO_ID
    ensures var r := Awake(t.s.tasks[k]); TurnOk(Republished(t, k, r, Refresh(r, t.s.nextNote, a)), uid, g)
  {
    hide Inv, L.LabelOfUid, WriteTable, Notify, Refresh;
    var s, r := t.s, Awake(t.s.tasks[k]);
    var p := Refresh(r, s.nextNote, a);
    InvFits(s, k, g);
    RefreshFollows(r, s.nextNote, a);
    var t' := Republished(t, k, r, p);
    ChangedInv(s, k, p.r, t'.s, g);
    assert t'.s.tasks[k] == p.r;
  }

  lemma CopiedOk(t: Turn, k: string, uid: int, g: Grade)
    requires TurnOk(t, uid, g) && k in t.s.tasks && t.s.tasks[k].app.uid == uid && t.s.tasks[k].phase.suspended
    requires t.id != ILLEGAL_ID
    ensures TurnOk(Copied(t, k, Awake(t.s.tasks[k])), uid, g)
  {
    hide Inv, L.LabelOfUid, WriteTable, Notify;
    var s := t.s;
    InvFits(s, k, g);
    var s' := Copied(t, k, Awake(s.tasks[k])).s;
    if t.id == NO_ID {
      ChangedInv(s, k, WithNote(Awake(s.tasks[k]), t.text, t.id), s', g);
    } else {
      var j :| j in s.tasks && s.tasks[j].app.uid == uid && s.tasks[j].notice.id == t.id && !s.tasks[j].phase.suspended;
      SharedInv(s, k, WithNote(Awake(s.tasks[k]), t.text, t.id), j, s', g);
      assert s'.tasks[j] == s.tasks[j];
    }
  }

  lemma PlainAwakeOk(t: Turn, k: string, uid: int, g: Grade)
    requires TurnOk(t, uid, g) && k in t.s.tasks && t.s.tasks[k].app.uid == uid && t.s.tasks[k].phase.suspended
    ensures TurnOk(t.(s := Save(PutAwake(t.s, k, Awake(t.s.tasks[k])))), uid, g)
  {
    hide Inv, L.LabelOfUid, WriteTable, Notify;
    var s, r := t.s, Awake(t.s.tasks[k]);
    InvFits(s, k, g);
    var s' := Save(PutAwake(s, k, r));
    ChangedInv(s, k, r, s', g);
    if t.id != ILLEGAL_ID && t.id != NO_ID {
      var j :| j in s.tasks && s.tasks[j].app.uid == uid && s.tasks[j].notice.id == t.id && !s.tasks[j].phase.suspended;
      assert s'.tasks[j] == s.tasks[j];
    }
  }

  lemma {:induction false} ReactivationsOk(s: State, order: seq<string>, uid: int, answers: map<string, Answer>,
                                           g: Grade)
    requires Inv(s, g)
    ensures TurnOk(Reactivations(s, order, uid, answers), uid, g)
  {
    hide TurnOk, Republished, Copied, Refresh;
    if order == [] {
      FirstTurnOk(s, uid, g);
    } else {
      var n := |order| - 1;
      ReactivationsOk(s, order[..n], uid, answers, g);
      var t, k := Reactivations(s, order[..n], uid, answers), order[n];
      if k in t.s.tasks && t.s.tasks[k].app.uid == uid && t.s.tasks[k].phase.suspended {
        if t.s.tasks[k].notice.id == NO_ID {
          PlainAwakeOk(t, k, uid, g);
        } else if t.id == ILLEGAL_ID || t.s.tasks[k].notice.id !in t.seen {
          RepublishedOk(t, k, uid, AnswerFor(answers, k), g);
        } else {
          CopiedOk(t, k, uid, g);
        }
      }
    }
  }

  lemma FirstTurnOk(s: State, uid: int, g: Grade)
    requires Inv(s, g)
    ensures TurnOk(Turn(s, "default", ILLEGAL_ID, []), uid, g)
  {
    hide Inv;
  }

  lemma ActivateInv(s: State, uid: int, order: seq<string>, answers: map<string, Answer>, g: Grade)
    requires Inv(s, g)
    ensures Inv(Activate(s, uid, order, answers), g)
  {
    hide Inv, Reactivations;
    ReactivationsOk(s, order, uid, answers, g);
  }
}
