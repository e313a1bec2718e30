/** The event stream mirrors the table: a system ability that reads the running tasks when it
    subscribes and then folds the start and stop callbacks it is sent always holds exactly what a
    new query would return, over every run without one particular audio suspension. */
module Mirror {
  import opened Wrappers
  import opened TaskRecord
  import opened Subscribers
  import opened TaskTable
  import opened Invariants
  import opened Reachability
  import L = Labels

  ghost predicate MirrorOk(s: State) {
    forall id :: IsSystemAbility(s.subs, id) ==> View(s.log, id) == Snapshot(s.tasks)
  }

  // ---------------------------------------------------------------- snapshots

  lemma SnapshotErase(t: Table, k: string, nextTask: int)
    requires FreshIds(t, nextTask) && k in t
    ensures Snapshot(t - {k}) == Snapshot(t) - {t[k].app.taskId}
  {
    var t' := t - {k};
    forall x | x in Snapshot(t) && x != t[k].app.taskId ensures x in Snapshot(t') {
      var j :| j in t && !t[j].phase.suspended && t[j].app.taskId == x;
      assert j in t' && t'[j] == t[j];
    }
    forall x | x in Snapshot(t') ensures x in Snapshot(t) && x != t[k].app.taskId {
      var j :| j in t' && !t'[j].phase.suspended && t'[j].app.taskId == x;
      assert j in t && j != k;
    }
  }

  lemma SnapshotPut(t: Table, k: string, r: Record, nextTask: int)
    requires FreshIds(t, nextTask) && k in t && r.app == t[k].app
    ensures Snapshot(t[k := r])
         == if r.phase.suspended then Snapshot(t) - {r.app.taskId} else Snapshot(t) + {r.app.taskId}
  {
    var t' := t[k := r];
    forall x | x in Snapshot(t')
      ensures if r.phase.suspended then x in Snapshot(t) && x != r.app.taskId else x in Snapshot(t) || x == r.app.taskId
    {
      var j :| j in t' && !t'[j].phase.suspended && t'[j].app.taskId == x;
      assert j in t && (j == k || t'[j] == t[j]);
    }
    forall x | x in Snapshot(t) && x != r.app.taskId ensures x in Snapshot(t') {
      var j :| j in t && !t[j].phase.suspended && t[j].app.taskId == x;
      assert j in t' && t'[j] == t[j];
    }
    if !r.phase.suspended {
      assert k in t' && t'[k] == r;
    }
  }

  lemma SnapshotInsert(t: Table, k: string, r: Record)
    requires k !in t && !r.phase.suspended
    ensures Snapshot(t[k := r]) == Snapshot(t) + {r.app.taskId}
  {
    var t' := t[k := r];
    assert k in t' && t'[k] == r;
    forall x | x in Snapshot(t) ensures x in Snapshot(t') {
      var j :| j in t && !t[j].phase.suspended && t[j].app.taskId == x;
      assert j in t' && t'[j] == t[j];
    }
    forall x | x in Snapshot(t') ensures x in Snapshot(t) || x == r.app.taskId {
      var j :| j in t' && !t'[j].phase.suspended && t'[j].app.taskId == x;
      assert j == k || (j in t && t'[j] == t[j]);
    }
  }

  /** A record changed without its suspend flag. */
  lemma SnapshotSame(t: Table, k: string, r: Record, nextTask: int)
    requires FreshIds(t, nextTask) && k in t && r.app == t[k].app && r.phase.suspended == t[k].phase.suspended
    ensures Snapshot(t[k := r]) == Snapshot(t)
  {
    SnapshotPut(t, k, r, nextTask);
    if r.phase.suspended {
      forall x | x in Snapshot(t) ensures x != r.app.taskId {
        var j :| j in t && !t[j].phase.suspended && t[j].app.taskId == x;
      }
    } else {
      assert t[k].app.taskId in Snapshot(t);
    }
  }

  // ---------------------------------------------------------------- one event

  /** The step sent one change to everybody and the table changed accordingly. */
  lemma ToldMirror(s: State, s': State, change: Change, r: Record)
    requires MirrorOk(s) && Distinct(s.subs) && s'.subs == s.subs && s'.log == s.log + Notify(s.subs, change, r)
    requires Snapshot(s'.tasks) == Conclude(Snapshot(s.tasks), change, r)
    ensures MirrorOk(s')
  {
    hide View, Snapshot, Notify, Conclude, IsSystemAbility;
    forall id | IsSystemAbility(s'.subs, id) ensures View(s'.log, id) == Snapshot(s'.tasks) {
      SystemAbilityHears(s.log, s.subs, change, r, id);
    }
  }

  /** The step sent nothing about running tasks and the set of running tasks is the same. */
  lemma QuietMirror(s: State, s': State)
    requires MirrorOk(s) && s'.subs == s.subs && s'.log == s.log && Snapshot(s'.tasks) == Snapshot(s.tasks)
    ensures MirrorOk(s')
  {
  }

  lemma TellMirror(s: State, uid: int)
    requires MirrorOk(s)
    ensures MirrorOk(TellAppStop(s, uid))
  {
    hide View, Snapshot, NotifyAppStop, HasUid, IsSystemAbility;
    var s' := TellAppStop(s, uid);
    forall id | IsSystemAbility(s'.subs, id) ensures View(s'.log, id) == Snapshot(s'.tasks) {
      ViewIgnoresAppStop(s.log, s.subs, uid, id);
    }
  }

  lemma AudioNoticeMirror(s: State, k: string, r: Record)
    requires MirrorOk(s) && Distinct(s.subs) && FreshIds(s.tasks, s.nextTask) && k in s.tasks
    requires r.app == s.tasks[k].app && r.phase.suspended == s.tasks[k].phase.suspended
    ensures MirrorOk(AudioNotice(s, k, r))
  {
    hide View, Snapshot, NotifyAudio, IsSystemAbility, FreshIds;
    SnapshotSame(s.tasks, k, r, s.nextTask);
    var s' := AudioNotice(s, k, r);
    forall id | IsSystemAbility(s'.subs, id) ensures View(s'.log, id) == Snapshot(s'.tasks) {
      SystemAbilitiesIgnoreAudio(s.log, s.subs, r, id);
    }
  }

  lemma LiveIds(s: State)
    requires Live(s, Full)
    ensures FreshIds(s.tasks, s.nextTask) && Distinct(s.subs)
  {
  }

  lemma DropMirror(s: State, k: string, reason: int, notes: seq<Note>)
    requires Live(s, Full) && MirrorOk(s) && k in s.tasks
    ensures MirrorOk(Drop(s, k, s.tasks[k], reason, notes))
  {
    hide Live, MirrorOk, Snapshot, Notify, FreshIds;
    LiveIds(s);
    SnapshotErase(s.tasks, k, s.nextTask);
    ToldMirror(s, Drop(s, k, s.tasks[k], reason, notes), TaskCancel, Because(s.tasks[k], reason));
  }

  lemma SaveMirror(s: State)
    requires MirrorOk(s)
    ensures MirrorOk(Save(s))
  {
    hide Snapshot, View;
  }

  // ---------------------------------------------------------------- the loops

  /** The audio loop would suspend a running task that is marked as handled by standby. */
  ghost predicate AudioHazard(s: State, uid: int) {
    && HasCallback(s.subs, uid, SuspendFlag)
    && exists k :: k in s.tasks && HazardousRecord(s.tasks[k], uid)
  }

  predicate HazardousRecord(r: Record, uid: int) {
    Selected(Audio(uid), r) && r.phase.audioSuspends == 0 && r.phase.standby && !r.phase.suspended
  }

  lemma AudioRoundMirror(s: State, k: string)
    requires Live(s, Full) && MirrorOk(s) && k in s.tasks && AUDIO_PLAYBACK in s.tasks[k].work.modes
    requires !HasCallback(s.subs, s.tasks[k].app.uid, SuspendFlag) || !HazardousRecord(s.tasks[k], s.tasks[k].app.uid)
    ensures MirrorOk(AudioRound(s, k, s.tasks[k]))
  {
    hide Live, MirrorOk, Snapshot, Notify, FreshIds, HasCallback;
    var r := s.tasks[k];
    LiveIds(s);
    if !HasCallback(s.subs, r.app.uid, SuspendFlag) {
      AudioNoticeMirror(s, k, r.(phase := r.phase.(audioDetected := false)));
    } else if r.phase.audioSuspends == 0 {
      SnapshotPut(s.tasks, k, AudioPaused(r), s.nextTask);
      SuspendedNotInSnapshot(s.tasks, k, s.nextTask);
      ToldMirror(s, AudioPause(s, k, AudioPaused(r)), TaskSuspend, AudioPaused(r));
    } else {
      DropMirror(s, k, FREEZE_CANCEL, MainNote(r));
      SaveMirror(Drop(s, k, r, FREEZE_CANCEL, MainNote(r)));
    }
  }

  lemma SuspendedNotInSnapshot(t: Table, k: string, nextTask: int)
    requires FreshIds(t, nextTask) && k in t
    ensures t[k].app.taskId in Snapshot(t) <==> !t[k].phase.suspended
  {
  }

  lemma RoundMirror(s: State, k: string, job: Job)
    requires Live(s, Full) && MirrorOk(s) && k in s.tasks && Selected(job, s.tasks[k])
    requires job.Audio? ==> !AudioHazard(s, job.uid)
    ensures MirrorOk(Round(s, k, s.tasks[k], job))
  {
    hide Live, MirrorOk, Snapshot, Notify, FreshIds, AudioRound, Send, Refresh, SharedCancel, TellAppStop, WriteTable,
      HasCallback, Drop, Fits;
    var r := s.tasks[k];
    LiveIds(s);
    RecordFits(s, k, Full);
    match job {
      case Audio(uid) =>
        AudioRoundMirror(s, k);
      case StandbyActive(_) =>
        SnapshotSame(s.tasks, k, StandbyAwake(r), s.nextTask);
        ToldMirror(s, Round(s, k, r, job), TaskActive, StandbyAwake(r));
      case LiveViewShown(_) =>
        SnapshotSame(s.tasks, k, NoNote(r), s.nextTask);
        QuietMirror(s, Round(s, k, r, job));
      case LiveViewGone(_, answers) =>
        SendFollows(r, s.nextNote, AnswerFor(answers, k).main);
        RoundSettleMirror(s, k, Send(r, s.nextNote, AnswerFor(answers, k).main));
      case Republish(answers) =>
        RefreshFollows(r, s.nextNote, AnswerFor(answers, k));
        RoundSettleMirror(s, k, Refresh(r, s.nextNote, AnswerFor(answers, k)));
      case Dismissed(_, _, isSub) =>
        DropAndTellMirror(s, k, REMOVE_NOTIFICATION_CANCEL, if isSub then MainNote(r) else SubNote(r));
      case AppGone(_) =>
        DropAndTellMirror(s, k, SYSTEM_CANCEL, (if r.notice.id != NO_ID then MainNote(r) else []) + SubNote(r));
      case Cleared(_) =>
        DropAndTellMirror(s, k, SYSTEM_CANCEL, MainNote(r));
      case Accounts(_) =>
        DropAndTellMirror(s, k, SYSTEM_CANCEL, MainNote(r));
      case InnerMode(_) =>
        DropAndTellMirror(s, k, SYSTEM_CANCEL, SharedCancel(s.tasks - {k}, r));
      case Everything(_) =>
        DropMirror(s, k, r.phase.reason, MainNote(r));
      case _ =>
        DropMirror(s, k, FREEZE_CANCEL, MainNote(r) + SubNote(r));
        SaveMirror(Drop(s, k, r, FREEZE_CANCEL, MainNote(r) + SubNote(r)));
    }
  }

  lemma DropAndTellMirror(s: State, k: string, reason: int, notes: seq<Note>)
    requires Live(s, Full) && MirrorOk(s) && k in s.tasks
    ensures MirrorOk(DropAndTell(s, k, s.tasks[k], reason, notes))
  {
    hide Live, MirrorOk, Drop, TellAppStop, Save;
    DropMirror(s, k, reason, notes);
    var s1 := Drop(s, k, s.tasks[k], reason, notes);
    TellMirror(s1, s.tasks[k].app.uid);
    SaveMirror(TellAppStop(s1, s.tasks[k].app.uid));
  }

  /** Publishing keeps the suspend flag. */
  lemma RoundSettleMirror(s: State, k: string, p: Posted)
    requires Live(s, Full) && MirrorOk(s) && k in s.tasks && p.r.app == s.tasks[k].app
    requires p.r.phase.suspended == s.tasks[k].phase.suspended
    ensures MirrorOk(Settle(s, k, p)) && MirrorOk(Save(Settle(s, k, p)))
  {
    hide Live, MirrorOk, Snapshot, FreshIds, WriteTable;
    LiveIds(s);
    SnapshotSame(s.tasks, k, p.r, s.nextTask);
    QuietMirror(s, Settle(s, k, p));
    QuietMirror(s, Save(Settle(s, k, p)));
  }

  /** One visit leaves every other record as it is. */
  lemma VisitOthers(s: State, k: string, job: Job, j: string)
    requires j != k
    ensures var s' := Visit(s, k, job);
            (j in s'.tasks <==> j in s.tasks) && (j in s.tasks ==> s'.tasks[j] == s.tasks[j])
    ensures Visit(s, k, job).subs == s.subs
  {
    hide Notify, NotifyAppStop, NotifyAudio, WriteTable, Send, Refresh, SharedCancel, HasUid, HasCallback;
    if k in s.tasks && Selected(job, s.tasks[k]) && job.Audio? {
      var r := s.tasks[k];
      if !HasCallback(s.subs, r.app.uid, SuspendFlag) {
      } else if r.phase.audioSuspends == 0 {
      } else {
      }
    }
  }

  lemma AudioStaysSafe(s: State, k: string, uid: int)
    requires !AudioHazard(s, uid)
    ensures !AudioHazard(Visit(s, k, Audio(uid)), uid)
  {
    hide Visit, HasCallback, Selected;
    var s' := Visit(s, k, Audio(uid));
    VisitOthers(s, k, Audio(uid), k + "_");
    if HasCallback(s.subs, uid, SuspendFlag) {
      forall j | j in s'.tasks ensures !HazardousRecord(s'.tasks[j], uid) {
        if j == k {
          VisitedAudio(s, k, uid);
        } else {
          VisitOthers(s, k, Audio(uid), j);
        }
      }
    }
  }

  lemma VisitedAudio(s: State, k: string, uid: int)
    requires !AudioHazard(s, uid) && HasCallback(s.subs, uid, SuspendFlag)
    ensures var s' := Visit(s, k, Audio(uid)); k in s'.tasks ==> !HazardousRecord(s'.tasks[k], uid)
  {
    hide Notify, WriteTable;
    if k in s.tasks && Selected(Audio(uid), s.tasks[k]) {
      if s.tasks[k].phase.audioSuspends == 0 {
      } else {
      }
    }
  }

  /** The mirror survives a walk; so does the part of the invariant it needs. */
  lemma {:induction false} VisitsMirror(s: State, order: seq<string>, job: Job)
    requires Inv(s, Full) && MirrorOk(s) && (job.Audio? ==> !AudioHazard(s, job.uid))
    ensures var s' := Visits(s, order, job);
            MirrorOk(s') && Live(s', Full) && (job.Audio? ==> !AudioHazard(s', job.uid))
  {
    hide MirrorOk, TableOk, ReadTable, AudioHazard, Round, Selected;
    if order != [] {
      var n := |order| - 1;
      VisitsMirror(s, order[..n], job);
      var before, k := Visits(s, order[..n], job), order[n];
      if k in before.tasks && Selected(job, before.tasks[k]) {
        RoundMirror(before, k, job);
      }
      if job.Audio? {
        AudioStaysSafe(before, k, job.uid);
      }
      if job.Everything? {
        EverythingLive(s, order, job.uids, Full);
      } else {
        VisitsInv(s, order, job, Full);
      }
    }
  }

  lemma {:induction false} TellAllMirror(s: State, uids: seq<int>)
    requires MirrorOk(s)
    ensures MirrorOk(TellAll(s, uids))
  {
    hide MirrorOk, TellAppStop;
    if uids != [] {
      TellAllMirror(s, uids[..|uids| - 1]);
      TellMirror(TellAll(s, uids[..|uids| - 1]), uids[|uids| - 1]);
    }
  }

  lemma LoopMirror(s: State, job: Job, order: seq<string>)
    requires Inv(s, Full) && MirrorOk(s) && (job.Audio? ==> !AudioHazard(s, job.uid))
    ensures MirrorOk(Loop(s, job, order))
  {
    hide Inv, MirrorOk, Visits, TellAppStop, TellAll, AudioHazard, Save;
    VisitsMirror(s, order, job);
    var s1 := Visits(s, order, job);
    match job {
      case ByUid(uid) => TellMirror(s1, uid);
      case ByUidAndMode(uid, _) => TellMirror(s1, uid);
      case Audio(uid) => TellMirror(s1, uid);
      case Everything(uids) =>
        SaveMirror(s1);
        TellAllMirror(Save(s1), uids);
      case _ =>
    }
  }

  // ---------------------------------------------------------------- the other steps

  lemma SetReasonMirror(s: State, k: string, reason: int)
    requires Inv(s, Full) && MirrorOk(s)
    ensures MirrorOk(SetReason(s, k, reason))
  {
    hide Inv, MirrorOk, Snapshot, FreshIds;
    if k in s.tasks {
      InvLive(s);
      LiveIds(s);
      SnapshotSame(s.tasks, k, Because(s.tasks[k], reason), s.nextTask);
      QuietMirror(s, SetReason(s, k, reason));
    }
  }

  lemma InvLive(s: State)
    requires Inv(s, Full)
    ensures Live(s, Full)
  {
  }

  lemma StopTaskMirror(s: State, taskId: int, order: seq<string>, refused: set<Note>)
    requires Inv(s, Full) && MirrorOk(s)
    ensures MirrorOk(StopTask(s, taskId, order, refused).s)
  {
    hide Inv, MirrorOk, First, DropAndTell, SharedCancel;
    InvLive(s);
    var k := First(s.tasks, order, ById(taskId));
    if k.Some? && k.value in s.tasks {
      var r := s.tasks[k.value];
      DropAndTellMirror(s, k.value, r.phase.reason, SharedCancel(s.tasks - {k.value}, r));
    }
  }

  lemma {:induction false} StopEachMirror(s: State, ids: seq<int>, order: seq<string>, refused: set<Note>)
    requires Inv(s, Full) && MirrorOk(s)
    ensures MirrorOk(StopEach(s, ids, order, refused).s)
  {
    hide Inv, MirrorOk, StopTask;
    if ids != [] {
      var before := ids[..|ids| - 1];
      StopEachMirror(s, before, order, refused);
      StopEachInv(s, before, order, refused, Full);
      StopTaskMirror(StopEach(s, before, order, refused).s, ids[|ids| - 1], order, refused);
    }
  }

  lemma StopInnerMirror(s: State, uid: int, name: string, abilityId: int, taskId: int, order: seq<string>,
                        refused: set<Note>)
    requires Inv(s, Full) && MirrorOk(s)
    ensures MirrorOk(StopInner(s, uid, name, abilityId, taskId, order, refused).s)
    ensures MirrorOk(StopByContext(s, uid, name, abilityId, order, refused).s)
  {
    hide Inv, MirrorOk, StopTask, StopEach, First, ContextIds;
    StopTaskMirror(s, taskId, order, refused);
    StopEachMirror(s, ContextIds(s.tasks, order, uid, name, abilityId), order, refused);
  }

  lemma StopByKeyMirror(s: State, k: string, order: seq<string>, refused: set<Note>)
    requires Inv(s, Full) && MirrorOk(s)
    ensures MirrorOk(StopByKey(s, k, order, refused))
  {
    hide Inv, MirrorOk, StopTask;
    if k in s.tasks {
      var s1 := SetReason(s, k, FREEZE_CANCEL);
      SetReasonInv(s, k, FREEZE_CANCEL, Full);
      SetReasonMirror(s, k, FREEZE_CANCEL);
      StopTaskMirror(s1, s1.tasks[k].app.taskId, order, refused);
    }
  }

  lemma DismissMirror(s: State, k: string, isSub: bool, order: seq<string>)
    requires Inv(s, Full) && MirrorOk(s)
    ensures MirrorOk(Dismiss(s, k, isSub, order))
  {
    hide Inv, MirrorOk, Loop, SetReason;
    SetReasonInv(s, k, REMOVE_NOTIFICATION_CANCEL, Full);
    SetReasonMirror(s, k, REMOVE_NOTIFICATION_CANCEL);
    var s1 := SetReason(s, k, REMOVE_NOTIFICATION_CANCEL);
    if k in s1.tasks && s1.tasks[k].notice.id != NO_ID {
      LoopMirror(s1, Dismissed(s1.tasks[k].notice.text, s1.tasks[k].notice.id, isSub), order);
    }
  }

  lemma PutSuspendedMirror(s: State, k: string, r: Record)
    requires Inv(s, Full) && MirrorOk(s) && k in s.tasks && r.app == s.tasks[k].app
    requires r.phase.standby != r.phase.suspended && (r.phase.standby ==> !s.tasks[k].phase.suspended)
    ensures MirrorOk(PutSuspended(s, k, r))
  {
    hide Inv, MirrorOk, Snapshot, Notify, FreshIds, WriteTable;
    InvLive(s);
    LiveIds(s);
    SnapshotPut(s.tasks, k, r, s.nextTask);
    SuspendedNotInSnapshot(s.tasks, k, s.nextTask);
    ToldMirror(s, PutSuspended(s, k, r), TaskSuspend, r);
  }

  lemma SuspendAtMirror(s: State, uid: int, reason: int, k: string)
    requires Inv(s, Full) && MirrorOk(s)
    ensures MirrorOk(SuspendAt(s, uid, reason, k)) && MirrorOk(StandbySuspendAt(s, uid, reason, k))
  {
    hide Inv, MirrorOk, PutSuspended, TellAppStop, Snapshot;
    if k in s.tasks {
      var r := s.tasks[k];
      PutSuspendedMirror(s, k, SuspendRecord(r, reason));
      if !r.phase.suspended {
        PutSuspendedMirror(s, k, StandbyRecord(r, reason));
      }
      var s1 := if r.app.uid == uid then PutSuspended(s, k, SuspendRecord(r, reason)) else s;
      QuietMirror(s1, Noted(s1, MainNote(r) + SubNote(r)));
      TellMirror(Noted(s1, MainNote(r) + SubNote(r)), uid);
    }
  }

  lemma SuspendMirror(s: State, uid: int, reason: int, k: string, standby: bool, order: seq<string>, refused: set<Note>)
    requires Inv(s, Full) && MirrorOk(s)
    ensures MirrorOk(Suspend(s, uid, reason, k, standby, order, refused))
  {
    hide Inv, MirrorOk, SuspendAt, StandbySuspendAt, StopByKey, HasCallback;
    SuspendAtMirror(s, uid, reason, k);
    StopByKeyMirror(s, k, order, refused);
  }

  /** A reactivated record enters the running set; what happens to its notification is irrelevant. */
  lemma AwakeMirror(s: State, k: string, r: Record, s': State)
    requires Inv(s, Full) && MirrorOk(s) && k in s.tasks && r.app == s.tasks[k].app && !r.phase.suspended
    requires s'.tasks == s.tasks[k := r] && s'.subs == s.subs
    requires s'.log == s.log + Notify(s.subs, TaskActive, Awake(s.tasks[k]))
    ensures MirrorOk(s')
  {
    hide Inv, MirrorOk, Snapshot, Notify, FreshIds;
    InvLive(s);
    LiveIds(s);
    SnapshotPut(s.tasks, k, r, s.nextTask);
    ToldMirror(s, s', TaskActive, Awake(s.tasks[k]));
  }

  lemma ReactivatedMirror(t: Turn, k: string, a: Answer)
    requires Inv(t.s, Full) && MirrorOk(t.s) && k in t.s.tasks
    ensures MirrorOk(Reactivated(t, k, a).s)
  {
    hide Inv, MirrorOk, Notify, Refresh, WriteTable, Fits;
    var s, r := t.s, Awake(t.s.tasks[k]);
    InvFits(s, k, Full);
    if r.notice.id == NO_ID {
      AwakeMirror(s, k, r, Save(PutAwake(s, k, r)));
    } else if t.id == ILLEGAL_ID || r.notice.id !in t.seen {
      var p := Refresh(r, s.nextNote, a);
      AwakeFits(s.tasks[k]);
      RefreshFollows(r, s.nextNote, a);
      AwakeMirror(s, k, p.r, Republished(t, k, r, p).s);
    } else {
      AwakeMirror(s, k, WithNote(r, t.text, t.id), Copied(t, k, r).s);
    }
  }

  lemma AwakeFits(r: Record)
    requires Fits(r)
    ensures Fits(Awake(r))
  {
  }

  lemma {:induction false} ReactivationsMirror(s: State, order: seq<string>, uid: int, answers: map<string, Answer>)
    requires Inv(s, Full) && MirrorOk(s)
    ensures MirrorOk(Reactivations(s, order, uid, answers).s)
  {
    hide Inv, MirrorOk, Reactivated;
    if order != [] {
      var n := |order| - 1;
      ReactivationsMirror(s, order[..n], uid, answers);
      ReactivationsOk(s, order[..n], uid, answers, Full);
      var t, k := Reactivations(s, order[..n], uid, answers), order[n];
      if k in t.s.tasks {
        ReactivatedMirror(t, k, AnswerFor(answers, k));
      }
    }
  }

  lemma InsertMirror(s: State, r: Record, s1: State)
    requires MirrorOk(s) && Distinct(s.subs) && s1.subs == s.subs && s1.log == s.log
    requires Snapshot(s1.tasks) == Snapshot(s.tasks)
    requires KeyOf(r) !in s1.tasks && !r.phase.suspended
    ensures MirrorOk(Insert(s1, r))
  {
    hide MirrorOk, Snapshot, Notify, WriteTable, KeyOf;
    SnapshotInsert(s1.tasks, KeyOf(r), r);
    QuietMirror(s, s1);
    ToldMirror(s1, Insert(s1, r), TaskStart, r);
  }

  lemma SubmitMirror(s: State, r: Record, env: StartEnv, order: seq<string>)
    requires Inv(s, Full) && MirrorOk(s) && KeyOf(r) !in s.tasks && !r.phase.suspended && Fits(r)
    ensures MirrorOk(Submit(s.(nextTask := s.nextTask + 1), r, env, order).s)
  {
    hide Inv, MirrorOk, CheckStartModes, CheckMerge, Insert, Refresh, Snapshot, FreshIds, Fits, L.TaskKey;
    var s1 := s.(nextTask := s.nextTask + 1);
    InvLive(s);
    LiveIds(s);
    QuietMirror(s, s1);
    if CheckStartModes(r, env) == Ok {
      match CheckMerge(s1.tasks, r, order) {
        case Refuse(_) =>
        case Share(k) =>
          if k in s.tasks {
            SnapshotSame(s.tasks, k, MergeTarget(s.tasks[k], r), s.nextTask);
            InsertMirror(s, MergeInto(r, s.tasks[k]), Put(s1, k, MergeTarget(s.tasks[k], r)));
          }
        case Separate =>
          InsertMirror(s, r, s1);
          var p := Refresh(r, s.nextNote, env.answer);
          RefreshFollows(r, s.nextNote, env.answer);
          var s2 := Noted(s1, p.notes).(nextNote := p.next);
          QuietMirror(s, s2);
          InsertMirror(s, p.r, s2);
      }
    }
  }

  lemma StartMirror(s: State, q: Request, env: StartEnv, order: seq<string>)
    requires Inv(s, Full) && MirrorOk(s)
    ensures MirrorOk(Start(s, q, env, order).s)
  {
    hide Inv, MirrorOk, Submit, KeyOf, Allowed, Snapshot;
    var r0 := NewRecord(q);
    NewRecordFacts(q);
    QuietMirror(s, s.(nextTask := s.nextTask + 1));
    var r := r0.(app := r0.app.(taskId := s.nextTask + 1));
    if KeyOf(r) !in s.tasks {
      SubmitMirror(s, r, env, order);
    }
  }

  lemma SettleMirror(s: State, k: string, p: Posted, order: seq<string>, env: UpdateEnv)
    requires Inv(s, Full) && MirrorOk(s) && k in s.tasks && Updates(s.tasks[k], s.nextNote, p)
    ensures MirrorOk(Settle(s, k, p)) && k in Settle(s, k, p).tasks
    ensures MirrorOk(AfterUpdate(Settle(s, k, p), k, order, env))
  {
    hide Inv, MirrorOk, AfterUpdate, Fits;
    InvLive(s);
    RoundSettleMirror(s, k, p);
    SettleInv(s, k, p, Full);
    AfterUpdateMirror(Settle(s, k, p), k, order, env);
  }

  lemma AfterUpdateMirror(s: State, k: string, order: seq<string>, env: UpdateEnv)
    requires Inv(s, Full) && MirrorOk(s) && k in s.tasks
    ensures MirrorOk(AfterUpdate(s, k, order, env))
  {
    hide Inv, MirrorOk, Reactivations, Notify, WriteTable, Snapshot;
    var uid := s.tasks[k].app.uid;
    ReactivationsMirror(s, order, uid, env.answers);
    ActivateInv(s, uid, order, env.answers, Full);
    var s1 := if s.tasks[k].phase.suspended then Activate(s, uid, order, env.answers) else s;
    InvLive(s1);
    LiveIds(s1);
    if k in s1.tasks {
      ToldMirror(s1, Save(Emit(s1, TaskUpdate, s1.tasks[k])), TaskUpdate, s1.tasks[k]);
    }
  }

  lemma UpdateByIdMirror(s: State, caller: int, p: UpdateParam, env: UpdateEnv, order: seq<string>)
    requires Inv(s, Full) && MirrorOk(s)
    ensures MirrorOk(UpdateById(s, caller, p, env, order).s)
  {
    hide Inv, MirrorOk, First, CheckModes, UpdateNotification, Settle, AfterUpdate, Updates, Fits, Live;
    var found := First(s.tasks, order, ByIdAndRequest(p.taskId));
    if found.Some? && found.value in s.tasks {
      var k := found.value;
      InvFits(s, k, Full);
      UpdateNotificationUpdates(s.tasks[k], s.nextNote, p, env);
      SettleMirror(s, k, UpdateNotification(s.tasks[k], s.nextNote, p, env), order, env);
    }
  }

  lemma PutUpdatedMirror(s: State, k: string, r: Record)
    requires Inv(s, Full) && MirrorOk(s) && k in s.tasks
    requires Updates(s.tasks[k], s.nextNote, Posted(r, s.nextNote, [], Ok))
    ensures MirrorOk(Put(s, k, r))
  {
    hide Inv, MirrorOk, Fits, Put, Save, Noted;
    StoredMirror(s, k, r, []);
  }

  lemma UpdateByKeyMirror(s: State, k: string, p: UpdateParam, env: UpdateEnv, order: seq<string>)
    requires Inv(s, Full) && MirrorOk(s)
    ensures MirrorOk(UpdateByKey(s, k, p, env, order).s)
  {
    hide Inv, MirrorOk, AfterUpdate, LegacySubModes, LegacyPosted, Settle, Put, Updates;
    if k in s.tasks {
      hide UpdateByKey;
      var r := s.tasks[k];
      InvFits(s, k, Full);
      UpdateByKeyRecords(r, s.nextNote, p, env.verdict);
      PutUpdatedMirror(s, k, LegacySubModes(r, p));
      SettleMirror(s, k, LegacyPosted(r, s.nextNote, p, env.verdict), order, env);
      UpdateByKeyEnds(s, k, p, env, order);
    }
  }

  lemma SendMirror(s: State, k: string, r: Record, v: Verdict)
    requires Inv(s, Full) && MirrorOk(s) && k in s.tasks && r.app == s.tasks[k].app && r.notice == s.tasks[k].notice
    requires r.phase == s.tasks[k].phase
    ensures var s1 := Settle(s, k, Send(r, s.nextNote, v)); MirrorOk(s1) && MirrorOk(Save(s1))
  {
    hide Inv, MirrorOk, Send, L.LabelOfUid, Settle, Save;
    InvFits(s, k, Full);
    SendFollows(r, s.nextNote, v);
    RoundSettleMirror(s, k, Send(r, s.nextNote, v));
  }

  lemma ProgressMirror(s: State, uid: int, taskId: int, progress: Option<ProgressInfo>, v: Verdict, order: seq<string>)
    requires Inv(s, Full) && MirrorOk(s)
    ensures MirrorOk(UpdateProgress(s, uid, taskId, progress, v, order).s)
  {
    hide Inv, MirrorOk, First, Send, Settle, Save;
    var found := First(s.tasks, order, ByIdAndUid(taskId, uid));
    if found.Some? && found.value in s.tasks {
      var k := found.value;
      SendMirror(s, k, s.tasks[k].(work := s.tasks[k].work.(progress := progress)), v);
    }
  }

  lemma AvSessionMirror(s: State, uid: int, published: bool, v: Verdict, order: seq<string>)
    requires Inv(s, Full) && MirrorOk(s)
    ensures MirrorOk(AvSession(s, uid, published, v, order))
  {
    hide Inv, MirrorOk, First, Send, Settle, Save, Put, Noted, MainNote, NoNote;
    var found := First(s.tasks, order, OfUid(uid));
    if found.Some? && found.value in s.tasks {
      var k, r := found.value, s.tasks[found.value];
      SendMirror(s, k, r, v);
      SaveMirror(s);
      StoredMirror(s, k, r.(phase := r.phase.(audioDetected := true)), []);
      NoNoteKeeps(r);
      StoredMirror(s, k, NoNote(r), MainNote(r));
    }
  }

  lemma NoNoteKeeps(r: Record)
    ensures NoNote(r).app == r.app && NoNote(r).phase == r.phase
  {
  }

  /** A record stored without a change of its suspend flag. */
  lemma StoredMirror(s: State, k: string, r: Record, notes: seq<Note>)
    requires Inv(s, Full) && MirrorOk(s) && k in s.tasks && r.app == s.tasks[k].app
    requires r.phase.suspended == s.tasks[k].phase.suspended
    ensures MirrorOk(Put(s, k, r)) && MirrorOk(Save(Noted(Put(s, k, r), notes)))
  {
    hide Inv, MirrorOk, Snapshot, FreshIds, WriteTable;
    InvLive(s);
    LiveIds(s);
    SnapshotSame(s.tasks, k, r, s.nextTask);
    QuietMirror(s, Put(s, k, r));
    QuietMirror(s, Save(Noted(Put(s, k, r), notes)));
  }

  // ---------------------------------------------------------------- subscribing

  lemma SubscribeMirror(s: State, sub: Subscriber)
    requires MirrorOk(s)
    ensures MirrorOk(Subscribe(s, sub))
  {
    hide View, Snapshot;
    var s' := Subscribe(s, sub);
    forall id | IsSystemAbility(s'.subs, id) ensures View(s'.log, id) == Snapshot(s'.tasks) {
      var i :| 0 <= i < |s'.subs| && s'.subs[i].id == id && !s'.subs[i].hap;
      if Known(s.subs, sub.id) {
        assert s.subs[i].id == id && !s.subs[i].hap;
        assert IsSystemAbility(s.subs, id);
      } else {
        ViewSnoc(s.log, Joined(sub.id, Snapshot(s.tasks)), id);
        if id != sub.id {
          assert s.subs[i] == s'.subs[i];
          assert IsSystemAbility(s.subs, id);
        }
      }
    }
  }

  lemma FewerMirror(s: State, subs: seq<Subscriber>)
    requires MirrorOk(s) && forall x :: x in subs ==> IsSystemAbility(s.subs, x.id) || x.hap
    ensures MirrorOk(s.(subs := subs))
  {
    hide View, Snapshot;
    forall id | IsSystemAbility(subs, id) ensures View(s.log, id) == Snapshot(s.tasks) {
      var i :| 0 <= i < |subs| && subs[i].id == id && !subs[i].hap;
      assert subs[i] in subs;
    }
  }

  lemma UnsubscribeMirror(s: State, id: int, flags: set<Flag>)
    requires Inv(s, Full) && MirrorOk(s)
    ensures MirrorOk(Unsubscribe(s, id, flags)) && MirrorOk(s.(subs := Without(s.subs, id)))
  {
    hide TableOk, MirrorOk, Without;
    WithoutDistinct(s.subs, id);
    assert forall x :: x in s.subs && !x.hap ==> IsSystemAbility(s.subs, x.id);
    FewerMirror(s, Without(s.subs, id));
    var narrow := Narrow(s.subs, id, flags);
    assert forall i :: 0 <= i < |narrow| && !narrow[i].hap ==> narrow[i].id == s.subs[i].id && !s.subs[i].hap;
    FewerMirror(s, narrow);
  }

  // ---------------------------------------------------------------- runs

  /** No audio suspension of a running task that is marked as handled by standby. */
  ghost predicate Harmless(s: State, step: Step) {
    step.LoopStep? && step.job.Audio? ==> !AudioHazard(s, step.job.uid)
  }

  lemma StepMirror(s: State, step: Step)
    requires Inv(s, Full) && MirrorOk(s) && Harmless(s, step)
    ensures MirrorOk(Apply(s, step))
  {
    hide Inv, MirrorOk, Start, UpdateById, UpdateByKey, UpdateProgress, StopInner, StopByContext, StopByKey, Loop,
      Dismiss,
      Suspend, Reactivations, AvSession, Subscribe, Unsubscribe, Without, Snapshot, AudioHazard, RestoreRounds;
    match step
    case StartStep(q, env, order) => StartMirror(s, q, env, order);
    case UpdateByIdStep(caller, p, env, order) => UpdateByIdMirror(s, caller, p, env, order);
    case UpdateByKeyStep(k, p, env, order) => UpdateByKeyMirror(s, k, p, env, order);
    case ProgressStep(uid, taskId, progress, v, order) => ProgressMirror(s, uid, taskId, progress, v, order);
    case StopStep(uid, name, abilityId, taskId, order, refused) =>
      StopInnerMirror(s, uid, name, abilityId, taskId, order, refused);
    case AbilityGoneStep(uid, name, abilityId, order, refused) =>
      StopInnerMirror(s, uid, name, abilityId, 0, order, refused);
    case StopByKeyStep(k, order, refused) => StopByKeyMirror(s, k, order, refused);
    case LoopStep(job, order) => LoopMirror(s, job, order);
    case DismissStep(k, isSub, order) => DismissMirror(s, k, isSub, order);
    case SuspendStep(uid, reason, k, standby, order, refused) =>
      SuspendMirror(s, uid, reason, k, standby, order, refused);
    case ActiveStep(uid, standby, order, answers) =>
      ReactivationsMirror(s, order, uid, answers);
      LoopMirror(s, StandbyActive(uid), order);
    case AvSessionStep(uid, published, v, order) => AvSessionMirror(s, uid, published, v, order);
    case AppStateStep(uid, toForeground, order) => QuietMirror(s, AppState(s, uid, toForeground, order));
    case SubscribeStep(sub) => SubscribeMirror(s, sub);
    case UnsubscribeStep(id, flags) => UnsubscribeMirror(s, id, flags);
    case SubscriberDiedStep(id) => UnsubscribeMirror(s, id, {});
    case EnableStep(uid, enable) => QuietMirror(s, Apply(s, step));
    case BannerStep => QuietMirror(s, Apply(s, step));
    case RestartStep(alive, reported, order, answers) => RestartMirror(s, alive, reported, order, answers);
  }

  /** A new process has no subscribers. */
  lemma RestartMirror(s: State, alive: Option<set<int>>, reported: Option<set<int>>, order: seq<string>,
                      answers: map<string, Answer>)
    ensures MirrorOk(Restart(s, alive, reported, order, answers))
  {
    hide RestoreRounds, MaxTaskId, MaxNoteId, ReadTable, WriteTable, Rebuild;
    if alive.Some? {
      RestoreRoundsSubs(Fresh(s), order, alive.value, answers);
    }
  }

  lemma {:induction false} RestoreRoundsSubs(s: State, order: seq<string>, alive: set<int>, answers: map<string,
                                             Answer>)
    ensures RestoreRounds(s, order, alive, answers).subs == s.subs
  {
    hide Refresh, SharedCancel;
    if order != [] {
      RestoreRoundsSubs(s, order[..|order| - 1], alive, answers);
    }
  }

  ghost predicate HarmlessRun(s: State, steps: seq<Step>) {
    if steps == [] then true
    else HarmlessRun(s, steps[..|steps| - 1]) && Harmless(Run(s, steps[..|steps| - 1]), steps[|steps| - 1])
  }

  /** Mirror refinement: over every run without such an audio suspension, each subscribed system
      ability holds exactly the set of running tasks. */
  lemma {:induction false} RunMirror(steps: seq<Step>)
    requires SoundRun(INIT, steps) && HarmlessRun(INIT, steps)
    ensures MirrorOk(Run(INIT, steps))
  {
    hide Inv, MirrorOk, Apply, Sound, Harmless;
    if steps == [] {
      assert MirrorOk(INIT) by { assert forall id :: !IsSystemAbility(INIT.subs, id); EmptyMirror(INIT); }
    } else {
      var before := steps[..|steps| - 1];
      RunMirror(before);
      RunInv(before, Full);
      StepMirror(Run(INIT, before), steps[|steps| - 1]);
    }
  }

  lemma EmptyMirror(s: State)
    requires forall id :: !IsSystemAbility(s.subs, id)
    ensures MirrorOk(s)
  {
  }

  // ---------------------------------------------------------------- the exact condition for the audio loop

  /** A round for one task says nothing about another task. */
  lemma AudioRoundKeepsView(s: State, j: string, taskId: int, id: int)
    requires Live(s, Full) && j in s.tasks && IsSystemAbility(s.subs, id)
    requires s.tasks[j].app.taskId != taskId || HazardousRecord(s.tasks[j], s.tasks[j].app.uid)
    requires HasCallback(s.subs, s.tasks[j].app.uid, SuspendFlag) && taskId in View(s.log, id)
    ensures taskId in View(AudioRound(s, j, s.tasks[j]).log, id)
  {
    hide TableOk, View, Notify, HasCallback, WriteTable, IsSystemAbility;
    var r := s.tasks[j];
    if r.phase.audioSuspends == 0 {
      SystemAbilityHears(s.log, s.subs, TaskSuspend, AudioPaused(r), id);
    } else {
      SystemAbilityHears(s.log, s.subs, TaskCancel, Because(r, FREEZE_CANCEL), id);
    }
  }

  ghost predicate NoRepeats(order: seq<string>) {
    forall i, j :: 0 <= i < j < |order| ==> order[i] != order[j]
  }

  /** One visit of the audio loop says nothing about a task it does not visit, or pauses unannounced. */
  lemma VisitKeepsView(s: State, j: string, uid: int, k: string, id: int)
    requires Live(s, Full) && IsSystemAbility(s.subs, id) && HasCallback(s.subs, uid, SuspendFlag) && k in s.tasks
    requires s.tasks[k].app.taskId in View(s.log, id) && (j == k ==> HazardousRecord(s.tasks[k], uid))
    ensures s.tasks[k].app.taskId in View(Visit(s, j, Audio(uid)).log, id)
  {
    hide TableOk, View, HasCallback, IsSystemAbility, AudioRound, FreshIds;
    if j in s.tasks && Selected(Audio(uid), s.tasks[j]) {
      SameIdSameKey(s, j, k);
      AudioRoundKeepsView(s, j, s.tasks[k].app.taskId, id);
    }
  }

  lemma SameIdSameKey(s: State, j: string, k: string)
    requires Live(s, Full) && j in s.tasks && k in s.tasks
    ensures s.tasks[j].app.taskId == s.tasks[k].app.taskId ==> j == k
  {
  }

  /** ... and pauses the record it visits. */
  lemma VisitPauses(s: State, j: string, uid: int, k: string)
    requires HasCallback(s.subs, uid, SuspendFlag) && k in s.tasks && (j == k ==> HazardousRecord(s.tasks[k], uid))
    ensures var s' := Visit(s, j, Audio(uid));
            && s'.subs == s.subs && k in s'.tasks && s'.tasks[k] == if j == k then AudioPaused(s.tasks[k])
                                                                    else s.tasks[k]
  {
    hide HasCallback, Notify, WriteTable;
    if j != k {
      VisitOthers(s, j, Audio(uid), k);
    }
  }

  /** The suspension of the marked task is not announced. */
  lemma {:induction false} HazardUnannounced(s: State, order: seq<string>, uid: int, k: string, id: int)
    requires Inv(s, Full) && NoRepeats(order) && IsSystemAbility(s.subs, id) && HasCallback(s.subs, uid, SuspendFlag)
    requires k in s.tasks && HazardousRecord(s.tasks[k], uid) && s.tasks[k].app.taskId in View(s.log, id)
    ensures var s' := Visits(s, order, Audio(uid));
            && Inv(s', Full) && s'.subs == s.subs && s.tasks[k].app.taskId in View(s'.log, id)
            && k in s'.tasks && s'.tasks[k] == if k in order then AudioPaused(s.tasks[k]) else s.tasks[k]
  {
    hide Inv, View, HasCallback, IsSystemAbility, Visit;
    if order != [] {
      var n := |order| - 1;
      HazardUnannounced(s, order[..n], uid, k, id);
      var before, j := Visits(s, order[..n], Audio(uid)), order[n];
      assert order == order[..n] + [j];
      assert j !in order[..n];
      VisitsInv(s, order, Audio(uid), Full);
      InvLive(before);
      VisitKeepsView(before, j, uid, k, id);
      VisitPauses(before, j, uid, k);
    }
  }

  /** The mirror survives the audio loop exactly when no running task of the application is marked
      as handled by standby while the application listens for suspension. */
  lemma AudioMirrorExact(s: State, uid: int, order: seq<string>, id: int)
    requires Inv(s, Full) && MirrorOk(s) && IsWalk(order, s.tasks) && IsSystemAbility(s.subs, id)
    ensures MirrorOk(Loop(s, Audio(uid), order)) <==> !AudioHazard(s, uid)
  {
    hide Inv, View, HasCallback, IsSystemAbility, Snapshot, Visits, TellAppStop, FreshIds;
    if !AudioHazard(s, uid) {
      LoopMirror(s, Audio(uid), order);
    } else {
      var k :| k in s.tasks && HazardousRecord(s.tasks[k], uid);
      InvLive(s);
      LiveIds(s);
      SuspendedNotInSnapshot(s.tasks, k, s.nextTask);
      HazardUnannounced(s, order, uid, k, id);
      var s1 := Visits(s, order, Audio(uid));
      TellKeepsView(s1, uid, id);
      InvLive(s1);
      LiveIds(s1);
      SuspendedNotInSnapshot(s1.tasks, k, s1.nextTask);
      var s2 := TellAppStop(s1, uid);
      assert View(s2.log, id) != Snapshot(s2.tasks);
      assert IsSystemAbility(s2.subs, id);
    }
  }

  lemma TellKeepsView(s: State, uid: int, id: int)
    ensures var s' := TellAppStop(s, uid);
            View(s'.log, id) == View(s.log, id) && s'.tasks == s.tasks && s'.subs == s.subs
  {
    hide View, NotifyAppStop, HasUid;
    ViewIgnoresAppStop(s.log, s.subs, uid, id);
  }
}
