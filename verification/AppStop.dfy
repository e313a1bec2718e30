/** Application-stop signalling: every system ability is told exactly once when the last task of an
    application leaves the table, whichever path removed it, and never while one is left. */
module AppStop {
  import opened Wrappers
  import opened TaskRecord
  import opened Subscribers
  import opened TaskTable
  import opened Invariants
  import opened Reachability
  import opened Recovery
  import Rules
  import L = Labels

  /** How often system ability `id` has been told that application `u` has stopped. */
  function StopsTold(s: State, id: int, u: int): nat {
    Times(s.log, Told(id, OnAppStop(u)))
  }

  /** Told once more exactly when the last task of `u` went away. */
  ghost predicate Exact(s: State, s': State, id: int, u: int) {
    && StopsTold(s', id, u) == StopsTold(s, id, u) + (if HasUid(s.tasks, u) && !HasUid(s'.tasks, u) then 1 else 0)
    && (HasUid(s'.tasks, u) ==> HasUid(s.tasks, u))
    && s'.subs == s.subs
  }

  /** Nothing told yet. */
  ghost predicate Untold(s: State, s': State, id: int, u: int) {
    StopsTold(s', id, u) == StopsTold(s, id, u) && (HasUid(s'.tasks, u) ==> HasUid(s.tasks, u)) && s'.subs == s.subs
  }

  lemma EmitUntold(s: State, s': State, change: Change, r: Record, id: int, u: int)
    requires s'.log == s.log + Notify(s.subs, change, r) || s'.log == s.log + NotifyAudio(s.subs, r) || s'.log == s.log
    ensures StopsTold(s', id, u) == StopsTold(s, id, u)
  {
    hide Notify, NotifyAudio, Times;
    NotifyHasNoAppStop(s.subs, change, r, id, u);
    TimesConcat(s.log, Notify(s.subs, change, r), Told(id, OnAppStop(u)));
    TimesConcat(s.log, NotifyAudio(s.subs, r), Told(id, OnAppStop(u)));
  }

  lemma TellTold(s: State, uid: int, id: int, u: int)
    requires Distinct(s.subs) && IsSystemAbility(s.subs, id)
    ensures StopsTold(TellAppStop(s, uid), id, u)
         == StopsTold(s, id, u) + (if u == uid && !HasUid(s.tasks, uid) then 1 else 0)
  {
    hide NotifyAppStop, Times, HasUid, IsSystemAbility;
    AppStopTimes(s.subs, uid, id, u);
    TimesConcat(s.log, NotifyAppStop(s.subs, uid), Told(id, OnAppStop(u)));
  }

  lemma DropUntold(s: State, k: string, r: Record, reason: int, notes: seq<Note>, id: int, u: int)
    ensures Untold(s, Drop(s, k, r, reason, notes), id, u)
    ensures k in s.tasks && s.tasks[k].app.uid != u && HasUid(s.tasks, u) ==>
              HasUid(Drop(s, k, r, reason, notes).tasks, u)
  {
    hide Notify, StopsTold;
    EmitUntold(s, Drop(s, k, r, reason, notes), TaskCancel, Because(r, reason), id, u);
    if HasUid(s.tasks, u) && k in s.tasks && s.tasks[k].app.uid != u {
      var j :| j in s.tasks && s.tasks[j].app.uid == u;
      assert j in s.tasks - {k} && (s.tasks - {k})[j] == s.tasks[j];
    }
  }

  lemma DropAndTellExact(s: State, k: string, reason: int, notes: seq<Note>, id: int, u: int)
    requires Distinct(s.subs) && IsSystemAbility(s.subs, id) && k in s.tasks
    ensures Exact(s, DropAndTell(s, k, s.tasks[k], reason, notes), id, u)
  {
    hide Drop, TellAppStop, HasUid, IsSystemAbility, WriteTable, Times;
    var r := s.tasks[k];
    var s1 := Drop(s, k, r, reason, notes);
    DropUntold(s, k, r, reason, notes, id, u);
    TellTold(s1, r.app.uid, id, u);
    TellKeeps(s1, r.app.uid);
    HasUidOf(s.tasks, k);
  }

  lemma HasUidOf(t: Table, k: string)
    requires k in t
    ensures HasUid(t, t[k].app.uid)
  {
  }

  lemma TellKeeps(s: State, uid: int)
    ensures TellAppStop(s, uid).tasks == s.tasks && TellAppStop(s, uid).subs == s.subs
  {
    hide NotifyAppStop, HasUid;
  }

  // ---------------------------------------------------------------- the loops

  /** Loops that check after every removal. */
  predicate TellsEach(job: Job) {
    job.Dismissed? || job.AppGone? || job.Cleared? || job.Accounts? || job.InnerMode?
  }

  predicate TouchesOnly(job: Job, u: int) {
    match job
    case ByUid(uid) => uid == u
    case ByUidAndMode(uid, _) => uid == u
    case Audio(uid) => uid == u
    case _ => false
  }

  lemma PutUntold(s: State, k: string, r: Record, s': State, change: Change, r': Record, id: int, u: int)
    requires k in s.tasks && r.app == s.tasks[k].app && s'.tasks == s.tasks[k := r] && s'.subs == s.subs
    requires || s'.log == s.log
             || s'.log == s.log + Notify(s.subs, change, r')
             || s'.log == s.log + NotifyAudio(s.subs, r')
    ensures Untold(s, s', id, u) && (HasUid(s.tasks, u) <==> HasUid(s'.tasks, u)) && Exact(s, s', id, u)
  {
    hide Notify, NotifyAudio, StopsTold;
    EmitUntold(s, s', change, r', id, u);
    if HasUid(s.tasks, u) {
      var j :| j in s.tasks && s.tasks[j].app.uid == u;
      assert j in s'.tasks && s'.tasks[j].app == s.tasks[j].app;
    }
    if HasUid(s'.tasks, u) {
      var j :| j in s'.tasks && s'.tasks[j].app.uid == u;
      assert j in s.tasks && s'.tasks[j].app == s.tasks[j].app;
    }
  }

  lemma AudioRoundUntold(s: State, k: string, id: int, u: int)
    requires k in s.tasks
    ensures var s' := AudioRound(s, k, s.tasks[k]);
            Untold(s, s', id, u) && (u != s.tasks[k].app.uid && HasUid(s.tasks, u) ==> HasUid(s'.tasks, u))
  {
    hide Notify, NotifyAudio, Times, HasUid, HasCallback, WriteTable;
    var r := s.tasks[k];
    if !HasCallback(s.subs, r.app.uid, SuspendFlag) {
      var r1 := r.(phase := r.phase.(audioDetected := false));
      PutUntold(s, k, r1, AudioNotice(s, k, r1), TaskStart, r1, id, u);
    } else if r.phase.audioSuspends == 0 {
      PutUntold(s, k, AudioPaused(r), AudioPause(s, k, AudioPaused(r)), TaskSuspend, AudioPaused(r), id, u);
    } else {
      DropUntold(s, k, r, FREEZE_CANCEL, MainNote(r), id, u);
    }
  }

  /** What one visit does: exact when the loop checks each time, otherwise nothing is told, and a
      loop for one application leaves the others alone. */
  ghost predicate VisitSignals(s: State, s': State, job: Job, id: int, u: int) {
    && (TellsEach(job) ==> Exact(s, s', id, u))
    && (!TellsEach(job) ==> Untold(s, s', id, u))
    && (!TellsEach(job) && !job.Everything? && !TouchesOnly(job, u) ==> (HasUid(s.tasks, u) <==> HasUid(s'.tasks, u)))
  }

  lemma RoundSignals(s: State, k: string, job: Job, id: int, u: int)
    requires Distinct(s.subs) && IsSystemAbility(s.subs, id) && k in s.tasks && Selected(job, s.tasks[k])
    ensures VisitSignals(s, Round(s, k, s.tasks[k], job), job, id, u)
  {
    hide Notify, Times, HasUid, AudioRound, Send, Refresh, SharedCancel, DropAndTell, WriteTable, IsSystemAbility, Drop;
    var r := s.tasks[k];
    match job {
      case Audio(_) =>
        AudioRoundUntold(s, k, id, u);
      case StandbyActive(_) =>
        PutUntold(s, k, StandbyAwake(r), Round(s, k, r, job), TaskActive, StandbyAwake(r), id, u);
      case LiveViewShown(_) =>
        PutUntold(s, k, NoNote(r), Round(s, k, r, job), TaskActive, r, id, u);
      case LiveViewGone(_, answers) =>
        Rules.SendKeepsDuty(r, s.nextNote, AnswerFor(answers, k).main);
        PutUntold(s, k, Send(r, s.nextNote, AnswerFor(answers, k).main).r, Round(s, k, r, job), TaskActive, r, id, u);
      case Republish(answers) =>
        RefreshKeepsCore(r, s.nextNote, AnswerFor(answers, k));
        PutUntold(s, k, Refresh(r, s.nextNote, AnswerFor(answers, k)).r, Round(s, k, r, job), TaskActive, r, id, u);
      case Dismissed(_, _, isSub) =>
        DropAndTellExact(s, k, REMOVE_NOTIFICATION_CANCEL, if isSub then MainNote(r) else SubNote(r), id, u);
      case AppGone(_) =>
        DropAndTellExact(s, k, SYSTEM_CANCEL, (if r.notice.id != NO_ID then MainNote(r) else []) + SubNote(r), id, u);
      case Cleared(_) =>
        DropAndTellExact(s, k, SYSTEM_CANCEL, MainNote(r), id, u);
      case Accounts(_) =>
        DropAndTellExact(s, k, SYSTEM_CANCEL, MainNote(r), id, u);
      case InnerMode(_) =>
        DropAndTellExact(s, k, SYSTEM_CANCEL, SharedCancel(s.tasks - {k}, r), id, u);
      case Everything(_) =>
        DropUntold(s, k, r, r.phase.reason, MainNote(r), id, u);
      case _ =>
        DropUntold(s, k, r, FREEZE_CANCEL, MainNote(r) + SubNote(r), id, u);
    }
  }

  lemma {:induction false} VisitsSignal(s: State, order: seq<string>, job: Job, id: int, u: int)
    requires Distinct(s.subs) && IsSystemAbility(s.subs, id)
    ensures var s' := Visits(s, order, job); VisitSignals(s, s', job, id, u) && s'.subs == s.subs
  {
    hide Round, Selected, IsSystemAbility, StopsTold, HasUid;
    if order != [] {
      var n := |order| - 1;
      VisitsSignal(s, order[..n], job, id, u);
      var before, k := Visits(s, order[..n], job), order[n];
      if k in before.tasks && Selected(job, before.tasks[k]) {
        RoundSignals(before, k, job, id, u);
      }
    }
  }

  /** What every step promises to a subscribed system ability about application `u`: told exactly
      once when the last task goes away, and not at all while a task is left. */
  ghost predicate Signals(s: State, s': State, id: int, u: int) {
    && (HasUid(s.tasks, u) && !HasUid(s'.tasks, u) ==> StopsTold(s', id, u) == StopsTold(s, id, u) + 1)
    && (HasUid(s'.tasks, u) ==> StopsTold(s', id, u) == StopsTold(s, id, u))
  }

  /** `uids` lists the applications that have tasks, each once, as the set built by DumpCancelTask does. */
  ghost predicate Lists(uids: seq<int>, t: Table) {
    && (forall u :: u in uids <==> HasUid(t, u))
    && (forall i, j :: 0 <= i < j < |uids| ==> uids[i] != uids[j])
  }

  lemma {:induction false} EverythingGone(s: State, order: seq<string>, uids: seq<int>)
    ensures forall k :: k in Visits(s, order, Everything(uids)).tasks <==> k in s.tasks && k !in order
  {
    hide Notify;
    if order != [] {
      var n := |order| - 1;
      EverythingGone(s, order[..n], uids);
      assert order == order[..n] + [order[n]];
    }
  }

  lemma {:induction false} TellAllTold(s: State, uids: seq<int>, id: int, u: int)
    requires Distinct(s.subs) && IsSystemAbility(s.subs, id) && s.tasks == map[]
    requires forall i, j :: 0 <= i < j < |uids| ==> uids[i] != uids[j]
    ensures StopsTold(TellAll(s, uids), id, u) == StopsTold(s, id, u) + (if u in uids then 1 else 0)
    ensures TellAll(s, uids).tasks == s.tasks && TellAll(s, uids).subs == s.subs
  {
    hide TellAppStop, IsSystemAbility, Times;
    if uids != [] {
      var n := |uids| - 1;
      TellAllTold(s, uids[..n], id, u);
      TellTold(TellAll(s, uids[..n]), uids[n], id, u);
      TellKeeps(TellAll(s, uids[..n]), uids[n]);
      assert uids == uids[..n] + [uids[n]];
    }
  }

  lemma EverythingSignals(s: State, order: seq<string>, uids: seq<int>, id: int, u: int)
    requires Distinct(s.subs) && IsSystemAbility(s.subs, id) && IsWalk(order, s.tasks) && Lists(uids, s.tasks)
    ensures Signals(s, Loop(s, Everything(uids), order), id, u)
  {
    hide Visits, TellAll, IsSystemAbility, WriteTable, Times, HasUid;
    VisitsSignal(s, order, Everything(uids), id, u);
    EverythingGone(s, order, uids);
    var s1 := Visits(s, order, Everything(uids));
    assert s1.tasks == map[];
    TellAllTold(Save(s1), uids, id, u);
    EmptyHasNone(u);
  }

  lemma EmptyHasNone(u: int)
    ensures !HasUid(map[], u)
  {
  }

  lemma LoopSignals(s: State, job: Job, order: seq<string>, id: int, u: int)
    requires Distinct(s.subs) && IsSystemAbility(s.subs, id)
    requires job.Everything? ==> IsWalk(order, s.tasks) && Lists(job.uids, s.tasks)
    ensures Signals(s, Loop(s, job, order), id, u)
  {
    hide Visits, TellAppStop, IsSystemAbility, StopsTold, HasUid, IsWalk, Lists;
    if job.Everything? {
      EverythingSignals(s, order, job.uids, id, u);
    } else {
      VisitsSignal(s, order, job, id, u);
      var s1 := Visits(s, order, job);
      if job.ByUid? || job.ByUidAndMode? || job.Audio? {
        TellTold(s1, job.uid, id, u);
        TellKeeps(s1, job.uid);
      }
    }
  }

  // ---------------------------------------------------------------- stopping

  lemma ExactTrans(s: State, s1: State, s2: State, id: int, u: int)
    requires Exact(s, s1, id, u) && Exact(s1, s2, id, u)
    ensures Exact(s, s2, id, u)
  {
    hide StopsTold, HasUid;
  }

  lemma StopTaskExact(s: State, taskId: int, order: seq<string>, refused: set<Note>, id: int, u: int)
    requires Distinct(s.subs) && IsSystemAbility(s.subs, id)
    ensures Exact(s, StopTask(s, taskId, order, refused).s, id, u)
  {
    hide First, DropAndTell, SharedCancel, IsSystemAbility, StopsTold, HasUid;
    var k := First(s.tasks, order, ById(taskId));
    if k.Some? && k.value in s.tasks {
      var r := s.tasks[k.value];
      DropAndTellExact(s, k.value, r.phase.reason, SharedCancel(s.tasks - {k.value}, r), id, u);
    }
  }

  lemma {:induction false} StopEachExact(s: State, ids: seq<int>, order: seq<string>, refused: set<Note>, id: int,
                                         u: int)
    requires Distinct(s.subs) && IsSystemAbility(s.subs, id)
    ensures Exact(s, StopEach(s, ids, order, refused).s, id, u)
  {
    hide StopTask, IsSystemAbility, StopsTold, HasUid;
    if ids != [] {
      var before := ids[..|ids| - 1];
      StopEachExact(s, before, order, refused, id, u);
      var s1 := StopEach(s, before, order, refused).s;
      StopTaskExact(s1, ids[|ids| - 1], order, refused, id, u);
      ExactTrans(s, s1, StopTask(s1, ids[|ids| - 1], order, refused).s, id, u);
    }
  }

  lemma StopInnerExact(s: State, uid: int, name: string, abilityId: int, taskId: int, order: seq<string>,
                       refused: set<Note>,
                       id: int, u: int)
    requires Distinct(s.subs) && IsSystemAbility(s.subs, id)
    ensures Exact(s, StopInner(s, uid, name, abilityId, taskId, order, refused).s, id, u)
    ensures Exact(s, StopByContext(s, uid, name, abilityId, order, refused).s, id, u)
  {
    hide StopTask, StopEach, First, ContextIds, IsSystemAbility, StopsTold, HasUid;
    StopTaskExact(s, taskId, order, refused, id, u);
    StopEachExact(s, ContextIds(s.tasks, order, uid, name, abilityId), order, refused, id, u);
  }

  lemma SetReasonExact(s: State, k: string, reason: int, id: int, u: int)
    ensures Exact(s, SetReason(s, k, reason), id, u)
  {
    hide StopsTold, HasUid;
    if k in s.tasks {
      PutUntold(s, k, Because(s.tasks[k], reason), SetReason(s, k, reason), TaskCancel, s.tasks[k], id, u);
    }
  }

  lemma StopByKeyExact(s: State, k: string, order: seq<string>, refused: set<Note>, id: int, u: int)
    requires Distinct(s.subs) && IsSystemAbility(s.subs, id)
    ensures Exact(s, StopByKey(s, k, order, refused), id, u)
  {
    hide StopTask, IsSystemAbility, StopsTold, HasUid;
    if k in s.tasks {
      var s1 := SetReason(s, k, FREEZE_CANCEL);
      SetReasonExact(s, k, FREEZE_CANCEL, id, u);
      StopTaskExact(s1, s1.tasks[k].app.taskId, order, refused, id, u);
      ExactTrans(s, s1, StopByKey(s, k, order, refused), id, u);
    }
  }

  lemma DismissSignals(s: State, k: string, isSub: bool, order: seq<string>, id: int, u: int)
    requires Distinct(s.subs) && IsSystemAbility(s.subs, id)
    ensures Signals(s, Dismiss(s, k, isSub, order), id, u)
  {
    hide Loop, SetReason, IsSystemAbility, StopsTold, HasUid;
    SetReasonExact(s, k, REMOVE_NOTIFICATION_CANCEL, id, u);
    ReasonKeepsUids(s, k, REMOVE_NOTIFICATION_CANCEL, u);
    var s1 := SetReason(s, k, REMOVE_NOTIFICATION_CANCEL);
    if k in s1.tasks && s1.tasks[k].notice.id != NO_ID {
      LoopSignals(s1, Dismissed(s1.tasks[k].notice.text, s1.tasks[k].notice.id, isSub), order, id, u);
    }
  }

  lemma ReasonKeepsUids(s: State, k: string, reason: int, u: int)
    ensures HasUid(SetReason(s, k, reason).tasks, u) <==> HasUid(s.tasks, u)
  {
    hide HasUid;
    if k in s.tasks {
      PutUntold(s, k, Because(s.tasks[k], reason), SetReason(s, k, reason), TaskCancel, s.tasks[k], 0, u);
    }
  }

  // ---------------------------------------------------------------- steps that remove nothing

  /** Nothing told, and no application loses its last task. */
  ghost predicate Calm(s: State, s': State, id: int, u: int) {
    StopsTold(s', id, u) == StopsTold(s, id, u) && (HasUid(s.tasks, u) ==> HasUid(s'.tasks, u)) && s'.subs == s.subs
  }

  /** One record was stored, old or new, and at most one event sent. */
  lemma PutCalm(s: State, k: string, r: Record, s': State, change: Change, r': Record, id: int, u: int)
    requires k in s.tasks ==> r.app == s.tasks[k].app
    requires s'.tasks == s.tasks[k := r] && s'.subs == s.subs
    requires s'.log == s.log + Notify(s.subs, change, r') || s'.log == s.log
    ensures Calm(s, s', id, u)
  {
    hide Notify, StopsTold;
    EmitUntold(s, s', change, r', id, u);
    if HasUid(s.tasks, u) {
      var j :| j in s.tasks && s.tasks[j].app.uid == u;
      assert j in s'.tasks && s'.tasks[j].app == s.tasks[j].app;
    }
  }

  lemma CalmTrans(s: State, s1: State, s2: State, id: int, u: int)
    requires Calm(s, s1, id, u) && Calm(s1, s2, id, u)
    ensures Calm(s, s2, id, u)
  {
    hide StopsTold, HasUid;
  }

  lemma CalmSelf(s: State, id: int, u: int)
    ensures Calm(s, s, id, u)
  {
    hide StopsTold, HasUid;
  }

  lemma QuietCalm(s: State, s': State, change: Change, r: Record, id: int, u: int)
    requires s'.tasks == s.tasks && s'.subs == s.subs
    requires (s'.log == s.log || s'.log == s.log + Notify(s.subs, change, r))
    ensures Calm(s, s', id, u)
  {
    hide Notify, HasUid, StopsTold;
    EmitUntold(s, s', change, r, id, u);
  }

  lemma SuspendAtSignals(s: State, uid: int, reason: int, k: string, id: int, u: int)
    requires Distinct(s.subs) && IsSystemAbility(s.subs, id)
    ensures Signals(s, SuspendAt(s, uid, reason, k), id, u) && Signals(s, StandbySuspendAt(s, uid, reason, k), id, u)
  {
    hide WriteTable, Notify, TellAppStop, IsSystemAbility, Times, HasUid;
    if k in s.tasks {
      var r := s.tasks[k];
      var r1, r2 := SuspendRecord(r, reason), StandbyRecord(r, reason);
      PutCalm(s, k, r1, PutSuspended(s, k, r1), TaskSuspend, r1, id, u);
      PutCalm(s, k, r2, PutSuspended(s, k, r2), TaskSuspend, r2, id, u);
      var s1 := Noted(if r.app.uid == uid then PutSuspended(s, k, r1) else s, MainNote(r) + SubNote(r));
      TellTold(s1, uid, id, u);
      TellKeeps(s1, uid);
    }
  }

  lemma SuspendSignals(s: State, uid: int, reason: int, k: string, standby: bool, order: seq<string>,
                       refused: set<Note>, id: int, u: int)
    requires Distinct(s.subs) && IsSystemAbility(s.subs, id)
    ensures Signals(s, Suspend(s, uid, reason, k, standby, order, refused), id, u)
  {
    hide SuspendAt, StandbySuspendAt, StopByKey, HasCallback, IsSystemAbility, StopsTold, HasUid;
    SuspendAtSignals(s, uid, reason, k, id, u);
    StopByKeyExact(s, k, order, refused, id, u);
  }

  lemma ReactivatedCalm(t: Turn, k: string, a: Answer, id: int, u: int)
    requires k in t.s.tasks
    ensures Calm(t.s, Reactivated(t, k, a).s, id, u)
  {
    hide Notify, Refresh, WriteTable, StopsTold, HasUid;
    var s, r := t.s, Awake(t.s.tasks[k]);
    if r.notice.id == NO_ID {
      PutCalm(s, k, r, Save(PutAwake(s, k, r)), TaskActive, r, id, u);
    } else if t.id == ILLEGAL_ID || r.notice.id !in t.seen {
      var p := Refresh(r, s.nextNote, a);
      RefreshKeepsCore(r, s.nextNote, a);
      PutCalm(s, k, p.r, Republished(t, k, r, p).s, TaskActive, r, id, u);
    } else {
      PutCalm(s, k, WithNote(r, t.text, t.id), Copied(t, k, r).s, TaskActive, r, id, u);
    }
  }

  lemma {:induction false} ReactivationsCalm(s: State, order: seq<string>, uid: int, answers: map<string, Answer>,
                                             id: int, u: int)
    ensures Calm(s, Reactivations(s, order, uid, answers).s, id, u)
  {
    hide Reactivated, StopsTold, HasUid;
    if order != [] {
      var n := |order| - 1;
      ReactivationsCalm(s, order[..n], uid, answers, id, u);
      var t, k := Reactivations(s, order[..n], uid, answers), order[n];
      if k in t.s.tasks && t.s.tasks[k].app.uid == uid && t.s.tasks[k].phase.suspended {
        ReactivatedCalm(t, k, AnswerFor(answers, k), id, u);
        CalmTrans(s, t.s, Reactivated(t, k, AnswerFor(answers, k)).s, id, u);
      }
    }
  }

  lemma InsertCalm(s: State, r: Record, s1: State, id: int, u: int)
    requires KeyOf(r) !in s1.tasks && Calm(s, s1, id, u)
    ensures Calm(s, Insert(s1, r), id, u)
  {
    hide Notify, WriteTable, KeyOf, StopsTold, HasUid;
    PutCalm(s1, KeyOf(r), r, Insert(s1, r), TaskStart, r, id, u);
    CalmTrans(s, s1, Insert(s1, r), id, u);
  }

  lemma SubmitCalm(s: State, r: Record, env: StartEnv, order: seq<string>, id: int, u: int)
    requires KeyOf(r) !in s.tasks
    ensures Calm(s, Submit(s, r, env, order).s, id, u)
  {
    hide CheckStartModes, CheckMerge, Insert, Refresh, L.TaskKey, Notify, Times, HasUid;
    if CheckStartModes(r, env) == Ok {
      match CheckMerge(s.tasks, r, order) {
        case Refuse(_) =>
        case Share(k) =>
          if k in s.tasks {
            var s1 := Put(s, k, MergeTarget(s.tasks[k], r));
            PutCalm(s, k, MergeTarget(s.tasks[k], r), s1, TaskStart, r, id, u);
            InsertCalm(s, MergeInto(r, s.tasks[k]), s1, id, u);
          }
        case Separate =>
          InsertCalm(s, r, s, id, u);
          var p := Refresh(r, s.nextNote, env.answer);
          RefreshKeepsCore(r, s.nextNote, env.answer);
          InsertCalm(s, p.r, Noted(s, p.notes).(nextNote := p.next), id, u);
      }
    }
  }

  lemma StartCalm(s: State, q: Request, env: StartEnv, order: seq<string>, id: int, u: int)
    ensures Calm(s, Start(s, q, env, order).s, id, u)
  {
    hide Submit, KeyOf, Allowed, Times, HasUid;
    var r0 := NewRecord(q);
    var r := r0.(app := r0.app.(taskId := s.nextTask + 1));
    if KeyOf(r) !in s.tasks {
      SubmitCalm(s.(nextTask := s.nextTask + 1), r, env, order, id, u);
    }
  }

  lemma SettleCalm(s: State, k: string, p: Posted, order: seq<string>, env: UpdateEnv, id: int, u: int)
    requires k in s.tasks && p.r.app == s.tasks[k].app
    ensures var s1 := Settle(s, k, p);
            && Calm(s, s1, id, u) && Calm(s, Save(s1), id, u)
            && k in s1.tasks && Calm(s, AfterUpdate(s1, k, order, env), id, u)
  {
    hide Reactivations, Notify, WriteTable, Times, HasUid;
    var s1 := Settle(s, k, p);
    PutCalm(s, k, p.r, s1, TaskUpdate, p.r, id, u);
    ReactivationsCalm(s1, order, s1.tasks[k].app.uid, env.answers, id, u);
    var s2 := if s1.tasks[k].phase.suspended then Activate(s1, s1.tasks[k].app.uid, order, env.answers) else s1;
    if k in s2.tasks {
      QuietCalm(s2, Save(Emit(s2, TaskUpdate, s2.tasks[k])), TaskUpdate, s2.tasks[k], id, u);
    }
  }

  lemma UpdateByIdCalm(s: State, caller: int, p: UpdateParam, env: UpdateEnv, order: seq<string>, id: int, u: int)
    ensures Calm(s, UpdateById(s, caller, p, env, order).s, id, u)
  {
    hide First, CheckModes, UpdateNotification, Settle, AfterUpdate, Calm;
    CalmSelf(s, id, u);
    var found := First(s.tasks, order, ByIdAndRequest(p.taskId));
    if found.Some? && found.value in s.tasks {
      var k := found.value;
      Rules.UpdateNotificationDuty(s.tasks[k], s.nextNote, p, env);
      SettleCalm(s, k, UpdateNotification(s.tasks[k], s.nextNote, p, env), order, env, id, u);
    }
  }

  lemma StoredCalm(s: State, k: string, r: Record, id: int, u: int)
    requires k in s.tasks && r.app == s.tasks[k].app
    ensures Calm(s, Put(s, k, r), id, u)
  {
    hide Calm;
    PutCalm(s, k, r, Put(s, k, r), TaskUpdate, r, id, u);
  }

  lemma UpdateByKeyCalm(s: State, k: string, p: UpdateParam, env: UpdateEnv, order: seq<string>, id: int, u: int)
    ensures Calm(s, UpdateByKey(s, k, p, env, order).s, id, u)
  {
    hide CheckModes, AfterUpdate, SameModes, LegacySubModes, LegacyPosted, Settle, Put, Calm;
    CalmSelf(s, id, u);
    if k in s.tasks {
      var r := s.tasks[k];
      Rules.LegacyDuty(r, s.nextNote, p, env.verdict);
      StoredCalm(s, k, LegacySubModes(r, p), id, u);
      SettleCalm(s, k, LegacyPosted(r, s.nextNote, p, env.verdict), order, env, id, u);
    }
  }

  lemma ProgressCalm(s: State, uid: int, taskId: int, progress: Option<ProgressInfo>, v: Verdict, order: seq<string>,
                     env: UpdateEnv,
                     id: int, u: int)
    ensures Calm(s, UpdateProgress(s, uid, taskId, progress, v, order).s, id, u)
  {
    hide First, Send, Settle, Save, AfterUpdate, StopsTold, HasUid;
    var found := First(s.tasks, order, ByIdAndUid(taskId, uid));
    if found.Some? && found.value in s.tasks {
      var r := s.tasks[found.value].(work := s.tasks[found.value].work.(progress := progress));
      Rules.SendKeepsDuty(r, s.nextNote, v);
      SettleCalm(s, found.value, Send(r, s.nextNote, v), order, env, id, u);
    }
  }

  lemma AvSessionCalm(s: State, uid: int, published: bool, v: Verdict, order: seq<string>, env: UpdateEnv, id: int,
                      u: int)
    ensures Calm(s, AvSession(s, uid, published, v, order), id, u)
  {
    hide First, Send, Settle, WriteTable, Notify, AfterUpdate, Times, HasUid;
    var found := First(s.tasks, order, OfUid(uid));
    if found.Some? && found.value in s.tasks {
      var k, r := found.value, s.tasks[found.value];
      Rules.SendKeepsDuty(r, s.nextNote, v);
      SettleCalm(s, k, Send(r, s.nextNote, v), order, env, id, u);
      if !r.phase.audioDetected {
        var r1 := r.(phase := r.phase.(audioDetected := true));
        PutCalm(s, k, r1, Put(s, k, r1), TaskUpdate, r, id, u);
      } else {
        PutCalm(s, k, NoNote(r), Save(Noted(Put(s, k, NoNote(r)), MainNote(r))), TaskUpdate, r, id, u);
      }
    }
  }

  // ---------------------------------------------------------------- every step

  lemma SubscribeTold(s: State, sub: Subscriber, id: int, u: int)
    ensures StopsTold(Subscribe(s, sub), id, u) == StopsTold(s, id, u) && Subscribe(s, sub).tasks == s.tasks
  {
    hide Snapshot;
  }

  /** The bulk cancellation of the dump command walks the whole table and collects the applications in it. */
  ghost predicate Complete(s: State, step: Step) {
    step.LoopStep? && step.job.Everything? ==> IsWalk(step.order, s.tasks) && Lists(step.job.uids, s.tasks)
  }

  /** Application-stop signalling: whichever step takes an application's task count from positive to
      zero, every subscribed system ability is told exactly once; while a task is left, nobody is told. */
  lemma StepSignals(s: State, step: Step, id: int, u: int)
    requires Distinct(s.subs) && !step.RestartStep? && Complete(s, step) && IsSystemAbility(s.subs, id)
    ensures Signals(s, Apply(s, step), id, u)
  {
    hide Start, UpdateById, UpdateByKey, UpdateProgress, StopInner, StopByContext, StopByKey, Loop, Dismiss,
      Suspend, Reactivations, AvSession, Subscribe, Unsubscribe, Without, Times, HasUid, IsSystemAbility, Lists,
      IsWalk, Snapshot;
    var noEnv := UpdateEnv({}, false, Ok, false, false, Unavailable, map[]);
    match step
    case StartStep(q, env, order) => StartCalm(s, q, env, order, id, u);
    case UpdateByIdStep(caller, p, env, order) => UpdateByIdCalm(s, caller, p, env, order, id, u);
    case UpdateByKeyStep(k, p, env, order) => UpdateByKeyCalm(s, k, p, env, order, id, u);
    case ProgressStep(uid, taskId, progress, v, order) =>
      ProgressCalm(s, uid, taskId, progress, v, order, noEnv, id, u);
    case StopStep(uid, name, abilityId, taskId, order, refused) =>
      StopInnerExact(s, uid, name, abilityId, taskId, order, refused, id, u);
    case AbilityGoneStep(uid, name, abilityId, order, refused) =>
      StopInnerExact(s, uid, name, abilityId, 0, order, refused, id, u);
    case StopByKeyStep(k, order, refused) => StopByKeyExact(s, k, order, refused, id, u);
    case LoopStep(job, order) => LoopSignals(s, job, order, id, u);
    case DismissStep(k, isSub, order) => DismissSignals(s, k, isSub, order, id, u);
    case SuspendStep(uid, reason, k, standby, order, refused) =>
      SuspendSignals(s, uid, reason, k, standby, order, refused, id, u);
    case ActiveStep(uid, standby, order, answers) =>
      ReactivationsCalm(s, order, uid, answers, id, u);
      LoopSignals(s, StandbyActive(uid), order, id, u);
    case AvSessionStep(uid, published, v, order) => AvSessionCalm(s, uid, published, v, order, noEnv, id, u);
    case AppStateStep(_, _, _) =>
    case SubscribeStep(sub) => SubscribeTold(s, sub, id, u);
    case UnsubscribeStep(unsubscribed, flags) => UnsubscribeQuiet(s, unsubscribed, flags);
    case SubscriberDiedStep(_) =>
    case EnableStep(_, _) =>
    case BannerStep =>
  }

  /** ... in every state any run can reach. */
  lemma RunSignals(steps: seq<Step>, step: Step, id: int, u: int)
    requires !step.RestartStep? && Complete(Run(INIT, steps), step)
    requires IsSystemAbility(Run(INIT, steps).subs, id)
    ensures Signals(Run(INIT, steps), Apply(Run(INIT, steps), step), id, u)
  {
    hide Inv, Apply, Complete, IsSystemAbility, Signals, Run;
    RunInv(steps, Basic);
    InvDistinct(Run(INIT, steps), Basic);
    StepSignals(Run(INIT, steps), step, id, u);
  }

  lemma InvDistinct(s: State, g: Grade)
    requires Inv(s, g)
    ensures Distinct(s.subs)
  {
  }

  lemma UnsubscribeQuiet(s: State, id: int, flags: set<Flag>)
    ensures Unsubscribe(s, id, flags).tasks == s.tasks && Unsubscribe(s, id, flags).log == s.log
  {
  }
}
