/** The manager as the object it is: fields that its methods update in place, with the loops that walk
    the table and erase from it. Each method is proved to take the abstract state where the
    specification function of its operation takes it, so that everything proved about those functions
    holds of the methods. `order` is the order in which the unordered map is walked. */
module TaskManager {
  import opened Wrappers
  import opened Json
  import opened TaskRecord
  import opened Subscribers
  import opened TaskTable
  import opened AppStop
  import opened Recovery
  import opened Reactivation
  import L = Labels

  class BgContinuousTaskMgr {
    var tasks: map<string, Record>
    var nextTask: int
    var nextNote: int
    var foreground: set<int>
    var applied: map<int, seq<nat>>
    var disabled: set<int>
    var subs: seq<Subscriber>
    var disk: Json
    /** What the subscribers have been told and the notification service has been asked. */
    ghost var log: seq<Entry>
    ghost var notes: seq<Note>

    ghost function Abs(): State
      reads this
    {
      State(tasks, nextTask, nextNote, foreground, applied, disabled, subs, disk, log, notes)
    }

    constructor ()
      ensures Abs() == INIT
    {
      tasks, nextTask, nextNote := map[], 0, NO_ID;
      foreground, applied, disabled := {}, map[], {};
      subs, disk, log, notes := [], Null, [], [];
    }

    // -------------------------------------------------------------- shared by the operations

    method OnContinuousTaskChanged(r: Record, change: Change)
      modifies this`log
      ensures log == old(log) + Notify(subs, change, r)
    {
      hide Callbacks;
      var i := 0;
      while i < |subs|
        invariant 0 <= i <= |subs|
        invariant log == old(log) + Notify(subs[..i], change, r)
      {
        assert subs[..i + 1][..i] == subs[..i];
        log := log + Callbacks(subs[i], change, r);
        i := i + 1;
      }
      assert subs[..|subs|] == subs;
    }

    method HandleAppContinuousTaskStop(uid: int)
      modifies this`log
      ensures log == if HasUid(tasks, uid) then old(log) else old(log) + NotifyAppStop(subs, uid)
    {
      if HasUid(tasks, uid) {
        return;
      }
      var i := 0;
      while i < |subs|
        invariant 0 <= i <= |subs|
        invariant log == old(log) + NotifyAppStop(subs[..i], uid)
      {
        assert subs[..i + 1][..i] == subs[..i];
        if !subs[i].hap {
          log := log + [Told(subs[i].id, OnAppStop(uid))];
        }
        i := i + 1;
      }
      assert subs[..|subs|] == subs;
    }

    method SendAudioCallBackTaskState(r: Record)
      modifies this`log
      ensures log == old(log) + NotifyAudio(subs, r)
    {
      var i := 0;
      while i < |subs|
        invariant 0 <= i <= |subs|
        invariant log == old(log) + NotifyAudio(subs[..i], r)
      {
        assert subs[..i + 1][..i] == subs[..i];
        if subs[i].hap && TaskStateFlag in subs[i].flags {
          log := log + [Told(subs[i].id, OnStop(r.app.taskId))];
        }
        i := i + 1;
      }
      assert subs[..|subs|] == subs;
    }

    method RefreshTaskRecord()
      modifies this`disk
      ensures disk == WriteTable(tasks)
    {
      disk := WriteTable(tasks);
    }

    method CancelMainNote(r: Record)
      modifies this`notes
      ensures notes == old(notes) + MainNote(r)
    {
      notes := notes + MainNote(r);
    }

    method CancelSubNote(r: Record)
      modifies this`notes
      ensures notes == old(notes) + SubNote(r)
    {
      if r.notice.subId != NO_ID && r.app.byRequest {
        notes := notes + [CancelSub(r.notice.subText, r.notice.subId)];
      }
    }

    /** The record has left the table; its notifications go when nobody else refers to the main one. */
    method CancelNotification(r: Record, refused: set<Note>) returns (status: Status)
      modifies this`notes
      ensures notes == old(notes) + SharedCancel(tasks, r)
      ensures status == CancelStatus(SharedCancel(tasks, r), refused)
    {
      status := Ok;
      if r.notice.id != NO_ID && !Referenced(tasks, r.notice.text, r.notice.id) {
        CancelMainNote(r);
        CancelSubNote(r);
        assert notes == old(notes) + (MainNote(r) + SubNote(r));
        var last := if r.notice.subId != NO_ID && r.app.byRequest then CancelSub(r.notice.subText, r.notice.subId)
                    else CancelMain(r.notice.text, r.notice.id);
        status := if last in refused then NotificationRefused else Ok;
      }
    }

    // -------------------------------------------------------------- stopping

    /** StopBackgroundRunningByTask. */
    method StopBackgroundRunningByTask(taskId: int, order: seq<string>, refused: set<Note>) returns (status: Status)
      modifies this
      ensures Reply(Abs(), status) == StopTask(old(Abs()), taskId, order, refused)
    {
      hide Notify, NotifyAppStop, HasUid, WriteTable, SharedCancel, First;
      var found := First(tasks, order, ById(taskId));
      if found.None? || found.value !in tasks {
        return AlreadyExists;
      }
      var r := tasks[found.value];
      OnContinuousTaskChanged(r, TaskCancel);
      tasks := tasks - {found.value};
      status := CancelNotification(r, refused);
      HandleAppContinuousTaskStop(r.app.uid);
      RefreshTaskRecord();
      assert Because(r, r.phase.reason) == r;
    }

    /** StopBackgroundRunningByContext. */
    method StopBackgroundRunningByContext(uid: int, name: string, abilityId: int, order: seq<string>,
                                          refused: set<Note>)
      returns (status: Status)
      modifies this
      ensures Reply(Abs(), status) == StopByContext(old(Abs()), uid, name, abilityId, order, refused)
    {
      hide StopTask;
      var ids: seq<int> := [];
      var i := 0;
      while i < |order|
        invariant 0 <= i <= |order|
        invariant ids == ContextIds(tasks, order[..i], uid, name, abilityId)
        invariant Abs() == old(Abs())
      {
        assert order[..i + 1][..i] == order[..i];
        if order[i] in tasks && InContext(tasks[order[i]], uid, name, abilityId) {
          ids := ids + [tasks[order[i]].app.taskId];
        }
        i := i + 1;
      }
      assert order[..|order|] == order;
      status := Ok;
      i := 0;
      while i < |ids| && status == Ok
        invariant 0 <= i <= |ids|
        invariant Reply(Abs(), status) == StopEach(old(Abs()), ids[..i], order, refused)
        decreases |ids| - i
      {
        assert ids[..i + 1][..i] == ids[..i];
        status := StopBackgroundRunningByTask(ids[i], order, refused);
        i := i + 1;
      }
      StopEachStops(old(Abs()), ids, i, order, refused);
    }

    /** StopBackgroundRunningInner. */
    method StopBackgroundRunningInner(uid: int, name: string, abilityId: int, taskId: int, order: seq<string>,
                                      refused: set<Note>)
      returns (status: Status)
      modifies this
      ensures Reply(Abs(), status) == StopInner(old(Abs()), uid, name, abilityId, taskId, order, refused)
    {
      hide First, StopTask, StopByContext;
      if taskId != NO_ID {
        if First(tasks, order, ById(taskId)).None? {
          return NotExist;
        }
        status := StopBackgroundRunningByTask(taskId, order, refused);
      } else {
        var found := FindContext(uid, name, abilityId, order);
        if !found {
          return NotExist;
        }
        status := StopBackgroundRunningByContext(uid, name, abilityId, order, refused);
      }
    }

    /** The search for a task of an ability. */
    method FindContext(uid: int, name: string, abilityId: int, order: seq<string>) returns (found: bool)
      ensures found <==> ContextIds(tasks, order, uid, name, abilityId) != []
    {
      var i := 0;
      while i < |order|
        invariant 0 <= i <= |order|
        invariant ContextIds(tasks, order[..i], uid, name, abilityId) == []
      {
        assert order[..i + 1][..i] == order[..i];
        if order[i] in tasks && InContext(tasks[order[i]], uid, name, abilityId) {
          ContextIdsPrefix(tasks, order, i + 1, uid, name, abilityId);
          return true;
        }
        i := i + 1;
      }
      assert order[..|order|] == order;
      return false;
    }

    /** HandleStopContinuousTask. */
    method HandleStopContinuousTask(uid: int, taskType: nat, key: string, order: seq<string>, refused: set<Note>)
      modifies this
      ensures Abs() == StopByType(old(Abs()), uid, taskType, key, order, refused)
    {
      hide Loop, StopByKey;
      if taskType == DATA_TRANSFER {
        RemoveContinuousTaskRecordByUidAndMode(uid, taskType, order);
        return;
      }
      if taskType == ALL_MODES {
        RemoveContinuousTaskRecordByUid(uid, order);
        return;
      }
      StopKeyedTask(key, order, refused);
    }

    /** ... its last part. */
    method StopKeyedTask(k: string, order: seq<string>, refused: set<Note>)
      modifies this
      ensures Abs() == StopByKey(old(Abs()), k, order, refused)
    {
      hide StopTask;
      if k in tasks {
        SetReasonFor(k, FREEZE_CANCEL);
        var _ := StopBackgroundRunningByTask(tasks[k].app.taskId, order, refused);
      }
    }

    /** SuspendContinuousTask: standby, suspension, or the stop of an application that does not listen. */
    method SuspendContinuousTask(uid: int, reason: int, key: string, standby: bool, order: seq<string>,
                                 refused: set<Note>)
      modifies this
      ensures Abs() == Suspend(old(Abs()), uid, reason, key, standby, order, refused)
    {
      hide SuspendAt, StandbySuspendAt, StopByKey, HasCallback;
      if standby {
        if HasCallback(subs, uid, SuspendFlag) {
          HandleSuspendContinuousTaskByStandby(uid, reason, key);
        }
        return;
      }
      if HasCallback(subs, uid, SuspendFlag) {
        HandleSuspendContinuousTask(uid, reason, key);
      } else {
        HandleStopContinuousTask(uid, 0, key, order, refused);
      }
    }

    /** ActiveContinuousTask. */
    method ActiveContinuousTask(uid: int, standby: bool, order: seq<string>, answers: map<string, Answer>)
      modifies this
      ensures Abs() == Active(old(Abs()), uid, standby, order, answers)
    {
      hide Activate, Loop, HasCallback;
      if standby {
        if HasCallback(subs, uid, ActiveFlag) {
          HandleActiveContinuousTaskByStandby(uid, order);
        }
        return;
      }
      HandleActiveContinuousTask(uid, order, answers);
    }

    // -------------------------------------------------------------- removal of many tasks

    /** A record's last steps: its reason is set, the subscribers are told, notifications are cancelled,
        and the entry is erased. */
    method DropTask(k: string, reason: int, main: bool, sub: bool)
      requires k in tasks
      modifies this`tasks, this`log, this`notes
      ensures var r := old(tasks[k]);
              Abs()
              == Drop(old(Abs()), k, r, reason, (if main then MainNote(r) else []) + (if sub then SubNote(r) else []))
    {
      hide Notify, MainNote, SubNote;
      ghost var r := tasks[k];
      SameNotes(r, reason);
      tasks := tasks[k := Because(tasks[k], reason)];
      OnContinuousTaskChanged(tasks[k], TaskCancel);
      if main {
        CancelMainNote(tasks[k]);
      }
      if sub {
        CancelSubNote(tasks[k]);
      }
      tasks := tasks - {k};
      assert tasks == old(tasks) - {k};
      assert notes == old(notes) + ((if main then MainNote(r) else []) + (if sub then SubNote(r) else []));
    }

    /** The end of a round that checks for an application stop. */
    method TellAndRefresh(uid: int)
      modifies this`log, this`disk
      ensures Abs() == Save(TellAppStop(old(Abs()), uid))
    {
      hide NotifyAppStop, HasUid, WriteTable;
      HandleAppContinuousTaskStop(uid);
      RefreshTaskRecord();
    }

    /** RemoveContinuousTaskRecordByUid. */
    method RemoveContinuousTaskRecordByUid(uid: int, order: seq<string>)
      modifies this
      ensures Abs() == Loop(old(Abs()), ByUid(uid), order)
    {
      hide Drop, NotifyAppStop, HasUid, WriteTable;
      var i := 0;
      while i < |order|
        invariant 0 <= i <= |order|
        invariant Abs() == Visits(old(Abs()), order[..i], ByUid(uid))
      {
        assert order[..i + 1][..i] == order[..i];
        var k := order[i];
        if k in tasks && tasks[k].app.uid == uid {
          DropTask(k, FREEZE_CANCEL, true, true);
          RefreshTaskRecord();
        }
        i := i + 1;
      }
      assert order[..|order|] == order;
      HandleAppContinuousTaskStop(uid);
    }

    /** RemoveContinuousTaskRecordByUidAndMode. */
    method RemoveContinuousTaskRecordByUidAndMode(uid: int, mode: nat, order: seq<string>)
      modifies this
      ensures Abs() == Loop(old(Abs()), ByUidAndMode(uid, mode), order)
    {
      hide Drop, NotifyAppStop, HasUid, WriteTable;
      var i := 0;
      while i < |order|
        invariant 0 <= i <= |order|
        invariant Abs() == Visits(old(Abs()), order[..i], ByUidAndMode(uid, mode))
      {
        assert order[..i + 1][..i] == order[..i];
        var k := order[i];
        if k in tasks && tasks[k].app.uid == uid && mode in tasks[k].work.modes {
          DropTask(k, FREEZE_CANCEL, true, true);
          RefreshTaskRecord();
        }
        i := i + 1;
      }
      assert order[..|order|] == order;
      HandleAppContinuousTaskStop(uid);
    }

    /** The task part of OnAppStopped. */
    method OnAppStopped(uid: int, order: seq<string>)
      modifies this
      ensures Abs() == Loop(old(Abs()), AppGone(uid), order)
    {
      hide Drop, TellAppStop, WriteTable;
      var i := 0;
      while i < |order|
        invariant 0 <= i <= |order|
        invariant Abs() == Visits(old(Abs()), order[..i], AppGone(uid))
      {
        assert order[..i + 1][..i] == order[..i];
        var k := order[i];
        if k in tasks && tasks[k].app.uid == uid {
          DropTask(k, SYSTEM_CANCEL, tasks[k].notice.id != NO_ID, true);
          TellAndRefresh(uid);
        }
        i := i + 1;
      }
      assert order[..|order|] == order;
    }

    /** OnBundleInfoChanged when application data has been cleared. */
    method OnDataCleared(uid: int, order: seq<string>)
      modifies this
      ensures Abs() == Loop(old(Abs()), Cleared(uid), order)
    {
      hide Drop, TellAppStop, WriteTable;
      var i := 0;
      while i < |order|
        invariant 0 <= i <= |order|
        invariant Abs() == Visits(old(Abs()), order[..i], Cleared(uid))
      {
        assert order[..i + 1][..i] == order[..i];
        var k := order[i];
        if k in tasks && tasks[k].app.uid == uid {
          ghost var r := tasks[k];
          DropTask(k, SYSTEM_CANCEL, true, false);
          assert MainNote(r) + [] == MainNote(r);
          TellAndRefresh(uid);
        }
        i := i + 1;
      }
      assert order[..|order|] == order;
    }

    /** ClearBgOsAccountTask. */
    method ClearBgOsAccountTask(active: seq<int>, order: seq<string>)
      modifies this
      ensures Abs() == Loop(old(Abs()), Accounts(active), order)
    {
      hide Drop, TellAppStop, WriteTable;
      var i := 0;
      while i < |order|
        invariant 0 <= i <= |order|
        invariant Abs() == Visits(old(Abs()), order[..i], Accounts(active))
      {
        assert order[..i + 1][..i] == order[..i];
        var k := order[i];
        if k in tasks && tasks[k].app.userId !in active {
          var r := tasks[k];
          DropTask(k, SYSTEM_CANCEL, true, false);
          assert MainNote(r) + [] == MainNote(r);
          TellAndRefresh(r.app.uid);
        }
        i := i + 1;
      }
      assert order[..|order|] == order;
    }

    /** HandleRemoveTaskByMode: the notification is cancelled last, after the write. */
    method HandleRemoveTaskByMode(mode: nat, order: seq<string>)
      modifies this
      ensures Abs() == Loop(old(Abs()), InnerMode(mode), order)
    {
      hide DropAndTell, SharedCancel;
      var i := 0;
      while i < |order|
        invariant 0 <= i <= |order|
        invariant Abs() == Visits(old(Abs()), order[..i], InnerMode(mode))
      {
        assert order[..i + 1][..i] == order[..i];
        var k := order[i];
        if k in tasks && tasks[k].app.inner && mode in tasks[k].work.modes {
          RemoveTaskOfMode(k);
        }
        i := i + 1;
      }
      assert order[..|order|] == order;
    }

    /** One round of it. */
    method RemoveTaskOfMode(k: string)
      requires k in tasks
      modifies this
      ensures var r := old(tasks[k]);
              Abs() == DropAndTell(old(Abs()), k, r, SYSTEM_CANCEL, SharedCancel(old(tasks) - {k}, r))
    {
      hide Notify, NotifyAppStop, HasUid, WriteTable, SharedCancel;
      var r := tasks[k];
      DropTask(k, SYSTEM_CANCEL, false, false);
      TellAndRefresh(r.app.uid);
      var _ := CancelNotification(r, {});
    }

    /** SetReason. */
    method SetReasonFor(k: string, reason: int)
      modifies this`tasks
      ensures Abs() == SetReason(old(Abs()), k, reason)
    {
      if k in tasks {
        tasks := tasks[k := Because(tasks[k], reason)];
      }
    }

    /** StopContinuousTaskByUser. */
    method StopContinuousTaskByUser(key: string, isSub: bool, order: seq<string>) returns (result: bool)
      modifies this
      ensures Abs() == Dismiss(old(Abs()), key, isSub, order) && (result <==> key in old(tasks))
    {
      hide Loop;
      SetReasonFor(key, REMOVE_NOTIFICATION_CANCEL);
      if key !in tasks {
        return false;
      }
      if tasks[key].notice.id != NO_ID {
        StopShared(tasks[key].notice.text, tasks[key].notice.id, isSub, order);
      }
      return true;
    }

    /** ... its loop: everyone who refers to the notification goes. */
    method StopShared(text: string, id: int, isSub: bool, order: seq<string>)
      modifies this
      ensures Abs() == Loop(old(Abs()), Dismissed(text, id, isSub), order)
    {
      hide Drop, TellAppStop, WriteTable;
      var i := 0;
      while i < |order|
        invariant 0 <= i <= |order|
        invariant Abs() == Visits(old(Abs()), order[..i], Dismissed(text, id, isSub))
      {
        assert order[..i + 1][..i] == order[..i];
        var k := order[i];
        if k in tasks && RefersTo(tasks[k], text, id) {
          var r := tasks[k];
          DropTask(k, REMOVE_NOTIFICATION_CANCEL, isSub, !isSub);
          assert MainNote(r) + [] == MainNote(r) && [] + SubNote(r) == SubNote(r);
          TellAndRefresh(r.app.uid);
        }
        i := i + 1;
      }
      assert order[..|order|] == order;
    }

    /** DumpCancelTask: everything, or the task under one key. `uids` is the ascending order of the set of
        applications collected on the way. */
    method DumpCancelTask(cleanAll: bool, key: string, order: seq<string>, uids: seq<int>, refused: set<Note>)
      requires cleanAll ==> IsWalk(order, tasks) && Lists(uids, tasks)
      modifies this
      ensures Abs() == if cleanAll then Loop(old(Abs()), Everything(uids), order)
                       else DumpStop(old(Abs()), key, order, refused)
    {
      hide IsWalk, Lists, Loop, StopTask;
      if cleanAll {
        CancelAll(order, uids);
      } else if key in tasks {
        var _ := StopBackgroundRunningByTask(tasks[key].app.taskId, order, refused);
      }
    }

    /** The table is cleared at the end, and then each application is checked. */
    method CancelAll(order: seq<string>, uids: seq<int>)
      requires IsWalk(order, tasks) && Lists(uids, tasks)
      modifies this
      ensures Abs() == Loop(old(Abs()), Everything(uids), order)
    {
      hide Visits, TellAll, HasUid, WriteTable;
      var all := CancelEach(order);
      tasks := map[];
      RefreshTaskRecord();
      assert forall u :: u in all <==> u in uids;
      TellEach(uids);
      EverythingSame(old(Abs()), order, [], uids);
    }

    /** Its last loop. */
    method TellEach(uids: seq<int>)
      modifies this`log
      ensures Abs() == TellAll(old(Abs()), uids)
    {
      hide NotifyAppStop, HasUid;
      var i := 0;
      while i < |uids|
        invariant 0 <= i <= |uids| && Abs() == TellAll(old(Abs()), uids[..i])
      {
        assert uids[..i + 1][..i] == uids[..i];
        HandleAppContinuousTaskStop(uids[i]);
        i := i + 1;
      }
      assert uids[..|uids|] == uids;
    }

    /** Its first loop. */
    method CancelEach(order: seq<string>) returns (left: set<int>)
      requires IsWalk(order, tasks)
      modifies this`log, this`notes
      ensures forall u :: u in left <==> HasUid(tasks, u)
      ensures Abs().(tasks := map[]) == Visits(old(Abs()), order, Everything([]))
    {
      hide Notify, HasUid, Visits, Rest, MainNote;
      ghost var s := Abs();
      NothingDone(s);
      left := {};
      var i := 0;
      while i < |order|
        invariant 0 <= i <= |order|
        invariant Visits(s, order[..i], Everything([])) == Abs().(tasks := Rest(tasks, order[..i]))
        invariant forall u :: u in left <==> exists j :: 0 <= j < i && tasks[order[j]].app.uid == u
      {
        assert order[..i + 1] == order[..i] + [order[i]];
        EverythingNext(s, order[..i], order[i], Abs());
        CancelMainNote(tasks[order[i]]);
        OnContinuousTaskChanged(tasks[order[i]], TaskCancel);
        left := left + {tasks[order[i]].app.uid};
        i := i + 1;
      }
      assert order[..|order|] == order;
      RestOfAll(tasks, order);
      UidsListed(tasks, order);
    }

    // -------------------------------------------------------------- suspending and activating

    /** HandleSuspendContinuousAudioTask. */
    method HandleSuspendContinuousAudioTask(uid: int, order: seq<string>)
      modifies this
      ensures Abs() == Loop(old(Abs()), Audio(uid), order)
    {
      hide Notify, NotifyAudio, NotifyAppStop, HasUid, WriteTable, HasCallback, AudioRound;
      var i := 0;
      while i < |order|
        invariant 0 <= i <= |order|
        invariant Abs() == Visits(old(Abs()), order[..i], Audio(uid))
      {
        assert order[..i + 1][..i] == order[..i];
        var k := order[i];
        if k in tasks && tasks[k].app.uid == uid && AUDIO_PLAYBACK in tasks[k].work.modes {
          SuspendAudioTask(k);
        }
        i := i + 1;
      }
      assert order[..|order|] == order;
      HandleAppContinuousTaskStop(uid);
    }

    /** One round of it. */
    method SuspendAudioTask(k: string)
      requires k in tasks
      modifies this
      ensures Abs() == AudioRound(old(Abs()), k, old(tasks[k]))
    {
      hide Notify, NotifyAudio, WriteTable, HasCallback;
      ghost var r := tasks[k];
      CancelMainNote(tasks[k]);
      if !HasCallback(subs, tasks[k].app.uid, SuspendFlag) {
        tasks := tasks[k := tasks[k].(phase := tasks[k].phase.(audioDetected := false))];
        SendAudioCallBackTaskState(tasks[k]);
      } else if tasks[k].phase.audioSuspends == 0 {
        tasks := tasks[k := AudioPaused(tasks[k])];
        OnContinuousTaskChanged(tasks[k], TaskSuspend);
        RefreshTaskRecord();
      } else {
        tasks := tasks[k := Because(tasks[k], FREEZE_CANCEL)];
        OnContinuousTaskChanged(tasks[k], TaskCancel);
        tasks := tasks - {k};
        assert tasks == old(tasks) - {k};
        RefreshTaskRecord();
      }
    }

    /** HandleSuspendContinuousTask. */
    method HandleSuspendContinuousTask(uid: int, reason: int, key: string)
      modifies this
      ensures Abs() == SuspendAt(old(Abs()), uid, reason, key)
    {
      hide Notify, NotifyAppStop, HasUid, WriteTable, MainNote, SubNote;
      if key !in tasks {
        return;
      }
      ghost var r := tasks[key];
      if tasks[key].app.uid == uid {
        tasks := tasks[key := SuspendRecord(tasks[key], reason)];
        OnContinuousTaskChanged(tasks[key], TaskSuspend);
        RefreshTaskRecord();
      }
      SuspendedNotes(r, reason);
      CancelMainNote(tasks[key]);
      CancelSubNote(tasks[key]);
      assert notes == old(notes) + (MainNote(r) + SubNote(r));
      HandleAppContinuousTaskStop(uid);
    }

    /** HandleSuspendContinuousTaskByStandby. */
    method HandleSuspendContinuousTaskByStandby(uid: int, reason: int, key: string)
      modifies this
      ensures Abs() == StandbySuspendAt(old(Abs()), uid, reason, key)
    {
      hide Notify, WriteTable;
      if key !in tasks || tasks[key].app.uid != uid || tasks[key].phase.suspended || tasks[key].phase.standbySuspended {
        return;
      }
      tasks := tasks[key := StandbyRecord(tasks[key], reason)];
      OnContinuousTaskChanged(tasks[key], TaskSuspend);
      RefreshTaskRecord();
    }

    /** HandleActiveContinuousTaskByStandby. */
    method HandleActiveContinuousTaskByStandby(uid: int, order: seq<string>)
      modifies this
      ensures Abs() == Loop(old(Abs()), StandbyActive(uid), order)
    {
      hide PutAwake, WriteTable, StandbyAwake;
      var i := 0;
      while i < |order|
        invariant 0 <= i <= |order|
        invariant Abs() == Visits(old(Abs()), order[..i], StandbyActive(uid))
      {
        assert order[..i + 1][..i] == order[..i];
        var k := order[i];
        if k in tasks && tasks[k].app.uid == uid && tasks[k].phase.standbySuspended {
          StoreAwake(k, StandbyAwake(tasks[k]));
          RefreshTaskRecord();
        }
        i := i + 1;
      }
      assert order[..|order|] == order;
    }

    /** A record with its new flags is stored and announced as active. */
    method StoreAwake(k: string, r: Record)
      modifies this`tasks, this`log
      ensures Abs() == PutAwake(old(Abs()), k, r)
    {
      hide Notify;
      tasks := tasks[k := r];
      OnContinuousTaskChanged(r, TaskActive);
    }

    /** HandleActiveContinuousTask. The activating branch does not advance the iterator: the next
        iteration finds the record awake and moves on. */
    method HandleActiveContinuousTask(uid: int, order: seq<string>, answers: map<string, Answer>)
      modifies this
      ensures Abs() == Activate(old(Abs()), uid, order, answers)
    {
      hide Reactivated;
      var text, id, seen := "default", ILLEGAL_ID, [];
      ghost var done := false;
      var i := 0;
      while i < |order|
        invariant 0 <= i <= |order| && (done ==> i < |order| && !IsAsleep(tasks, order[i], uid))
        invariant Turn(Abs(), text, id, seen)
               == Reactivations(old(Abs()), order[..if done then i + 1 else i], uid, answers)
        decreases |order| - i, if i < |order| && IsAsleep(tasks, order[i], uid) then 1 else 0
      {
        assert order[..i + 1][..i] == order[..i];
        if !IsAsleep(tasks, order[i], uid) {
          i := i + 1;
          done := false;
          continue;
        }
        text, id, seen := Wake(order[i], AnswerFor(answers, order[i]), text, id, seen);
        done := true;
      }
      assert order[..|order|] == order;
    }

    /** The activating branch for one record. */
    method Wake(k: string, a: Answer, text: string, id: int,
                seen: seq<int>) returns (text': string, id': int, seen': seq<int>)
      requires k in tasks
      modifies this
      ensures Turn(Abs(), text', id', seen') == Reactivated(Turn(old(Abs()), text, id, seen), k, a)
      ensures k in tasks && !tasks[k].phase.suspended
    {
      hide Notify, WriteTable, Refresh;
      ghost var r := Awake(tasks[k]);
      text', id', seen' := text, id, seen;
      tasks := tasks[k := Awake(tasks[k])];
      OnContinuousTaskChanged(tasks[k], TaskActive);
      if tasks[k].notice.id != NO_ID {
        if id == ILLEGAL_ID || tasks[k].notice.id !in seen {
          seen' := seen + [tasks[k].notice.id];
          RefreshKeepsCore(r, nextNote, a);
          var p, _ := HandleActiveNotification(tasks[k], a);
          tasks := tasks[k := p];
          assert tasks == old(tasks)[k := p];
          text', id' := tasks[k].notice.text, tasks[k].notice.id;
        } else {
          tasks := tasks[k := WithNote(tasks[k], text, id)];
          assert tasks == old(tasks)[k := WithNote(r, text, id)];
        }
      }
      RefreshTaskRecord();
    }

    // -------------------------------------------------------------- publishing

    /** PublishNotification: the counter stays advanced when the service refuses. */
    method PublishNotification(r: Record, accepted: bool) returns (r': Record, status: Status)
      modifies this`nextNote, this`notes
      ensures Delivers(Publish(r, old(nextNote), accepted), r', nextNote, status, old(notes), notes)
    {
      var id := r.notice.id;
      if id == NO_ID {
        nextNote := nextNote + 1;
        id := nextNote;
      }
      if !accepted {
        return r, NotificationRefused;
      }
      notes := notes + [Post(OwnLabel(r), id)];
      r' := WithNote(r, OwnLabel(r), id);
      status := Ok;
    }

    method PublishSubNotification(r: Record, accepted: bool) returns (r': Record, status: Status)
      modifies this`nextNote, this`notes
      ensures Delivers(PublishSub(r, old(nextNote), accepted), r', nextNote, status, old(notes), notes)
    {
      var id := r.notice.subId;
      if id == NO_ID {
        nextNote := nextNote + 1;
        id := nextNote;
      }
      if !accepted {
        return r, NotificationRefused;
      }
      var text := OwnSubLabel(r);
      notes := notes + [Post(text, id)];
      r' := r.(notice := r.notice.(subText := text, subId := id));
      status := Ok;
    }

    /** SendContinuousTaskNotification. */
    method SendContinuousTaskNotification(r: Record, v: Verdict) returns (r': Record, status: Status)
      modifies this`nextNote, this`notes
      ensures Delivers(Send(r, old(nextNote), v), r', nextNote, status, old(notes), notes)
    {
      hide Publish;
      r', status := r, Ok;
      if v.Unavailable? {
        status := NotificationUnverified;
      } else if v.EmptyText? {
        if r.notice.id != NO_ID {
          CancelMainNote(r);
          r' := NoNote(r);
        }
      } else if !v.Suppressed? {
        r', status := PublishNotification(r, v.Accepted?);
      }
    }

    /** SendLiveViewAndOtherNotification. */
    method SendLiveViewAndOtherNotification(r: Record, a: Answer) returns (r': Record, status: Status)
      modifies this`nextNote, this`notes
      ensures Delivers(SendLive(r, old(nextNote), a), r', nextNote, status, old(notes), notes)
    {
      hide Publish, PublishSub, MainNote;
      ghost var first := Publish(r, nextNote, !a.main.Rejected?);
      if a.main.Unavailable? {
        return r, NotificationUnverified;
      }
      r', status := PublishNotification(r, !a.main.Rejected?);
      if status != Ok || a.sub.EmptyText? {
        return;
      }
      if a.sub.Unavailable? {
        status := NotificationUnverified;
      } else {
        RefusedUnchanged(first.r, first.next, !a.sub.Rejected?);
        r', status := PublishSubNotification(r', !a.sub.Rejected?);
      }
      if status != Ok {
        CancelMainNote(r');
      }
      ghost var second := PublishSub(first.r, first.next, !a.sub.Rejected?);
      assert old(notes) + first.notes + second.notes == old(notes) + (first.notes + second.notes);
      assert old(notes) + first.notes + [] + MainNote(first.r) == old(notes) + (first.notes + MainNote(first.r));
    }

    /** HandleActiveNotification. */
    method HandleActiveNotification(r: Record, a: Answer) returns (r': Record, status: Status)
      modifies this`nextNote, this`notes
      ensures Delivers(Refresh(r, old(nextNote), a), r', nextNote, status, old(notes), notes)
    {
      hide Send, SendLive;
      if r.phase.suspended {
        return r, Ok;
      }
      if HasLiveViewPart(r) {
        r', status := SendLiveViewAndOtherNotification(r, a);
      } else {
        r', status := SendContinuousTaskNotification(r, a.main);
      }
    }

    // -------------------------------------------------------------- starting

    /** CheckAbilityTaskNum. */
    method CheckAbilityTaskNum(abilityId: int, order: seq<string>) returns (status: Status)
      requires IsWalk(order, tasks)
      ensures status == if |SameAbility(tasks, abilityId)| >= ABILITY_TASK_MAX_NUM then TooManyTasks else Ok
    {
      hide Elements, SameAbility;
      NoneCounted(SameAbility(tasks, abilityId));
      var taskNum := 0;
      var i := 0;
      while i < |order|
        invariant 0 <= i <= |order|
        invariant taskNum == |SameAbility(tasks, abilityId) * Elements(order[..i])|
      {
        CountNext(SameAbility(tasks, abilityId), order[..i], order[i]);
        InSameAbility(tasks, order[i], abilityId);
        assert order[..i + 1] == order[..i] + [order[i]];
        if tasks[order[i]].app.abilityId == abilityId && tasks[order[i]].app.byRequest {
          taskNum := taskNum + 1;
        }
        i := i + 1;
      }
      assert order[..|order|] == order;
      AllCounted(tasks, order, abilityId);
      status := if taskNum >= ABILITY_TASK_MAX_NUM then TooManyTasks else Ok;
    }

    /** AllowApplyContinuousTask. */
    method AllowApplyContinuousTask(r: Record, env: StartEnv, order: seq<string>) returns (status: Status)
      requires IsWalk(order, tasks)
      ensures status == Allowed(Abs(), r, env)
    {
      hide IsWalk;
      if env.preLaunch {
        return PreLaunchState;
      }
      if !r.app.byRequest {
        return Ok;
      }
      status := CheckAbilityTaskNum(r.app.abilityId, order);
      if status != Ok || r.app.inner || r.app.uid in foreground {
        return;
      }
      var checkModes: seq<nat> := [];
      if r.app.uid in applied {
        checkModes := applied[r.app.uid];
      }
      checkModes := checkModes + [AUDIO_PLAYBACK];
      if AllIn(r.work.modes, checkModes) || r.app.uid in env.reported {
        return Ok;
      }
      return OnBackground;
    }

    /** The loop over the requested modes, at a start and at both updates. */
    method CheckBgmodeTypes(configured: set<nat>, modes: seq<nat>, newApi: bool, r: Record, keeping: bool,
                            special: Status)
      returns (status: Status)
      ensures status == CheckModes(configured, modes, newApi, r, keeping, special)
    {
      hide CheckMode;
      var i := 0;
      while i < |modes|
        invariant 0 <= i <= |modes|
        invariant CheckModes(configured, modes, newApi, r, keeping, special)
               == CheckModes(configured, modes[i..], newApi, r, keeping, special)
      {
        assert modes[i..][1..] == modes[i + 1..];
        status := CheckMode(configured, modes[i], newApi, r, keeping, special);
        if status != Ok {
          return;
        }
        i := i + 1;
      }
      status := Ok;
    }

    /** DetermineMatchCombinedTaskNotifacation, up to the changes it makes to the two records. */
    method DetermineMatch(r: Record, order: seq<string>) returns (merge: Merge)
      ensures merge == MatchMerge(tasks, r, order)
    {
      ghost var q := ByIdAndUid(r.work.mergeTaskId, r.app.uid);
      var i := 0;
      while i < |order|
        invariant 0 <= i <= |order|
        invariant First(tasks, order, q) == First(tasks, order[i..], q)
      {
        assert order[i..][1..] == order[i + 1..];
        if order[i] in tasks && Matches(ByIdAndUid(r.work.mergeTaskId, r.app.uid), tasks[order[i]]) {
          var t := tasks[order[i]];
          if !t.app.combined {
            return Refuse(TargetNotCombined);
          }
          if t.notice.id == NO_ID {
            return Refuse(TargetHasNoNotification);
          }
          if !SameModes(t.work.modes, r.work.modes) || !SameModes(t.work.subModes, r.work.subModes) {
            return Refuse(ModeMismatch);
          }
          return Share(order[i]);
        }
        i := i + 1;
      }
      return Refuse(TaskIdInvalid);
    }

    /** CheckCombinedTaskNotification: the notification to share is copied into the new record and the
        target is marked; `send` says whether to publish. */
    method CheckCombinedTaskNotification(r: Record, order: seq<string>) returns (status: Status, r': Record, send: bool)
      modifies this`tasks
      ensures match CheckMerge(old(tasks), r, order)
              case Refuse(reason) => status == reason && r' == r && Abs() == old(Abs())
              case Separate => status == Ok && r' == r && send && Abs() == old(Abs())
              case Share(k) => k in old(tasks) && status == Ok && !send && r' == MergeInto(r, old(tasks[k]))
                               && Abs() == Put(old(Abs()), k, MergeTarget(old(tasks[k]), r))
    {
      hide SameModes;
      status, r', send := Ok, r, true;
      if !r.app.byRequest {
        return;
      }
      if r.app.combined && DATA_TRANSFER in r.work.modes {
        status := DataTransferNotMerged;
      } else if r.app.combined && SPECIAL_SCENARIO in r.work.modes {
        status := SpecialNotMerged;
      } else if r.work.mergeTaskId != NO_ID && !r.app.combined {
        status := CurrentNotCombined;
      } else if r.work.mergeTaskId != NO_ID {
        var merge := DetermineMatch(r, order);
        match merge {
          case Refuse(reason) =>
            status := reason;
          case Share(k) =>
            send := false;
            r' := MergeInto(r, tasks[k]);
            tasks := tasks[k := MergeTarget(tasks[k], r)];
        }
      }
    }

    /** StartBackgroundRunningSubmit. */
    method StartBackgroundRunningSubmit(r: Record, env: StartEnv, order: seq<string>) returns (status: Status)
      modifies this
      ensures Reply(Abs(), status) == Submit(old(Abs()), r, env, order)
    {
      hide CheckModes, CheckMerge, Insert, Refresh;
      if r.app.inner {
        status := if r.work.modeId == 0 || r.work.modeId > BGMODE_NUMS then InvalidMode else Ok;
      } else {
        status := CheckBgmodeTypes(env.configured, r.work.modes, r.app.newApi, r, env.keeping, env.special);
      }
      if status != Ok {
        return;
      }
      RefusalsAreErrors(tasks, r, order);
      var checked, r1, send := CheckCombinedTaskNotification(r, order);
      if checked != Ok {
        return checked;
      }
      if (!r.app.inner || r.app.innerNotify) && send {
        r1, status := HandleActiveNotification(r1, env.answer);
        if status != Ok {
          return;
        }
      }
      StoreTask(r1);
      return Ok;
    }

    /** The new record enters the table, everybody is told, and the table is written. */
    method StoreTask(r: Record)
      modifies this`tasks, this`log, this`disk
      ensures Abs() == Insert(old(Abs()), r)
    {
      hide Notify, WriteTable, KeyOf;
      tasks := tasks[KeyOf(r) := r];
      OnContinuousTaskChanged(r, TaskStart);
      RefreshTaskRecord();
    }

    /** StartBackgroundRunningInner. */
    method StartBackgroundRunningInner(q: Request, env: StartEnv, order: seq<string>) returns (status: Status)
      requires IsWalk(order, tasks)
      modifies this
      ensures Reply(Abs(), status) == Start(old(Abs()), q, env, order)
    {
      hide IsWalk, Submit, KeyOf, SameAbility, Allowed, NewRecord, WithTaskId;
      var r := NewRecord(q);
      if r.app.uid in disabled {
        return RequestsDisabled;
      }
      status := AllowApplyContinuousTask(r, env, order);
      if status != Ok {
        return;
      }
      if r.app.byRequest {
        AllowedCounts(Abs(), r, env);
      }
      nextTask := nextTask + 1;
      WithTaskIdKeeps(r, nextTask);
      status := StartAllowed(WithTaskId(r, nextTask), env, order);
    }

    /** ... once the start is allowed and the record has its id. The tasks of the ability are counted again. */
    method StartAllowed(r: Record, env: StartEnv, order: seq<string>) returns (status: Status)
      requires IsWalk(order, tasks)
      requires (r.app.byRequest ==> |SameAbility(tasks, r.app.abilityId)| < ABILITY_TASK_MAX_NUM)
      modifies this
      ensures Reply(Abs(), status)
           == if KeyOf(r) in old(tasks) then Reply(old(Abs()), AlreadyExists) else Submit(old(Abs()), r, env, order)
    {
      hide IsWalk, Submit, KeyOf, SameAbility;
      if r.app.byRequest {
        status := CheckAbilityTaskNum(r.app.abilityId, order);
        if status != Ok {
          assert false;
          return;
        }
      }
      if KeyOf(r) in tasks {
        return AlreadyExists;
      }
      status := StartBackgroundRunningSubmit(r, env, order);
    }

    // -------------------------------------------------------------- updating

    /** The end of both updates: a suspended application is reactivated, then everybody is told. */
    method FinishUpdate(k: string, env: UpdateEnv, order: seq<string>)
      requires k in tasks
      modifies this
      ensures Abs() == AfterUpdate(old(Abs()), k, order, env)
    {
      hide Notify, WriteTable, Reactivations;
      if tasks[k].phase.suspended {
        ReactivationsProgress(Abs(), order, tasks[k].app.uid, env.answers);
        HandleActiveContinuousTask(tasks[k].app.uid, order, env.answers);
      }
      OnContinuousTaskChanged(tasks[k], TaskUpdate);
      RefreshTaskRecord();
    }

    /** UpdateTaskNotification. */
    method UpdateTaskNotification(r: Record, p: UpdateParam, env: UpdateEnv) returns (r': Record, status: Status)
      modifies this`nextNote, this`notes
      ensures Delivers(UpdateNotification(r, old(nextNote), p, env), r', nextNote, status, old(notes), notes)
    {
      hide Send, SameModes;
      r' := r;
      if !env.named {
        return r, NotificationUnverified;
      }
      if !r.app.combined {
        r' := r'.(work := r'.work.(modeId := p.modeId, modes := p.modes, subModes := p.subModes));
      }
      if p.want.Some? {
        r' := r'.(work := r'.work.(want := p.want));
      }
      if r.app.combined {
        status := if !SameModes(r.work.modes, p.modes) then UpdateModeMismatch
                  else if env.refreshed then Ok else NotificationRefused;
      } else if env.verdict.EmptyText? {
        status := Ok;
      } else if r'.notice.id == NO_ID {
        r', status := SendContinuousTaskNotification(r', env.verdict);
      } else {
        status := if env.refreshed then Ok else NotificationRefused;
      }
    }

    /** UpdateBackgroundRunningByTaskIdInner. */
    method UpdateBackgroundRunningByTaskIdInner(caller: int, p: UpdateParam, env: UpdateEnv,
                                                order: seq<string>) returns (status: Status)
      modifies this
      ensures Reply(Abs(), status) == UpdateById(old(Abs()), caller, p, env, order)
    {
      hide First, CheckModes, UpdateNotification, AfterUpdate;
      if caller in disabled {
        return RequestsDisabled;
      }
      if p.taskId < 0 {
        return TaskIdInvalid;
      }
      var found := First(tasks, order, ByIdAndRequest(p.taskId));
      if found.None? || found.value !in tasks {
        return NotExist;
      }
      var k, r := found.value, tasks[found.value];
      status := CheckBgmodeTypes(env.configured, p.modes, true, r, env.keeping, env.special);
      if status != Ok {
        return;
      }
      if DATA_TRANSFER in r.work.modes || DATA_TRANSFER in p.modes {
        return DataTransferNotUpdated;
      }
      if p.progress.Some? {
        return ProgressNotAllowed;
      }
      if SPECIAL_SCENARIO in r.work.modes && p.combined {
        return SpecialNotMerged;
      }
      var r', sent := UpdateTaskNotification(r, p, env);
      tasks := tasks[k := r'];
      if sent != Ok {
        return sent;
      }
      FinishUpdate(k, env, order);
    }

    /** UpdateBackgroundRunningInner. */
    method UpdateBackgroundRunningInner(k: string, p: UpdateParam, env: UpdateEnv,
                                        order: seq<string>) returns (status: Status)
      modifies this
      ensures Reply(Abs(), status) == UpdateByKey(old(Abs()), k, p, env, order)
    {
      hide CheckModes, SameModes, AfterUpdate, Send;
      if k !in tasks {
        return NotExist;
      }
      var r := tasks[k];
      if r.app.uid in disabled {
        return RequestsDisabled;
      }
      if SameModes(r.work.modes, p.modes) {
        return Ok;
      }
      var r1 := LegacySubModes(r, p);
      status := CheckBgmodeTypes(env.configured, p.modes, true, r1, env.keeping, env.special);
      if status != Ok {
        tasks := tasks[k := r1];
        return;
      }
      var r2 := r1.(work := r1.work.(modes := p.modes, batchApi := p.batchApi));
      if !(DATA_TRANSFER in r.work.modes && DATA_TRANSFER in p.modes) {
        r2, status := SendContinuousTaskNotification(r2, env.verdict);
      }
      tasks := tasks[k := r2];
      assert Abs() == Settle(old(Abs()), k, LegacyPosted(r, old(nextNote), p, env.verdict));
      if status != Ok {
        return;
      }
      FinishUpdate(k, env, order);
    }

    /** UpdateDataTransferProgressInner. */
    method UpdateDataTransferProgressInner(uid: int, taskId: int, progress: Option<ProgressInfo>, v: Verdict,
                                           order: seq<string>)
      returns (status: Status)
      modifies this
      ensures Reply(Abs(), status) == UpdateProgress(old(Abs()), uid, taskId, progress, v, order)
    {
      hide First, Send, WriteTable;
      if taskId < 0 {
        return TaskIdInvalid;
      }
      if progress.None? {
        return ProgressNotAllowed;
      }
      var found := First(tasks, order, ByIdAndUid(taskId, uid));
      if found.None? || found.value !in tasks {
        return NotExist;
      }
      var r := tasks[found.value];
      if DATA_TRANSFER !in r.work.modes {
        return NotDataTransfer;
      }
      r, status := SendContinuousTaskNotification(r.(work := r.work.(progress := progress)), v);
      tasks := tasks[found.value := r];
      if status == Ok {
        RefreshTaskRecord();
      }
    }

    /** AVSessionNotifyUpdateNotificationInner. */
    method AVSessionNotifyUpdateNotificationInner(uid: int, isPublish: bool, v: Verdict, order: seq<string>)
      modifies this
      ensures Abs() == AvSession(old(Abs()), uid, isPublish, v, order)
    {
      hide First, Send, WriteTable;
      var found := First(tasks, order, OfUid(uid));
      if found.None? || found.value !in tasks {
        return;
      }
      var k, r := found.value, tasks[found.value];
      if !r.phase.audioDetected {
        tasks := tasks[k := r.(phase := r.phase.(audioDetected := true))];
        return;
      }
      if !isPublish && AVSESSION_SUBMODE in r.work.subModes {
        return;
      }
      if !isPublish && r.work.modes == [AUDIO_PLAYBACK] {
        Resend(k, v);
        return;
      }
      if DATA_TRANSFER !in r.work.modes {
        if v.EmptyText? {
          CancelMainNote(r);
          tasks := tasks[k := NoNote(r)];
        }
        RefreshTaskRecord();
      }
    }

    /** CancelBgTaskNotificationInner: the application shows a live view of its own. */
    method CancelBgTaskNotification(uid: int, order: seq<string>)
      modifies this
      ensures Abs() == Loop(old(Abs()), LiveViewShown(uid), order)
    {
      hide WriteTable, MainNote;
      var i := 0;
      while i < |order|
        invariant 0 <= i <= |order|
        invariant Abs() == Visits(old(Abs()), order[..i], LiveViewShown(uid))
      {
        assert order[..i + 1][..i] == order[..i];
        var k := order[i];
        if k in tasks && tasks[k].app.uid == uid && tasks[k].notice.id != NO_ID && OnlyLocationView(tasks[k]) {
          CancelMainNote(tasks[k]);
          tasks := tasks[k := NoNote(tasks[k])];
          RefreshTaskRecord();
        }
        i := i + 1;
      }
      assert order[..|order|] == order;
    }

    /** SendNotificationByLiveViewCancelInner: the live view is gone. */
    method SendNotificationByLiveViewCancel(uid: int, order: seq<string>, answers: map<string, Answer>)
      modifies this
      ensures Abs() == Loop(old(Abs()), LiveViewGone(uid, answers), order)
    {
      hide WriteTable, Send, Settle;
      var i := 0;
      while i < |order|
        invariant 0 <= i <= |order|
        invariant Abs() == Visits(old(Abs()), order[..i], LiveViewGone(uid, answers))
      {
        assert order[..i + 1][..i] == order[..i];
        var k := order[i];
        if k in tasks && tasks[k].app.uid == uid && tasks[k].notice.id == NO_ID {
          Resend(k, AnswerFor(answers, k).main);
        }
        i := i + 1;
      }
      assert order[..|order|] == order;
    }

    /** The notification of one record is sent again, and the table is written. */
    method Resend(k: string, v: Verdict)
      requires k in tasks
      modifies this
      ensures Abs() == Save(Settle(old(Abs()), k, Send(old(tasks[k]), old(nextNote), v)))
    {
      hide Send, WriteTable;
      var r, _ := SendContinuousTaskNotification(tasks[k], v);
      tasks := tasks[k := r];
      RefreshTaskRecord();
    }

    /** SendNotificationByDeteTaskInner, for the keys in `order`. */
    method SendNotificationByDeteTask(order: seq<string>, answers: map<string, Answer>)
      modifies this
      ensures Abs() == Loop(old(Abs()), Republish(answers), order)
    {
      hide Refresh, Settle;
      var i := 0;
      while i < |order|
        invariant 0 <= i <= |order|
        invariant Abs() == Visits(old(Abs()), order[..i], Republish(answers))
      {
        assert order[..i + 1][..i] == order[..i];
        var k := order[i];
        if k in tasks {
          Reissue(k, AnswerFor(answers, k));
        }
        i := i + 1;
      }
      assert order[..|order|] == order;
    }

    /** One record is published again, unless it is suspended. */
    method Reissue(k: string, a: Answer)
      requires k in tasks
      modifies this
      ensures Abs() == if old(tasks[k]).phase.suspended then old(Abs())
                       else Settle(old(Abs()), k, Refresh(old(tasks[k]), old(nextNote), a))
    {
      hide Refresh;
      if tasks[k].phase.suspended {
        SuspendedStays(tasks[k], nextNote, a);
      }
      var r, _ := HandleActiveNotification(tasks[k], a);
      tasks := tasks[k := r];
      assert old(tasks[k]).phase.suspended ==> tasks == old(tasks);
    }

    // -------------------------------------------------------------- subscribers

    /** AddSubscriberInner; the subscriber then reads the running tasks. */
    method AddSubscriber(sub: Subscriber)
      modifies this`subs, this`log
      ensures Abs() == Subscribe(old(Abs()), sub)
    {
      if Known(subs, sub.id) {
        subs := Widen(subs, sub);
      } else {
        subs := subs + [sub];
        log := log + [Joined(sub.id, Snapshot(tasks))];
      }
    }

    /** RemoveSubscriberInner. */
    method RemoveSubscriber(id: int, flags: set<Flag>)
      modifies this`subs
      ensures Abs() == Unsubscribe(old(Abs()), id, flags)
    {
      if StillNeeded(subs, id, flags) {
        subs := Narrow(subs, id, flags);
      } else {
        OnRemoteSubscriberDied(id);
      }
    }

    /** OnRemoteSubscriberDiedInner. */
    method OnRemoteSubscriberDied(id: int)
      modifies this`subs
      ensures subs == Without(old(subs), id)
    {
      var left: seq<Subscriber> := [];
      var i := 0;
      while i < |subs|
        invariant 0 <= i <= |subs| && subs == old(subs)
        invariant left == Without(subs[..i], id)
      {
        assert subs[..i + 1][..i] == subs[..i];
        if subs[i].id != id {
          left := left + [subs[i]];
        }
        i := i + 1;
      }
      assert subs[..|subs|] == subs;
      subs := left;
    }

    // -------------------------------------------------------------- foreground and background

    /** Modes not collected yet, one by one. */
    static method CollectMore(acc: seq<nat>, modes: seq<nat>) returns (all: seq<nat>)
      ensures all == AddModes(acc, modes)
    {
      all := acc;
      var i := 0;
      while i < |modes|
        invariant 0 <= i <= |modes|
        invariant all == AddModes(acc, modes[..i])
      {
        assert modes[..i + 1][..i] == modes[..i];
        if modes[i] !in all {
          all := all + [modes[i]];
        }
        i := i + 1;
      }
      assert modes[..|modes|] == modes;
    }

    /** OnAppStateChanged. */
    method OnAppStateChanged(uid: int, toForeground: bool, order: seq<string>)
      modifies this`foreground, this`applied
      ensures Abs() == AppState(old(Abs()), uid, toForeground, order)
    {
      hide AddModes;
      if toForeground {
        foreground := foreground + {uid};
        return;
      }
      foreground := foreground - {uid};
      applied := applied - {uid};
      if tasks == map[] {
        return;
      }
      var modes: seq<nat> := [];
      var i := 0;
      while i < |order|
        invariant 0 <= i <= |order|
        invariant modes == CollectModes(tasks, order[..i], uid)
        invariant foreground == old(foreground) - {uid} && applied == old(applied) - {uid}
      {
        assert order[..i + 1][..i] == order[..i];
        if order[i] in tasks && tasks[order[i]].app.uid == uid {
          modes := CollectMore(modes, tasks[order[i]].work.modes);
        }
        i := i + 1;
      }
      assert order[..|order|] == order;
      applied := applied[uid := modes];
      assert applied == old(applied)[uid := modes];
    }

    // -------------------------------------------------------------- queries

    /** GetContinuousTaskAppsInner: the records, in the order of the map. */
    method GetContinuousTaskApps(uid: int, includeSuspended: bool, order: seq<string>) returns (list: seq<Record>)
      ensures list == Listed(tasks, order, uid, includeSuspended)
    {
      list := [];
      var i := 0;
      while i < |order|
        invariant 0 <= i <= |order|
        invariant list == Listed(tasks, order[..i], uid, includeSuspended)
      {
        assert order[..i + 1][..i] == order[..i];
        if order[i] in tasks && (uid == NO_ID || uid == tasks[order[i]].app.uid)
           && (!tasks[order[i]].phase.suspended || includeSuspended) {
          list := list + [tasks[order[i]]];
        }
        i := i + 1;
      }
      assert order[..|order|] == order;
    }

    /** EnableContinuousTaskRequest. */
    method EnableContinuousTaskRequest(uid: int, enable: bool)
      modifies this`disabled
      ensures disabled == if enable then old(disabled) - {uid} else old(disabled) + {uid}
    {
      disabled := if enable then disabled - {uid} else disabled + {uid};
    }

    // -------------------------------------------------------------- restart

    /** The object of a new process: everything but the file is at its initial value. */
    method Reset()
      modifies this
      ensures Abs() == INIT.(disk := old(disk), log := old(log), notes := old(notes))
    {
      tasks, nextTask, nextNote := map[], 0, NO_ID;
      foreground, applied, disabled, subs := {}, map[], {}, [];
    }

    /** HandlePersistenceData, on a new object. */
    method HandlePersistenceData(alive: Option<set<int>>, reported: Option<set<int>>, order: seq<string>,
                                 answers: map<string, Answer>)
      requires Abs() == INIT.(disk := disk, log := log, notes := notes) && IsWalk(order, ReadTable(disk))
      modifies this
      ensures Abs() == Restart(old(Abs()), alive, reported, order, answers)
    {
      hide IsWalk, ReadTable, WriteTable, RestoreRounds, MaxTaskId, MaxNoteId, Rebuild;
      tasks := ReadTable(disk);
      if alive.None? {
        return;
      }
      CheckPersistenceData(alive.value, order, answers);
      RefreshTaskRecord();
      RestoreApplyRecord(reported, order);
    }

    /** CheckPersistenceData: the maxima cover the records that are dropped. */
    method CheckPersistenceData(alive: set<int>, order: seq<string>, answers: map<string, Answer>)
      requires IsWalk(order, tasks)
      modifies this
      ensures var s1 := RestoreRounds(old(Abs()), order, alive, answers);
              var t, n := MaxTaskId(old(tasks), order), MaxNoteId(old(tasks), order);
              Abs()
              == s1.(nextTask := if t != -1 then t else s1.nextTask, nextNote := if n != -1 then n else s1.nextNote)
    {
      hide RestoreRound, RestoreRounds, MaxTaskId, MaxNoteId;
      NothingRestored(Abs(), alive, answers);
      var maxNote, maxTask := -1, -1;
      var i := 0;
      while i < |order|
        invariant 0 <= i <= |order|
        invariant Abs() == RestoreRounds(old(Abs()), order[..i], alive, answers)
        invariant forall j :: i <= j < |order| ==> order[j] in tasks && tasks[order[j]] == old(tasks)[order[j]]
        invariant maxTask == MaxTaskId(old(tasks), order[..i]) && maxNote == MaxNoteId(old(tasks), order[..i])
      {
        RestoreSnoc(old(Abs()), order, i, alive, answers);
        var k := order[i];
        if tasks[k].notice.id > maxNote {
          maxNote := tasks[k].notice.id;
        }
        if tasks[k].app.taskId > maxTask {
          maxTask := tasks[k].app.taskId;
        }
        RestoreTask(k, alive, answers);
        i := i + 1;
      }
      assert order[..|order|] == order;
      if maxNote != -1 {
        nextNote := maxNote;
      }
      if maxTask != -1 {
        nextTask := maxTask;
      }
    }

    /** One round of it: republish, or drop the record of a dead process. */
    method RestoreTask(k: string, alive: set<int>, answers: map<string, Answer>)
      requires k in tasks
      modifies this
      ensures Abs() == RestoreRound(old(Abs()), k, alive, answers)
      ensures forall j :: j in old(tasks) && j != k ==> j in tasks && tasks[j] == old(tasks)[j]
    {
      hide Refresh, SharedCancel;
      var r := tasks[k];
      if r.app.pid in alive {
        if r.notice.id == NO_ID {
          return;
        }
        var r', _ := HandleActiveNotification(r, AnswerFor(answers, k));
        tasks := tasks[k := r'];
      } else {
        tasks := tasks - {k};
        var _ := CancelNotification(r, {});
      }
    }

    /** RestoreApplyRecord. */
    method RestoreApplyRecord(reported: Option<set<int>>, order: seq<string>)
      modifies this`foreground, this`applied
      ensures Abs() == RestoreApplied(old(Abs()), reported, order)
    {
      hide AddModes;
      foreground := {};
      if reported.None? {
        return;
      }
      foreground := reported.value;
      applied := map[];
      var i := 0;
      while i < |order|
        invariant 0 <= i <= |order|
        invariant applied == Rebuild(tasks, order[..i]) && foreground == reported.value
      {
        assert order[..i + 1][..i] == order[..i];
        if order[i] in tasks {
          var r := tasks[order[i]];
          var modes := r.work.modes;
          if r.app.uid in applied {
            modes := CollectMore(applied[r.app.uid], r.work.modes);
          }
          applied := applied[r.app.uid := modes];
        }
        i := i + 1;
      }
      assert order[..|order|] == order;
    }
  }

  /** The records a query returns. */
  function Listed(tasks: map<string, Record>, order: seq<string>, uid: int, includeSuspended: bool): seq<Record> {
    if order == [] then []
    else
      var n := |order| - 1;
      Listed(tasks, order[..n], uid, includeSuspended)
      + if order[n] in tasks && (uid == NO_ID || uid == tasks[order[n]].app.uid)
           && (!tasks[order[n]].phase.suspended || includeSuspended)
        then [tasks[order[n]]] else []
  }

  lemma {:induction false} ListedIs(tasks: map<string, Record>, order: seq<string>, uid: int, includeSuspended: bool,
                                    r: Record)
    ensures r in Listed(tasks, order, uid, includeSuspended)
       <==> exists k :: k in order && k in tasks && tasks[k] == r && (uid == NO_ID || uid == r.app.uid)
                        && (!r.phase.suspended || includeSuspended)
  {
    if order != [] {
      var n := |order| - 1;
      ListedIs(tasks, order[..n], uid, includeSuspended, r);
      assert order == order[..n] + [order[n]];
    }
  }

  /** The query a new subscriber starts from returns exactly the ids of the running tasks. */
  lemma ListedIds(tasks: map<string, Record>, order: seq<string>, taskId: int)
    requires IsWalk(order, tasks)
    ensures taskId in Snapshot(tasks) <==> exists r :: r in Listed(tasks, order, NO_ID, false) && r.app.taskId == taskId
  {
    hide Listed;
    if taskId in Snapshot(tasks) {
      var k :| k in tasks && !tasks[k].phase.suspended && tasks[k].app.taskId == taskId;
      ListedIs(tasks, order, NO_ID, false, tasks[k]);
    }
    if r :| r in Listed(tasks, order, NO_ID, false) && r.app.taskId == taskId {
      ListedIs(tasks, order, NO_ID, false, r);
    }
  }

  /** The table without these keys. */
  function Rest(tasks: map<string, Record>, done: seq<string>): map<string, Record> {
    map k | k in tasks && k !in done :: tasks[k]
  }

  lemma NothingDone(s: State)
    ensures Rest(s.tasks, []) == s.tasks && Visits(s, [], Everything([])) == s
  {
  }

  lemma RestOfAll(tasks: map<string, Record>, order: seq<string>)
    requires IsWalk(order, tasks)
    ensures Rest(tasks, order) == map[]
  {
  }

  lemma RestSnoc(tasks: map<string, Record>, done: seq<string>, k: string)
    requires k in tasks && k !in done
    ensures Rest(tasks, done + [k]) == Rest(tasks, done) - {k} && k in Rest(tasks, done)
    ensures Rest(tasks, done)[k] == tasks[k]
  {
  }

  lemma EverythingSnoc(s: State, done: seq<string>, k: string)
    requires k in Visits(s, done, Everything([])).tasks
    ensures var v := Visits(s, done, Everything([]));
            Visits(s, done + [k], Everything([]))
            == Drop(v, k, v.tasks[k], v.tasks[k].phase.reason, MainNote(v.tasks[k]))
  {
    hide Drop, MainNote;
    assert (done + [k])[..|done|] == done;
  }

  lemma DropKeepsReason(s: State, k: string)
    requires k in s.tasks
    ensures var r := s.tasks[k];
            Drop(s, k, r, r.phase.reason, MainNote(r))
            == s.(tasks := s.tasks - {k}, log := s.log + Notify(s.subs, TaskCancel, r), notes := s.notes + MainNote(r))
  {
    hide Notify, MainNote;
    assert Because(s.tasks[k], s.tasks[k].phase.reason) == s.tasks[k];
  }

  /** One more task cancelled, in the loop that erases and in the one that leaves the erasing for later. */
  lemma EverythingNext(s: State, done: seq<string>, k: string, now: State)
    requires k in s.tasks && k !in done && Visits(s, done, Everything([])) == now.(tasks := Rest(s.tasks, done))
    ensures Visits(s, done + [k], Everything([]))
         == now.(tasks := Rest(s.tasks, done + [k]), log := now.log + Notify(now.subs, TaskCancel, s.tasks[k]),
                 notes := now.notes + MainNote(s.tasks[k]))
  {
    hide Notify, Rest, MainNote, Visits, Drop;
    RestSnoc(s.tasks, done, k);
    EverythingSnoc(s, done, k);
    DropKeepsReason(Visits(s, done, Everything([])), k);
  }

  lemma UidsListed(tasks: map<string, Record>, order: seq<string>)
    requires IsWalk(order, tasks)
    ensures forall u :: HasUid(tasks, u) <==> exists j :: 0 <= j < |order| && tasks[order[j]].app.uid == u
  {
    forall u | HasUid(tasks, u) ensures exists j :: 0 <= j < |order| && tasks[order[j]].app.uid == u {
      var k :| k in tasks && tasks[k].app.uid == u;
      assert k in order;
    }
    assert forall j :: 0 <= j < |order| ==> order[j] in tasks;
  }

  lemma {:induction false} EverythingSame(s: State, order: seq<string>, uids: seq<int>, uids': seq<int>)
    ensures Visits(s, order, Everything(uids)) == Visits(s, order, Everything(uids'))
  {
    hide Drop;
    if order != [] {
      EverythingSame(s, order[..|order| - 1], uids, uids');
    }
  }

  /** The record, the counter, the result and the requests to the service are as this outcome says. */
  predicate Delivers(p: Posted, r: Record, next: int, status: Status, before: seq<Note>, after: seq<Note>) {
    r == p.r && next == p.next && status == p.status && after == before + p.notes
  }

  function Elements(order: seq<string>): set<string> {
    set k | k in order
  }

  lemma CountNext(all: set<string>, done: seq<string>, k: string)
    requires k !in done
    ensures |all * Elements(done + [k])| == |all * Elements(done)| + if k in all then 1 else 0
  {
    if k in all {
      assert all * Elements(done + [k]) == all * Elements(done) + {k};
    } else {
      assert all * Elements(done + [k]) == all * Elements(done);
    }
  }

  lemma NoneCounted(all: set<string>)
    ensures all * Elements([]) == {}
  {
  }

  lemma AllCounted(tasks: map<string, Record>, order: seq<string>, abilityId: int)
    requires IsWalk(order, tasks)
    ensures SameAbility(tasks, abilityId) * Elements(order) == SameAbility(tasks, abilityId)
  {
  }

  lemma InSameAbility(tasks: map<string, Record>, k: string, abilityId: int)
    requires k in tasks
    ensures k in SameAbility(tasks, abilityId) <==> tasks[k].app.abilityId == abilityId && tasks[k].app.byRequest
  {
  }

  lemma AllowedCounts(s: State, r: Record, env: StartEnv)
    requires Allowed(s, r, env) == Ok && r.app.byRequest
    ensures |SameAbility(s.tasks, r.app.abilityId)| < ABILITY_TASK_MAX_NUM
  {
  }

  lemma WithTaskIdKeeps(r: Record, taskId: int)
    ensures WithTaskId(r, taskId).app.byRequest == r.app.byRequest
    ensures WithTaskId(r, taskId).app.abilityId == r.app.abilityId
  {
  }

  lemma NothingRestored(s: State, alive: set<int>, answers: map<string, Answer>)
    ensures RestoreRounds(s, [], alive, answers) == s && MaxTaskId(s.tasks, []) == -1 && MaxNoteId(s.tasks, []) == -1
  {
  }

  lemma RestoreSnoc(s: State, order: seq<string>, i: nat, alive: set<int>, answers: map<string, Answer>)
    requires i < |order| && order[i] in s.tasks
    ensures RestoreRounds(s, order[..i + 1], alive, answers)
         == RestoreRound(RestoreRounds(s, order[..i], alive, answers), order[i], alive, answers)
    ensures var r, t, n := s.tasks[order[i]], MaxTaskId(s.tasks, order[..i]), MaxNoteId(s.tasks, order[..i]);
            && MaxTaskId(s.tasks, order[..i + 1]) == (if r.app.taskId > t then r.app.taskId else t)
            && MaxNoteId(s.tasks, order[..i + 1]) == (if r.notice.id > n then r.notice.id else n)
  {
    hide RestoreRound;
    assert order[..i + 1][..i] == order[..i];
  }

  lemma RefusalsAreErrors(tasks: map<string, Record>, r: Record, order: seq<string>)
    ensures CheckMerge(tasks, r, order).Refuse? ==> CheckMerge(tasks, r, order).status != Ok
    ensures CheckMerge(tasks, r, order).Share? ==> r.app.byRequest
  {
    hide First, SameModes;
  }

  /** The record under this key belongs to the application and is suspended. */
  predicate IsAsleep(tasks: map<string, Record>, k: string, uid: int) {
    k in tasks && tasks[k].app.uid == uid && tasks[k].phase.suspended
  }

  lemma SuspendedNotes(r: Record, reason: int)
    ensures MainNote(SuspendRecord(r, reason)) == MainNote(r) && SubNote(SuspendRecord(r, reason)) == SubNote(r)
  {
  }

  lemma SuspendedStays(r: Record, next: int, a: Answer)
    requires r.phase.suspended
    ensures Refresh(r, next, a) == Posted(r, next, [], Ok)
  {
  }

  lemma RefusedUnchanged(r: Record, next: int, accepted: bool)
    ensures PublishSub(r, next, accepted).status != Ok ==>
              PublishSub(r, next, accepted).r == r && PublishSub(r, next, accepted).notes == []
  {
  }

  lemma SameNotes(r: Record, reason: int)
    ensures MainNote(Because(r, reason)) == MainNote(r) && SubNote(Because(r, reason)) == SubNote(r)
  {
  }

  lemma {:induction false} ContextIdsPrefix(tasks: map<string, Record>, order: seq<string>, i: nat, uid: int,
                                            name: string, abilityId: int)
    requires i <= |order| && ContextIds(tasks, order[..i], uid, name, abilityId) != []
    ensures ContextIds(tasks, order, uid, name, abilityId) != []
    decreases |order|
  {
    if i == |order| {
      assert order[..i] == order;
    } else {
      assert order[..|order| - 1][..i] == order[..i];
      ContextIdsPrefix(tasks, order[..|order| - 1], i, uid, name, abilityId);
    }
  }

  /** A failing stop ends the loop: the remaining ids change nothing. */
  lemma {:induction false} StopEachStops(s: State, ids: seq<int>, i: nat, order: seq<string>, refused: set<Note>)
    requires i <= |ids| && (i == |ids| || StopEach(s, ids[..i], order, refused).status != Ok)
    ensures StopEach(s, ids, order, refused) == StopEach(s, ids[..i], order, refused)
    decreases |ids|
  {
    hide StopTask;
    if i == |ids| {
      assert ids[..i] == ids;
    } else {
      assert ids[..|ids| - 1][..i] == ids[..i];
      StopEachStops(s, ids[..|ids| - 1], i, order, refused);
    }
  }
}
