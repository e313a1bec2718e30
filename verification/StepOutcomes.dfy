/** What stops, suspensions, activations, subscriptions, moves and restarts do, in the fields of records and
    subscribers. */
module StepOutcomes {
  import opened Wrappers
  import opened TaskRecord
  import opened Subscribers
  import opened TaskTable
  import opened Invariants
  import opened Reachability
  import opened Stopping
  import opened Hearing
  import opened Publishing
  import opened LoopOutcomes
  import opened Background

  // ---------------------------------------------------------------- stops

  /** The last reference to a shown main notification went with the record. */
  ghost predicate WasLast(t: Table, r: Record) {
    r.notice.id != -1 && forall j :: j in t ==> t[j].notice.id != r.notice.id || t[j].notice.text != r.notice.text
  }

  /** The cancel that decides the answer: that of the additional notification if there is one, else of the main one. */
  function LastCancel(r: Record): Note {
    if r.app.byRequest && r.notice.subId != -1 then CancelSub(r.notice.subText, r.notice.subId)
    else CancelMain(r.notice.text, r.notice.id)
  }

  /** A stopped task is gone, the others are as they were, the file is written, and those who are due it are told of
      the stop with the reason noted in the record. The answer is an error exactly when the last cancel was refused. */
  ghost predicate IsStopped(s: State, reply: Reply, k: string, r: Record, refused: set<Note>, sub: int, c: Callback) {
    && reply.s.tasks == s.tasks - {k} && reply.s.disk == WriteTable(reply.s.tasks) && reply.s.subs == s.subs
    && reply.status == (if WasLast(s.tasks - {k}, r) && LastCancel(r) in refused then NotificationRefused else Ok)
    && (!c.OnAppStop? ==>
          Times(reply.s.log, Told(sub, c)) == Times(s.log, Told(sub, c)) + One(SomeDue(s.subs, TaskCancel, r, sub, c)))
  }

  lemma WasLastIs(t: Table, r: Record)
    ensures WasLast(t, r) <==> LastReference(t, r)
  {
  }

  lemma CancelsEnd(t: Table, r: Record, refused: set<Note>)
    ensures CancelStatus(SharedCancel(t, r), refused)
         == if WasLast(t, r) && LastCancel(r) in refused then NotificationRefused else Ok
  {
    WasLastIs(t, r);
  }

  lemma StopAtOutcome(s: State, k: string, refused: set<Note>, sub: int, c: Callback)
    requires k in s.tasks && Distinct(s.subs)
    ensures IsStopped(s, StopAt(s, k, refused), k, s.tasks[k], refused, sub, c)
  {
    hide SharedCancel, CancelStatus, Notify, TellAppStop, Times, WriteTable, SomeDue, WasLast;
    var r := s.tasks[k];
    var notes := SharedCancel(s.tasks - {k}, r);
    CancelsEnd(s.tasks - {k}, r, refused);
    assert Because(r, r.phase.reason) == r;
    var dropped := Drop(s, k, r, r.phase.reason, notes);
    NotifyDue(s.subs, TaskCancel, r, sub, c);
    TimesConcat(s.log, Notify(s.subs, TaskCancel, r), Told(sub, c));
    TellFacts(dropped, r.app.uid);
    if !c.OnAppStop? {
      TellAdds(dropped, r.app.uid, sub, c);
    }
  }

  lemma TellFacts(s: State, uid: int)
    ensures TellAppStop(s, uid).tasks == s.tasks && TellAppStop(s, uid).subs == s.subs
    ensures TellAppStop(s, uid).notes == s.notes && TellAppStop(s, uid).disk == s.disk
  {
    hide HasUid, NotifyAppStop;
  }

  /** A stop by task id. */
  lemma StopByIdOutcome(s: State, uid: int, name: string, abilityId: int, taskId: int, order: seq<string>,
                        refused: set<Note>, k: string, sub: int, c: Callback)
    requires FreshIds(s.tasks, s.nextTask) && Distinct(s.subs) && k in order && k in s.tasks
    requires s.tasks[k].app.taskId == taskId
    ensures IsStopped(s, StopInner(s, uid, name, abilityId, taskId, order, refused), k, s.tasks[k], refused, sub, c)
    ensures IsStopped(s, StopTask(s, taskId, order, refused), k, s.tasks[k], refused, sub, c)
  {
    hide First, FreshIds, StopAt, IsStopped;
    PositiveTask(s, k);
    FirstIs(s.tasks, order, ById(taskId), k, s.nextTask);
    StopAtOutcome(s, k, refused, sub, c);
  }

  lemma PositiveTask(s: State, k: string)
    requires FreshIds(s.tasks, s.nextTask) && k in s.tasks
    ensures s.tasks[k].app.taskId >= 1
  {
  }

  /** A stop that matches nothing answers so and changes nothing. */
  lemma StopNothing(s: State, uid: int, name: string, abilityId: int, taskId: int, order: seq<string>,
                    refused: set<Note>)
    requires if taskId != -1 then forall k :: k in s.tasks ==> s.tasks[k].app.taskId != taskId
             else forall k :: k in s.tasks ==>
               s.tasks[k].app.uid != uid || s.tasks[k].app.abilityName != name || s.tasks[k].app.abilityId != abilityId
    ensures StopInner(s, uid, name, abilityId, taskId, order, refused) == Reply(s, NotExist)
  {
    hide First, ContextIds, StopTask, StopByContext;
    FirstFinds(s.tasks, order, ById(taskId));
    if taskId == -1 {
      NobodyInContext(s.tasks, order, uid, name, abilityId);
    }
  }

  lemma {:induction false} NobodyInContext(t: Table, order: seq<string>, uid: int, name: string, abilityId: int)
    requires forall k :: k in t ==>
               t[k].app.uid != uid || t[k].app.abilityName != name || t[k].app.abilityId != abilityId
    ensures ContextIds(t, order, uid, name, abilityId) == []
  {
    if order != [] {
      NobodyInContext(t, order[..|order| - 1], uid, name, abilityId);
    }
  }

  /** In a series of stops, an id that is gone ends it with an error and changes nothing. */
  lemma StopTaskGone(s: State, taskId: int, order: seq<string>, refused: set<Note>)
    requires forall k :: k in s.tasks ==> s.tasks[k].app.taskId != taskId
    ensures StopTask(s, taskId, order, refused) == Reply(s, AlreadyExists)
  {
    hide First;
    FirstFinds(s.tasks, order, ById(taskId));
  }

  /** A stop by ability that succeeds leaves exactly the tasks of other abilities, as they were. */
  lemma StopByAbilityLeaves(s: State, uid: int, name: string, abilityId: int, order: seq<string>, refused: set<Note>,
                            k: string)
    requires FreshIds(s.tasks, s.nextTask) && IsWalk(order, s.tasks)
    requires StopInner(s, uid, name, abilityId, -1, order, refused).status == Ok
    ensures var t' := StopInner(s, uid, name, abilityId, -1, order, refused).s.tasks;
            && (k in t' <==> k in s.tasks
                             && (s.tasks[k].app.uid != uid || s.tasks[k].app.abilityName != name
                                 || s.tasks[k].app.abilityId != abilityId))
            && (k in t' ==> t'[k] == s.tasks[k])
  {
    hide StopEach, ContextIds, First, StopTask;
    var ids := ContextIds(s.tasks, order, uid, name, abilityId);
    ContextIdsIs(s.tasks, order, uid, name, abilityId);
    StopEachLeaves(s, ids, order, refused);
    if k in s.tasks && s.tasks[k].app.taskId in ids {
      var j :| j in s.tasks && j in order && s.tasks[j].app.taskId == s.tasks[k].app.taskId
               && InContext(s.tasks[j], uid, name, abilityId);
      assert j == k;
    }
  }

  /** A stop of the task under a key, because the system freezes the application. */
  lemma StopByKeyOutcome(s: State, k: string, order: seq<string>, refused: set<Note>, sub: int, c: Callback)
    requires FreshIds(s.tasks, s.nextTask) && Distinct(s.subs) && k in order && !c.OnAppStop?
    ensures var s' := StopByKey(s, k, order, refused);
            if k !in s.tasks then s' == s
            else
              var r := s.tasks[k].(phase := s.tasks[k].phase.(reason := 2));
              && s'.tasks == s.tasks - {k} && s'.disk == WriteTable(s'.tasks)
              && Times(s'.log, Told(sub, c))
                 == Times(s.log, Told(sub, c)) + One(SomeDue(s.subs, TaskCancel, r, sub, c))
  {
    hide StopTask, FreshIds, Times, SomeDue, WriteTable, WasLast, Distinct;
    if k in s.tasks {
      var s1 := SetReason(s, k, FREEZE_CANCEL);
      SameIds(s, k);
      assert s1.tasks[k] == s.tasks[k].(phase := s.tasks[k].phase.(reason := 2));
      StopByIdOutcome(s1, 0, "", 0, s.tasks[k].app.taskId, order, refused, k, sub, c);
      assert s1.tasks - {k} == s.tasks - {k};
    }
  }

  lemma SameIds(s: State, k: string)
    requires FreshIds(s.tasks, s.nextTask) && k in s.tasks
    ensures var s1 := SetReason(s, k, FREEZE_CANCEL); FreshIds(s1.tasks, s1.nextTask)
  {
  }

  /** A task cancelled by the dump command goes with the reason noted in its record. */
  lemma DumpOutcome(s: State, k: string, order: seq<string>, refused: set<Note>, sub: int, c: Callback)
    requires FreshIds(s.tasks, s.nextTask) && Distinct(s.subs) && k in order && !c.OnAppStop?
    ensures var s' := DumpStop(s, k, order, refused);
            if k !in s.tasks then s' == s
            else
              && s'.tasks == s.tasks - {k} && s'.disk == WriteTable(s'.tasks)
              && Times(s'.log, Told(sub, c))
                 == Times(s.log, Told(sub, c)) + One(SomeDue(s.subs, TaskCancel, s.tasks[k], sub, c))
  {
    hide StopTask, FreshIds, Times, SomeDue, WriteTable, WasLast, Distinct;
    if k in s.tasks {
      StopByIdOutcome(s, 0, "", 0, s.tasks[k].app.taskId, order, refused, k, sub, c);
    }
  }

  /** The three kinds of a stop by the system: 1 stops the data transfers of the application, 255 all its tasks, and
      anything else the task under the key. */
  lemma StopByTypeLeaves(s: State, uid: int, taskType: nat, k: string, order: seq<string>, refused: set<Note>,
                         j: string)
    requires FreshIds(s.tasks, s.nextTask) && IsWalk(order, s.tasks) && Distinct(s.subs)
    ensures var t, t' := s.tasks, StopByType(s, uid, taskType, k, order, refused).tasks;
            && (j in t' ==> j in t && t'[j] == t[j])
            && (j in t ==>
                  if taskType == 1 then j in t' <==> t[j].app.uid != uid || 1 !in t[j].work.modes
                  else if taskType == 255 then j in t' <==> t[j].app.uid != uid
                  else j in t' <==> j != k)
  {
    hide Loop, StopByKey, FreshIds, IsWalk, Distinct;
    LoopLeaves(s, ByUidAndMode(uid, taskType), order, j);
    LoopLeaves(s, ByUid(uid), order, j);
    if k in s.tasks {
      InWalk(s, order, k);
      StopByKeyOutcome(s, k, order, refused, 0, OnStart(0));
    } else {
      NoKey(s, k, order, refused);
    }
  }

  /** The tasks that share this notification. */
  function Sharing(t: Table, text: string, id: int): set<string> {
    set j | j in t && t[j].notice.text == text && t[j].notice.id == id
  }

  function CancelledByUser(r: Record): Record {
    r.(phase := r.phase.(reason := 1))
  }

  /** Those of them that this subscriber is told of with this callback. */
  ghost function Heard(s: State, text: string, id: int, sub: int, c: Callback): set<string> {
    set j | j in Sharing(s.tasks, text, id) && SomeDue(s.subs, TaskCancel, CancelledByUser(s.tasks[j]), sub, c)
  }

  lemma DismissTakes(s: State, k: string, isSub: bool, text: string, id: int, sub: int, c: Callback)
    requires k in s.tasks
    ensures var s1, job := SetReason(s, k, REMOVE_NOTIFICATION_CANCEL), Dismissed(text, id, isSub);
            && Struck(s1, job, text, id) == (if isSub then Sharing(s.tasks, text, id) else {})
            && Reported(s1, job, sub, c) == Heard(s, text, id, sub, c)
  {
    hide SomeDue, Listens;
    var s1, job := SetReason(s, k, REMOVE_NOTIFICATION_CANCEL), Dismissed(text, id, isSub);
    forall j ensures j in Struck(s1, job, text, id) <==> isSub && j in Sharing(s.tasks, text, id) {
    }
    forall j | j in s.tasks ensures CancelledByUser(s1.tasks[j]) == CancelledByUser(s.tasks[j]) {
    }
    forall j ensures j in Reported(s1, job, sub, c) <==> j in Heard(s, text, id, sub, c) {
    }
  }

  /** The user dismisses a notification of the task under `k`. A task that shows none is only marked. Otherwise all
      tasks go that share the notification; dismissing the additional one withdraws the main one once for each of
      them, and those who are due it are told of a cancel by the user. */
  lemma DismissedOutcome(s: State, k: string, isSub: bool, order: seq<string>, sub: int, c: Callback)
    requires k in s.tasks && IsWalk(order, s.tasks) && Distinct(s.subs) && !c.OnAppStop?
    ensures var n, s' := s.tasks[k].notice, Dismiss(s, k, isSub, order);
            if n.id == -1 then s' == s.(tasks := s.tasks[k := CancelledByUser(s.tasks[k])])
            else
              && s'.tasks.Keys == s.tasks.Keys - Sharing(s.tasks, n.text, n.id)
              && (forall j :: j in s'.tasks ==> s'.tasks[j] == s.tasks[j])
              && MainCancels(s'.notes, n.text, n.id)
                 == MainCancels(s.notes, n.text, n.id) + (if isSub then |Sharing(s.tasks, n.text, n.id)| else 0)
              && Times(s'.log, Told(sub, c)) == Times(s.log, Told(sub, c)) + |Heard(s, n.text, n.id, sub, c)|
  {
    hide Loop, MainCancels, SubCancels, Times, Heard, Struck, StruckSub, Reported, AllTook, Distinct;
    var n := s.tasks[k].notice;
    if n.id != -1 {
      var s1, job := SetReason(s, k, REMOVE_NOTIFICATION_CANCEL), Dismissed(n.text, n.id, isSub);
      LoopOutcome(s1, job, order, n.text, n.id, sub, c);
      DismissTakes(s, k, isSub, n.text, n.id, sub, c);
      DismissLeaves(s, k, isSub, order);
    }
  }

  lemma DismissLeaves(s: State, k: string, isSub: bool, order: seq<string>)
    requires k in s.tasks && s.tasks[k].notice.id != -1 && IsWalk(order, s.tasks)
    ensures var n, t' := s.tasks[k].notice, Dismiss(s, k, isSub, order).tasks;
            t'.Keys == s.tasks.Keys - Sharing(s.tasks, n.text, n.id) && forall j :: j in t' ==> t'[j] == s.tasks[j]
  {
    hide Loop;
    var n, s1 := s.tasks[k].notice, SetReason(s, k, REMOVE_NOTIFICATION_CANCEL);
    forall j
      ensures var t' := Dismiss(s, k, isSub, order).tasks;
              && (j in t' <==> j in s.tasks && j !in Sharing(s.tasks, n.text, n.id))
              && (j in t' ==> t'[j] == s.tasks[j])
    {
      LoopLeaves(s1, Dismissed(n.text, n.id, isSub), order, j);
    }
  }

  lemma InWalk(s: State, order: seq<string>, k: string)
    requires IsWalk(order, s.tasks) && k in s.tasks
    ensures k in order
  {
  }

  lemma NoKey(s: State, k: string, order: seq<string>, refused: set<Note>)
    requires k !in s.tasks
    ensures StopByKey(s, k, order, refused) == s && DumpStop(s, k, order, refused) == s
  {
  }

  // ---------------------------------------------------------------- suspensions

  /** An application of `uid` listens for these events. */
  predicate ListensFor(subs: seq<Subscriber>, uid: int, flag: Flag) {
    exists i :: 0 <= i < |subs| && subs[i].hap && subs[i].uid == uid && flag in subs[i].flags
  }

  function WithPhase(r: Record, phase: Phase): Record {
    Record(r.app, r.work, r.notice, phase)
  }

  /** The record is stored, announced as suspended, and written. */
  ghost predicate IsPutToSleep(s: State, s': State, k: string, r: Record) {
    && s'.tasks == s.tasks[k := r] && s'.disk == WriteTable(s'.tasks)
    && s'.log == s.log + Notify(s.subs, TaskSuspend, r)
  }

  /** The main notification is withdrawn, and the additional one of a request-object task. */
  function WithdrawBoth(r: Record): seq<Note> {
    [CancelMain(r.notice.text, r.notice.id)]
    + if r.notice.subId != -1 && r.app.byRequest then [CancelSub(r.notice.subText, r.notice.subId)] else []
  }

  /** A suspension of a listening application. By standby, a running task of it is marked, with its notifications left
      alone; otherwise it is suspended, and the notifications are withdrawn whoever the task belongs to. */
  lemma SuspendOutcome(s: State, uid: int, reason: int, k: string, standby: bool, order: seq<string>,
                       refused: set<Note>)
    requires k in s.tasks && ListensFor(s.subs, uid, SuspendFlag)
    ensures var r, p, s' := s.tasks[k], s.tasks[k].phase, Suspend(s, uid, reason, k, standby, order, refused);
            if standby then
              if r.app.uid == uid && !p.suspended && !p.standbySuspended then
                && s'.notes == s.notes
                && IsPutToSleep(s, s', k, WithPhase(r, Phase(false, reason, true, true, p.cancelDetail, p.audioPlaying,
                                                             p.reason, p.audioSuspends, p.audioDetected)))
              else s' == s
            else
              && s'.notes == s.notes + WithdrawBoth(r)
              && if r.app.uid == uid then
                   IsPutToSleep(s, s', k, WithPhase(r, Phase(true, reason, false, p.standbySuspended, p.cancelDetail,
                                                             p.audioPlaying, p.reason, p.audioSuspends,
                                                             p.audioDetected)))
                 else
                   && s'.tasks == s.tasks && s'.disk == s.disk
                   && s'.log == s.log + if exists j :: j in s.tasks && s.tasks[j].app.uid == uid then []
                                        else NotifyAppStop(s.subs, uid)
  {
    hide Notify, WriteTable, NotifyAppStop, StopByKey;
    assert HasCallback(s.subs, uid, SuspendFlag);
    var r := s.tasks[k];
    if !standby && r.app.uid == uid {
      assert PutSuspended(s, k, SuspendRecord(r, reason)).tasks[k].app.uid == uid;
    }
  }

  /** Without a listener, standby does nothing and any other suspension is a stop. */
  lemma SuspendUnheard(s: State, uid: int, reason: int, k: string, standby: bool, order: seq<string>,
                       refused: set<Note>)
    requires !ListensFor(s.subs, uid, SuspendFlag)
    ensures Suspend(s, uid, reason, k, standby, order, refused)
         == if standby then s else StopByKey(s, k, order, refused)
  {
    hide StopByKey;
    assert !HasCallback(s.subs, uid, SuspendFlag);
  }

  lemma SuspendNothing(s: State, uid: int, reason: int, k: string, standby: bool, order: seq<string>,
                       refused: set<Note>)
    requires k !in s.tasks
    ensures Suspend(s, uid, reason, k, standby, order, refused) == s
  {
    hide HasCallback;
  }

  // ---------------------------------------------------------------- activations

  /** An activation by standby concerns listening applications only; any other is the reactivation loop. */
  lemma ActiveOutcome(s: State, uid: int, standby: bool, order: seq<string>, answers: map<string, Answer>)
    ensures Active(s, uid, standby, order, answers)
         == if !standby then Activate(s, uid, order, answers)
            else if ListensFor(s.subs, uid, ActiveFlag) then Loop(s, StandbyActive(uid), order) else s
  {
    hide Activate, Loop;
    assert ListensFor(s.subs, uid, ActiveFlag) <==> HasCallback(s.subs, uid, ActiveFlag);
  }

  /** One turn of the reactivation loop, as far as the notification is concerned. A task without one gets none. One
      whose id has not come up yet, or the first, is published again and remembered. Any other takes over what is
      remembered, with nothing published. */
  lemma ReactivatedOutcome(t: Turn, k: string, a: Answer)
    requires k in t.s.tasks
    ensures var p := t.s.tasks[k].phase;
            var r := WithPhase(t.s.tasks[k], p.(suspended := false, standby := false));
            var t', n := Reactivated(t, k, a), r.notice;
            && t'.s.log == t.s.log + Notify(t.s.subs, TaskActive, r) && t'.s.disk == WriteTable(t'.s.tasks)
            && if n.id == -1 then
                 t'.s.tasks == t.s.tasks[k := r] && t'.s.notes == t.s.notes && t'.s.nextNote == t.s.nextNote
                 && t'.id == t.id && t'.text == t.text && t'.seen == t.seen
               else if t.id == -2 || n.id !in t.seen then
                 exists u ::
                   && IsRefreshed(r, t.s.nextNote, a, u) && t'.s.tasks == t.s.tasks[k := u.r]
                   && t'.s.notes == t.s.notes + u.notes && t'.s.nextNote == u.next
                   && t'.id == u.r.notice.id && t'.text == u.r.notice.text && t'.seen == t.seen + [n.id]
               else
                 && t'.s.tasks == t.s.tasks[k := r.(notice := n.(text := t.text, id := t.id))]
                 && t'.s.notes == t.s.notes && t'.s.nextNote == t.s.nextNote
                 && t'.id == t.id && t'.text == t.text && t'.seen == t.seen
  {
    hide Notify, WriteTable, Refresh, IsRefreshed;
    var r := Awake(t.s.tasks[k]);
    RefreshIs(r, t.s.nextNote, a);
    assert IsRefreshed(r, t.s.nextNote, a, Refresh(r, t.s.nextNote, a));
  }

  // ---------------------------------------------------------------- subscribers

  /** A known application gets more flags, a known system ability nothing; a new subscriber comes last and reads the
      running tasks. */
  lemma SubscribeOutcome(s: State, sub: Subscriber)
    ensures var s' := Subscribe(s, sub);
            && s'.tasks == s.tasks && s'.notes == s.notes && s'.disk == s.disk
            && if forall i :: 0 <= i < |s.subs| ==> s.subs[i].id != sub.id then
                 && s'.subs == s.subs + [sub] && |s'.log| == |s.log| + 1 && s'.log[..|s.log|] == s.log
                 && s'.log[|s.log|].Joined? && s'.log[|s.log|].id == sub.id
                 && forall t :: t in s'.log[|s.log|].snapshot
                           <==> exists k :: k in s.tasks && !s.tasks[k].phase.suspended && s.tasks[k].app.taskId == t
               else
                 && s'.log == s.log && |s'.subs| == |s.subs|
                 && forall i :: 0 <= i < |s.subs| ==>
                      && s'.subs[i].id == s.subs[i].id && s'.subs[i].uid == s.subs[i].uid
                      && s'.subs[i].hap == s.subs[i].hap
                      && forall f :: f in s'.subs[i].flags
                                <==> f in s.subs[i].flags || (s.subs[i].id == sub.id && s.subs[i].hap && f in sub.flags)
  {
  }

  lemma {:induction false} WithoutIs(subs: seq<Subscriber>, id: int, x: Subscriber)
    ensures x in Without(subs, id) <==> x in subs && x.id != id
  {
    if subs != [] {
      var n := |subs| - 1;
      WithoutIs(subs[..n], id, x);
      assert subs == subs[..n] + [subs[n]];
    }
  }

  /** An application leaves when no flag is left to it, a system ability at once; whoever else is subscribed stays. */
  lemma UnsubscribeOutcome(s: State, id: int, flags: set<Flag>, x: Subscriber)
    requires Distinct(s.subs)
    ensures var s' := Unsubscribe(s, id, flags);
            && s'.tasks == s.tasks && s'.log == s.log && s'.notes == s.notes && s'.disk == s.disk
            && (x.id != id ==> (x in s'.subs <==> x in s.subs))
            && (x in s.subs && x.id == id ==>
                  var left := Subscriber(x.id, x.uid, x.hap, x.flags - flags);
                  if x.hap && exists f :: f in x.flags && f !in flags
                  then left in s'.subs && forall y :: y in s'.subs && y.id == id ==> y == left
                  else forall y :: y in s'.subs ==> y.id != id)
  {
    hide Without, Narrow;
    forall y ensures y in Without(s.subs, id) <==> y in s.subs && y.id != id {
      WithoutIs(s.subs, id, y);
    }
    NarrowIs(s.subs, id, flags, x);
    if x in s.subs && x.id == id {
      NeededIs(s.subs, id, flags, x);
    }
  }

  lemma NeededIs(subs: seq<Subscriber>, id: int, flags: set<Flag>, x: Subscriber)
    requires Distinct(subs) && x in subs && x.id == id
    ensures StillNeeded(subs, id, flags) <==> x.hap && exists f :: f in x.flags && f !in flags
  {
    var i :| 0 <= i < |subs| && subs[i] == x;
    forall f | f in x.flags && f !in flags ensures x.flags - flags != {} {
      assert f in x.flags - flags;
    }
    if x.flags - flags != {} {
      var f :| f in x.flags - flags;
      assert f in x.flags && f !in flags;
    }
    if StillNeeded(subs, id, flags) {
      var j :| 0 <= j < |subs| && subs[j].id == id && subs[j].hap && subs[j].flags - flags != {};
      assert i == j;
    }
  }

  lemma NarrowIs(subs: seq<Subscriber>, id: int, flags: set<Flag>, x: Subscriber)
    requires Distinct(subs)
    ensures x.id != id ==> (x in Narrow(subs, id, flags) <==> x in subs)
    ensures x in subs && x.id == id ==>
              var left := Subscriber(x.id, x.uid, x.hap, x.flags - flags);
              left in Narrow(subs, id, flags) && forall y :: y in Narrow(subs, id, flags) && y.id == id ==> y == left
  {
    var w := Narrow(subs, id, flags);
    assert forall i :: 0 <= i < |subs| && subs[i].id != id ==> w[i] == subs[i];
    if x in subs {
      var i :| 0 <= i < |subs| && subs[i] == x;
      assert w[i] in w;
    }
  }

  // ---------------------------------------------------------------- moves

  /** A move to the foreground is noted; a move to the background remembers the modes in use, or forgets them all when
      there is no task at all. Other applications are not concerned. */
  lemma AppStateOutcome(s: State, uid: int, toForeground: bool, order: seq<string>, u: int, mode: nat)
    requires IsWalk(order, s.tasks)
    ensures var s' := AppState(s, uid, toForeground, order);
            && s'.tasks == s.tasks && s'.disk == s.disk && s'.log == s.log && s'.notes == s.notes
            && (u in s'.foreground <==> if u == uid then toForeground else u in s.foreground)
            && (u != uid || toForeground ==> ModesOf(s'.applied, u) == ModesOf(s.applied, u))
            && (!toForeground ==> (uid in s'.applied <==> exists k :: k in s.tasks))
            && (!toForeground ==>
                  (mode in ModesOf(s'.applied, uid)
                   <==> exists k :: k in s.tasks && s.tasks[k].app.uid == uid && mode in s.tasks[k].work.modes))
  {
    hide CollectModes;
    CollectIs(s.tasks, order, uid, mode);
    if s.tasks == map[] {
      assert forall k :: k !in s.tasks;
    }
  }

  /** Switched off, an application is refused every start, and nothing changes; switched on, it is not refused for that.
      Other applications are not concerned. */
  lemma SwitchOutcome(s: State, uid: int, enable: bool, u: int, q: Request, env: StartEnv, order: seq<string>)
    ensures var s' := Apply(s, EnableStep(uid, enable));
            && (u in s'.disabled <==> if u == uid then !enable else u in s.disabled)
            && s'.tasks == s.tasks && s'.nextTask == s.nextTask && s'.disk == s.disk && s'.log == s.log
            && (!enable && q.uid == uid ==> Start(s', q, env, order) == Reply(s', RequestsDisabled))
  {
    hide Allowed, Submit, KeyOf, FirstOtherMode;
  }

  // ---------------------------------------------------------------- restarts

  /** One round of a restart: the record of a dead process goes, and its notifications with it when nobody else refers
      to the main one; one that shows nothing stays; the others are published again. */
  lemma RestoreRoundOutcome(s: State, k: string, alive: set<int>, answers: map<string, Answer>)
    requires k in s.tasks
    ensures var r, s' := s.tasks[k], RestoreRound(s, k, alive, answers);
            && s'.log == s.log && s'.disk == s.disk
            && if r.app.pid !in alive then
                 && s'.tasks == s.tasks - {k} && s'.nextNote == s.nextNote
                 && s'.notes == s.notes + if WasLast(s.tasks - {k}, r) then WithdrawBoth(r) else []
               else if r.notice.id == -1 then s' == s
               else
                 exists u ::
                   && IsRefreshed(r, s.nextNote, AnswerFor(answers, k), u) && s'.tasks == s.tasks[k := u.r]
                   && s'.notes == s.notes + u.notes && s'.nextNote == u.next
  {
    hide Refresh, IsRefreshed;
    var r, a := s.tasks[k], AnswerFor(answers, k);
    WasLastIs(s.tasks - {k}, r);
    RefreshIs(r, s.nextNote, a);
    assert IsRefreshed(r, s.nextNote, a, Refresh(r, s.nextNote, a));
  }

  /** `m` is the greatest of these values, or -1 when none is greater. */
  ghost predicate IsGreatest(m: int, values: set<int>) {
    && m >= -1 && (forall v :: v in values ==> v <= m) && (m in values || m == -1)
  }

  function TaskIds(t: Table, keys: set<string>): set<int> {
    set k | k in keys && k in t :: t[k].app.taskId
  }

  function NoteIds(t: Table, keys: set<string>): set<int> {
    set k | k in keys && k in t :: t[k].notice.id
  }

  lemma IdsNext(t: Table, keys: set<string>, k: string)
    ensures TaskIds(t, keys + {k}) == TaskIds(t, keys) + if k in t then {t[k].app.taskId} else {}
    ensures NoteIds(t, keys + {k}) == NoteIds(t, keys) + if k in t then {t[k].notice.id} else {}
  {
  }

  lemma {:induction false} MaximaAre(t: Table, order: seq<string>)
    ensures IsGreatest(MaxTaskId(t, order), TaskIds(t, KeysOf(order)))
    ensures IsGreatest(MaxNoteId(t, order), NoteIds(t, KeysOf(order)))
  {
    if order != [] {
      hide TaskIds, NoteIds;
      var n, k := |order| - 1, order[|order| - 1];
      MaximaAre(t, order[..n]);
      assert KeysOf(order) == KeysOf(order[..n]) + {k} by { assert order == order[..n] + [k]; }
      IdsNext(t, KeysOf(order[..n]), k);
    }
  }

  /** After a restart with a process list the counters are the greatest ids of the file, or their first values; the
      foreground is what the application manager reports. */
  lemma RestartCounters(s: State, alive: set<int>, reported: Option<set<int>>, order: seq<string>,
                        answers: map<string, Answer>)
    requires IsWalk(order, ReadTable(s.disk))
    ensures var file, s' := ReadTable(s.disk), Restart(s, Some(alive), reported, order, answers);
            && s'.foreground == (if reported.Some? then reported.value else {}) && s'.subs == [] && s'.disabled == {}
            && (exists t :: IsGreatest(t, TaskIds(file, file.Keys)) && s'.nextTask == if t == -1 then 0 else t)
            && (exists n :: IsGreatest(n, NoteIds(file, file.Keys)) && (n != -1 ==> s'.nextNote == n))
  {
    hide ReadTable, WriteTable, RestoreRounds, MaxTaskId, MaxNoteId, Rebuild, IsGreatest, TaskIds,
      NoteIds;
    var file := ReadTable(s.disk);
    MaximaAre(file, order);
    IdsOfAll(file, order);
    RestoreKeepsRest(Fresh(s), order, alive, answers);
    var t, n := MaxTaskId(file, order), MaxNoteId(file, order);
    assert IsGreatest(t, TaskIds(file, file.Keys)) && IsGreatest(n, NoteIds(file, file.Keys));
  }

  lemma IdsOfAll(t: Table, order: seq<string>)
    requires IsWalk(order, t)
    ensures TaskIds(t, KeysOf(order)) == TaskIds(t, t.Keys) && NoteIds(t, KeysOf(order)) == NoteIds(t, t.Keys)
  {
    assert forall k :: k in t ==> k in KeysOf(order);
  }

  lemma {:induction false} RestoreKeepsRest(s: State, order: seq<string>, alive: set<int>, answers: map<string, Answer>)
    ensures var s' := RestoreRounds(s, order, alive, answers);
            s'.nextTask == s.nextTask && s'.subs == s.subs && s'.disabled == s.disabled
  {
    hide Refresh, SharedCancel;
    if order != [] {
      RestoreKeepsRest(s, order[..|order| - 1], alive, answers);
    }
  }
}
