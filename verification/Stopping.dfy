/** Which notifications a stop cancels, how often, and which ones it spares. */
module Stopping {
  import opened Wrappers
  import opened TaskRecord
  import opened Subscribers
  import opened TaskTable
  import opened Invariants
  import opened Reachability
  import L = Labels

  // ---------------------------------------------------------------- counting cancels

  /** How often a cancel has been issued for a record's main and for a record's additional notification. */
  function MainCancels(notes: seq<Note>, text: string, id: int): nat {
    multiset(notes)[CancelMain(text, id)]
  }

  function SubCancels(notes: seq<Note>, text: string, id: int): nat {
    multiset(notes)[CancelSub(text, id)]
  }

  /** How often the service has been asked to cancel this label and id. */
  function Cancels(notes: seq<Note>, text: string, id: int): nat {
    MainCancels(notes, text, id) + SubCancels(notes, text, id)
  }

  lemma CancelsConcat(a: seq<Note>, b: seq<Note>, text: string, id: int)
    ensures MainCancels(a + b, text, id) == MainCancels(a, text, id) + MainCancels(b, text, id)
    ensures SubCancels(a + b, text, id) == SubCancels(a, text, id) + SubCancels(b, text, id)
    ensures Cancels(a + b, text, id) == Cancels(a, text, id) + Cancels(b, text, id)
  {
  }

  lemma NoCancels(text: string, id: int)
    ensures MainCancels([], text, id) == 0 && SubCancels([], text, id) == 0
  {
  }

  /** The record's additional notification is this one, and it is one the manager withdraws. */
  predicate RefersToSub(r: Record, text: string, id: int) {
    r.app.byRequest && r.notice.subId == id && r.notice.subText == text
  }

  lemma NoteCancels(r: Record, text: string, id: int)
    requires id != NO_ID
    ensures MainCancels(MainNote(r), text, id) == One(RefersTo(r, text, id)) && SubCancels(MainNote(r), text, id) == 0
    ensures MainCancels(SubNote(r), text, id) == 0 && SubCancels(SubNote(r), text, id) == One(RefersToSub(r, text, id))
  {
  }

  /** The last reference to the main notification of `r` goes with it. */
  predicate LastReference(t: Table, r: Record) {
    r.notice.id != NO_ID && !Referenced(t, r.notice.text, r.notice.id)
  }

  lemma SharedCancelCancels(t: Table, r: Record, text: string, id: int)
    requires id != NO_ID
    ensures MainCancels(SharedCancel(t, r), text, id) == One(RefersTo(r, text, id) && !Referenced(t, text, id))
    ensures SubCancels(SharedCancel(t, r), text, id) == One(RefersToSub(r, text, id) && LastReference(t, r))
  {
    hide MainNote, SubNote, Referenced, MainCancels, SubCancels;
    NoteCancels(r, text, id);
    CancelsConcat(MainNote(r), SubNote(r), text, id);
    NoCancels(text, id);
  }

  // ---------------------------------------------------------------- labels of the two kinds

  lemma MainIsNotSub(text: string, uid: int)
    requires L.LabelOfUid(text, uid, false)
    ensures !L.IsSubLabel(text)
  {
  }

  /** A task's additional label is of its application and of the additional kind. */
  lemma SubLabelFits(r: Record)
    requires Fits(r) && r.notice.subId != NO_ID
    ensures L.LabelOfUid(r.notice.subText, r.app.uid, true) && L.IsSubLabel(r.notice.subText)
  {
    hide L.SubLabel, L.MainLabel;
    L.LabelsNameTheirUid(r.app.uid, r.app.abilityName, r.app.abilityId, r.app.byRequest, r.app.taskId, r.app.pid);
  }

  /** No record's main notification is under the label of an additional one, or the other way round. */
  lemma KindsApart(r: Record, text: string, id: int)
    requires Fits(r) && id != NO_ID
    ensures RefersTo(r, text, id) ==> !L.IsSubLabel(text)
    ensures RefersToSub(r, text, id) ==> L.IsSubLabel(text)
  {
    hide L.LabelOfUid, L.IsSubLabel;
    if RefersTo(r, text, id) {
      MainIsNotSub(text, r.app.uid);
    }
    if RefersToSub(r, text, id) {
      SubLabelFits(r);
    }
  }

  /** Two tasks never share an additional notification. */
  lemma SubsApart(s: State, j: string, k: string)
    requires Live(s, Full) && j in s.tasks && k in s.tasks && s.tasks[j].notice.subId != NO_ID
    requires RefersToSub(s.tasks[k], s.tasks[j].notice.subText, s.tasks[j].notice.subId)
    ensures j == k
  {
    hide L.SubLabel, KeyOf, SameAbility;
    var a, b := s.tasks[j].app, s.tasks[k].app;
    RecordFits(s, j, Full);
    RecordFits(s, k, Full);
    L.SubLabelNamesTask(a.uid, a.abilityName, a.abilityId, a.taskId, a.pid, b.uid, b.abilityName, b.abilityId, b.taskId,
                        b.pid);
  }

  // ---------------------------------------------------------------- one stop

  lemma ErasedReference(t: Table, k: string, text: string, id: int)
    requires k in t
    ensures Referenced(t, text, id) <==> RefersTo(t[k], text, id) || Referenced(t - {k}, text, id)
  {
    if Referenced(t, text, id) {
      var j :| j in t && RefersTo(t[j], text, id);
      assert j != k ==> j in t - {k} && (t - {k})[j] == t[j];
    }
    if Referenced(t - {k}, text, id) {
      var j :| j in t - {k} && RefersTo((t - {k})[j], text, id);
      assert j in t && t[j] == (t - {k})[j];
    }
  }

  lemma TellNotes(s: State, uid: int)
    ensures TellAppStop(s, uid).notes == s.notes && TellAppStop(s, uid).tasks == s.tasks
  {
    hide HasUid, NotifyAppStop;
  }

  lemma DropAndTellNotes(s: State, k: string, r: Record, reason: int, notes: seq<Note>)
    ensures var s' := DropAndTell(s, k, r, reason, notes); s'.notes == s.notes + notes && s'.tasks == s.tasks - {k}
  {
    hide TellAppStop, Notify, WriteTable;
    TellNotes(Drop(s, k, r, reason, notes), r.app.uid);
  }

  /** Reference counting of main notifications: one cancel when the last task that refers to this one is
      gone, none otherwise. */
  ghost predicate Counted(s: State, s': State, text: string, id: int) {
    && MainCancels(s'.notes, text, id)
       == MainCancels(s.notes, text, id) + One(Referenced(s.tasks, text, id) && !Referenced(s'.tasks, text, id))
    && (Referenced(s'.tasks, text, id) ==> Referenced(s.tasks, text, id))
  }

  /** One stop: the main notification is counted, and the additional notification of the stopped task goes
      exactly when the last reference to its main notification does. */
  lemma StopAtCancels(s: State, k: string, refused: set<Note>, text: string, id: int)
    requires k in s.tasks && id != NO_ID
    ensures var s' := StopAt(s, k, refused).s;
            && s'.tasks == s.tasks - {k} && Counted(s, s', text, id)
            && SubCancels(s'.notes, text, id) == SubCancels(s.notes, text, id)
               + One(RefersToSub(s.tasks[k], text, id) && LastReference(s.tasks - {k}, s.tasks[k]))
  {
    hide DropAndTell, SharedCancel, MainCancels, SubCancels, Referenced, RefersTo, RefersToSub, LastReference;
    var r := s.tasks[k];
    var notes := SharedCancel(s.tasks - {k}, r);
    DropAndTellNotes(s, k, r, r.phase.reason, notes);
    CancelsConcat(s.notes, notes, text, id);
    SharedCancelCancels(s.tasks - {k}, r, text, id);
    ErasedReference(s.tasks, k, text, id);
  }

  /** The additional notification of a stopped task is cancelled exactly once if the task asked by request
      object, has one, has a main notification, and no other task refers to that; otherwise never. A
      task that still shares its main notification leaves its additional one on the screen. */
  lemma StopSubExact(s: State, k: string, refused: set<Note>)
    requires k in s.tasks && s.tasks[k].notice.subId != NO_ID
    ensures var n, s' := s.tasks[k].notice, StopAt(s, k, refused).s;
            SubCancels(s'.notes, n.subText, n.subId) == SubCancels(s.notes, n.subText, n.subId)
            + One(s.tasks[k].app.byRequest && n.id != NO_ID && !Referenced(s.tasks - {k}, n.text, n.id))
  {
    hide StopAt, SubCancels, Referenced;
    StopAtCancels(s, k, refused, s.tasks[k].notice.subText, s.tasks[k].notice.subId);
  }

  lemma StopTaskCounted(s: State, taskId: int, order: seq<string>, refused: set<Note>, text: string, id: int)
    requires id != NO_ID
    ensures Counted(s, StopTask(s, taskId, order, refused).s, text, id)
  {
    hide First, StopAt, MainCancels, Referenced;
    var found := First(s.tasks, order, ById(taskId));
    if found.Some? && found.value in s.tasks {
      StopAtCancels(s, found.value, refused, text, id);
    }
  }

  lemma {:induction false} StopEachCounted(s: State, ids: seq<int>, order: seq<string>, refused: set<Note>,
                                           text: string, id: int)
    requires id != NO_ID
    ensures Counted(s, StopEach(s, ids, order, refused).s, text, id)
  {
    hide StopTask, MainCancels, Referenced;
    if ids != [] {
      var before := ids[..|ids| - 1];
      StopEachCounted(s, before, order, refused, text, id);
      StopTaskCounted(StopEach(s, before, order, refused).s, ids[|ids| - 1], order, refused, text, id);
    }
  }

  /** Reference-counted cancel of main notifications, by task id and by ability, for every label and id. */
  lemma StopCounted(s: State, uid: int, name: string, abilityId: int, taskId: int, order: seq<string>,
                    refused: set<Note>, text: string, id: int)
    requires id != NO_ID
    ensures Counted(s, StopInner(s, uid, name, abilityId, taskId, order, refused).s, text, id)
    ensures Counted(s, StopByContext(s, uid, name, abilityId, order, refused).s, text, id)
  {
    hide StopTask, StopEach, First, ContextIds, MainCancels, Referenced;
    StopTaskCounted(s, taskId, order, refused, text, id);
    StopEachCounted(s, ContextIds(s.tasks, order, uid, name, abilityId), order, refused, text, id);
  }

  // ---------------------------------------------------------------- what a series of stops removes

  /** The records of `t'` are records of `t`. */
  ghost predicate Among(t: Table, t': Table) {
    forall k :: k in t' ==> k in t && t'[k] == t[k]
  }

  /** The table without the tasks with these ids. */
  function WithoutIds(t: Table, ids: seq<int>): Table {
    map k | k in t && t[k].app.taskId !in ids :: t[k]
  }

  lemma DropAndTellCounter(s: State, k: string, r: Record, reason: int, notes: seq<Note>)
    ensures DropAndTell(s, k, r, reason, notes).nextTask == s.nextTask
  {
    hide HasUid, NotifyAppStop, Notify, WriteTable;
  }

  lemma StopTaskLeaves(s: State, taskId: int, order: seq<string>, refused: set<Note>)
    requires FreshIds(s.tasks, s.nextTask)
    ensures var s' := StopTask(s, taskId, order, refused).s;
            && FreshIds(s'.tasks, s'.nextTask) && Among(s.tasks, s'.tasks)
            && (forall k :: k in s.tasks && s.tasks[k].app.taskId != taskId ==> k in s'.tasks)
            && ((forall k :: k in s.tasks ==> k in order) ==> s'.tasks == WithoutIds(s.tasks, [taskId]))
  {
    hide DropAndTell, SharedCancel, First;
    var found := First(s.tasks, order, ById(taskId));
    FirstFinds(s.tasks, order, ById(taskId));
    if found.Some? {
      var k, r := found.value, s.tasks[found.value];
      DropAndTellNotes(s, k, r, r.phase.reason, SharedCancel(s.tasks - {k}, r));
      DropAndTellCounter(s, k, r, r.phase.reason, SharedCancel(s.tasks - {k}, r));
    } else {
      forall k | k in s.tasks && k in order ensures s.tasks[k].app.taskId != taskId {
        if s.tasks[k].app.taskId == taskId {
          FirstFound(s.tasks, order, ById(taskId), k);
        }
      }
    }
  }

  /** Stops remove tasks with the given ids only, and all of them up to the first that fails. */
  lemma {:induction false} StopEachLeaves(s: State, ids: seq<int>, order: seq<string>, refused: set<Note>)
    requires FreshIds(s.tasks, s.nextTask)
    ensures var reply := StopEach(s, ids, order, refused);
            && FreshIds(reply.s.tasks, reply.s.nextTask) && Among(s.tasks, reply.s.tasks)
            && (forall k :: k in s.tasks && s.tasks[k].app.taskId !in ids ==> k in reply.s.tasks)
            && (reply.status == Ok && (forall k :: k in s.tasks ==> k in order) ==>
                  reply.s.tasks == WithoutIds(s.tasks, ids))
  {
    hide StopTask, FreshIds;
    if ids != [] {
      var n := |ids| - 1;
      StopEachLeaves(s, ids[..n], order, refused);
      var before := StopEach(s, ids[..n], order, refused);
      assert ids == ids[..n] + [ids[n]];
      if before.status == Ok {
        StopTaskLeaves(before.s, ids[n], order, refused);
      }
    }
  }

  // ---------------------------------------------------------------- additional notifications

  lemma LiveFreshIds(s: State)
    requires Live(s, Full)
    ensures FreshIds(s.tasks, s.nextTask)
  {
  }

  /** A later stop, of any task, as far as the additional notification of `j` is concerned. */
  lemma LaterStopSub(s: State, now: State, taskId: int, order: seq<string>, refused: set<Note>, j: string)
    requires Live(s, Full) && j in s.tasks && s.tasks[j].notice.subId != NO_ID
    requires Among(s.tasks, now.tasks) && FreshIds(now.tasks, now.nextTask) && forall k :: k in now.tasks ==> k in order
    ensures var r, after := s.tasks[j], StopTask(now, taskId, order, refused).s;
            SubCancels(after.notes, r.notice.subText, r.notice.subId)
            == SubCancels(now.notes, r.notice.subText, r.notice.subId)
            + One(j in now.tasks && r.app.taskId == taskId && r.app.byRequest && LastReference(now.tasks - {j}, r))
  {
    hide TableOk, First, StopAt, SubCancels, LastReference, FreshIds;
    FirstFinds(now.tasks, order, ById(taskId));
    var found := First(now.tasks, order, ById(taskId));
    var n := s.tasks[j].notice;
    if j in now.tasks && s.tasks[j].app.taskId == taskId {
      FirstIs(now.tasks, order, ById(taskId), j, now.nextTask);
    }
    if found.Some? {
      StopAtCancels(now, found.value, refused, n.subText, n.subId);
      if RefersToSub(now.tasks[found.value], n.subText, n.subId) {
        SubsApart(s, j, found.value);
      }
    }
  }

  /** ... and for a task that is still there afterwards nothing is cancelled, in any walk. */
  lemma LaterStopSparesSub(s: State, now: State, taskId: int, order: seq<string>, refused: set<Note>, j: string)
    requires Live(s, Full) && j in s.tasks && s.tasks[j].notice.subId != NO_ID && Among(s.tasks, now.tasks)
    ensures var n, after := s.tasks[j].notice, StopTask(now, taskId, order, refused).s;
            j in after.tasks ==>
              SubCancels(after.notes, n.subText, n.subId) == SubCancels(now.notes, n.subText, n.subId)
  {
    hide TableOk, First, StopAt, SubCancels, LastReference;
    var found := First(now.tasks, order, ById(taskId));
    var n := s.tasks[j].notice;
    if found.Some? && found.value in now.tasks {
      StopAtCancels(now, found.value, refused, n.subText, n.subId);
      if RefersToSub(now.tasks[found.value], n.subText, n.subId) {
        SubsApart(s, j, found.value);
      }
    }
  }

  lemma {:induction false} StopEachSparesSub(s: State, ids: seq<int>, order: seq<string>, refused: set<Note>, j: string)
    requires Live(s, Full) && j in s.tasks && s.tasks[j].notice.subId != NO_ID
    ensures var n, after := s.tasks[j].notice, StopEach(s, ids, order, refused).s;
            j in after.tasks ==> SubCancels(after.notes, n.subText, n.subId) == SubCancels(s.notes, n.subText, n.subId)
  {
    hide TableOk, StopTask, SubCancels, FreshIds;
    LiveFreshIds(s);
    if ids != [] {
      var n := |ids| - 1;
      var before := StopEach(s, ids[..n], order, refused);
      StopEachSparesSub(s, ids[..n], order, refused, j);
      StopEachLeaves(s, ids[..n], order, refused);
      if before.status == Ok {
        StopTaskLeaves(before.s, ids[n], order, refused);
        LaterStopSparesSub(s, before.s, ids[n], order, refused, j);
      }
    }
  }

  ghost predicate AllDifferent(ids: seq<int>) {
    forall i, j :: 0 <= i < j < |ids| ==> ids[i] != ids[j]
  }

  /** The series reaches its i-th task and that one's additional notification is then to go. */
  predicate SubGoesAt(s: State, ids: seq<int>, i: nat, order: seq<string>, refused: set<Note>, r: Record)
    requires i < |ids|
  {
    && StopEach(s, ids[..i], order, refused).status == Ok
    && r.app.byRequest && LastReference(WithoutIds(s.tasks, ids[..i + 1]), r)
  }

  lemma WithoutNext(t: Table, ids: seq<int>, j: string, nextTask: int)
    requires FreshIds(t, nextTask) && j in t && t[j].app.taskId !in ids
    ensures WithoutIds(t, ids) - {j} == WithoutIds(t, ids + [t[j].app.taskId])
  {
  }

  lemma {:induction false} StopEachSubExact(s: State, ids: seq<int>, order: seq<string>, refused: set<Note>, j: string,
                                            i: nat)
    requires Live(s, Full) && j in s.tasks && s.tasks[j].notice.subId != NO_ID
    requires forall k :: k in s.tasks ==> k in order
    requires AllDifferent(ids) && i < |ids| && ids[i] == s.tasks[j].app.taskId
    ensures var n, after := s.tasks[j].notice, StopEach(s, ids, order, refused).s;
            SubCancels(after.notes, n.subText, n.subId) == SubCancels(s.notes, n.subText, n.subId)
            + One(SubGoesAt(s, ids, i, order, refused, s.tasks[j]))
    decreases |ids|
  {
    hide TableOk, StopTask, SubCancels, FreshIds, LastReference, WithoutIds;
    LiveFreshIds(s);
    var n := |ids| - 1;
    var before := StopEach(s, ids[..n], order, refused);
    StopEachLeaves(s, ids[..n], order, refused);
    if i == n {
      assert ids[n] !in ids[..n];
      StopEachSparesSub(s, ids[..n], order, refused, j);
      assert ids[..n + 1] == ids[..n] + [ids[n]];
      WithoutNext(s.tasks, ids[..n], j, s.nextTask);
    } else {
      assert ids[..n][..i] == ids[..i] && ids[..n][..i + 1] == ids[..i + 1];
      StopEachSubExact(s, ids[..n], order, refused, j, i);
      if before.status == Ok {
        assert ids[i] in ids[..n];
        RemovedId(s.tasks, ids[..n], j);
      }
    }
    if before.status == Ok {
      LaterStopSub(s, before.s, ids[n], order, refused, j);
    }
  }

  lemma RemovedId(t: Table, ids: seq<int>, j: string)
    requires j in t && t[j].app.taskId in ids
    ensures j !in WithoutIds(t, ids)
  {
  }

  /** The law for additional notifications when all tasks of an ability are stopped: the one of the i-th
      stopped task is cancelled exactly once if the service refused no last cancel before, the task asked by
      request object, and no task left at that moment refers to its main notification; otherwise never. */
  lemma StopByContextSubExact(s: State, uid: int, name: string, abilityId: int, order: seq<string>, refused: set<Note>,
                              j: string, i: nat)
    requires Inv(s, Full) && IsWalk(order, s.tasks) && j in s.tasks && s.tasks[j].notice.subId != NO_ID
    requires var ids := ContextIds(s.tasks, order, uid, name, abilityId); i < |ids| && ids[i] == s.tasks[j].app.taskId
    ensures var r, ids := s.tasks[j], ContextIds(s.tasks, order, uid, name, abilityId);
            var after := StopByContext(s, uid, name, abilityId, order, refused).s;
            SubCancels(after.notes, r.notice.subText, r.notice.subId)
            == SubCancels(s.notes, r.notice.subText, r.notice.subId)
            + One(NoneRefused(s.tasks, ids[..i], refused) && r.app.byRequest
                  && LastReference(WithoutIds(s.tasks, ids[..i + 1]), r))
  {
    hide TableOk, ReadTable, StopEach, SubCancels, ContextIds, FreshIds, LastReference;
    var ids := ContextIds(s.tasks, order, uid, name, abilityId);
    LiveFreshIds(s);
    ContextIdsDistinct(s.tasks, order, uid, name, abilityId, s.nextTask);
    ContextIdsIs(s.tasks, order, uid, name, abilityId);
    StopEachSubExact(s, ids, order, refused, j, i);
    assert forall x :: x in ids[..i] ==> x in ids;
    StopEachOkExact(s, ids[..i], order, refused);
  }

  // ---------------------------------------------------------------- survivors

  /** No cancel, of either kind, was issued for this notification. */
  ghost predicate Spared(s: State, s': State, text: string, id: int) {
    Cancels(s'.notes, text, id) == Cancels(s.notes, text, id)
  }

  /** ... nor for any of the two notifications of this record. */
  ghost predicate SparedBoth(s: State, s': State, r: Record) {
    && (r.notice.id != NO_ID ==> Spared(s, s', r.notice.text, r.notice.id))
    && (r.notice.subId != NO_ID ==> Spared(s, s', r.notice.subText, r.notice.subId))
  }

  /** A stop issues cancels of additional kind only under labels of that kind, and likewise for main ones. */
  lemma StopTaskKinds(s: State, taskId: int, order: seq<string>, refused: set<Note>, text: string, id: int)
    requires Live(s, Full) && id != NO_ID
    ensures var s' := StopTask(s, taskId, order, refused).s;
            && (L.IsSubLabel(text) ==> MainCancels(s'.notes, text, id) == MainCancels(s.notes, text, id))
            && (!L.IsSubLabel(text) ==> SubCancels(s'.notes, text, id) == SubCancels(s.notes, text, id))
  {
    hide TableOk, First, StopAt, MainCancels, SubCancels, Referenced, LastReference, Fits, L.IsSubLabel;
    var found := First(s.tasks, order, ById(taskId));
    if found.Some? && found.value in s.tasks {
      StopAtCancels(s, found.value, refused, text, id);
      RecordFits(s, found.value, Full);
      KindsApart(s.tasks[found.value], text, id);
      ErasedReference(s.tasks, found.value, text, id);
    }
  }

  lemma {:induction false} StopEachKinds(s: State, ids: seq<int>, order: seq<string>, refused: set<Note>, text: string,
                                         id: int)
    requires Inv(s, Full) && id != NO_ID
    ensures var s' := StopEach(s, ids, order, refused).s;
            && (L.IsSubLabel(text) ==> MainCancels(s'.notes, text, id) == MainCancels(s.notes, text, id))
            && (!L.IsSubLabel(text) ==> SubCancels(s'.notes, text, id) == SubCancels(s.notes, text, id))
  {
    hide TableOk, ReadTable, StopTask, MainCancels, SubCancels, L.IsSubLabel;
    if ids != [] {
      var before := ids[..|ids| - 1];
      StopEachKinds(s, before, order, refused, text, id);
      StopEachInv(s, before, order, refused, Full);
      StopTaskKinds(StopEach(s, before, order, refused).s, ids[|ids| - 1], order, refused, text, id);
    }
  }

  lemma StopEachSpares(s: State, ids: seq<int>, order: seq<string>, refused: set<Note>, k: string)
    requires Inv(s, Full) && k in s.tasks
    ensures var s' := StopEach(s, ids, order, refused).s; k in s'.tasks ==> SparedBoth(s, s', s.tasks[k])
  {
    hide TableOk, ReadTable, StopEach, MainCancels, SubCancels, FreshIds, L.LabelOfUid, L.IsSubLabel, L.SubLabel;
    var n, s' := s.tasks[k].notice, StopEach(s, ids, order, refused).s;
    LiveFreshIds(s);
    StopEachLeaves(s, ids, order, refused);
    InvFits(s, k, Full);
    if k in s'.tasks && n.id != NO_ID {
      MainIsNotSub(n.text, s.tasks[k].app.uid);
      StopEachKinds(s, ids, order, refused, n.text, n.id);
      StopEachCounted(s, ids, order, refused, n.text, n.id);
      assert RefersTo(s'.tasks[k], n.text, n.id);
    }
    if k in s'.tasks && n.subId != NO_ID {
      SubLabelFits(s.tasks[k]);
      StopEachKinds(s, ids, order, refused, n.subText, n.subId);
      StopEachSparesSub(s, ids, order, refused, k);
    }
  }

  lemma StopTaskIsSeries(s: State, taskId: int, order: seq<string>, refused: set<Note>)
    ensures StopEach(s, [taskId], order, refused) == StopTask(s, taskId, order, refused)
  {
    hide StopTask;
    assert [taskId][..0] == [];
    assert StopEach(s, [], order, refused) == Reply(s, Ok);
  }

  /** Whoever is still there after a stop, by task id or by ability, has lost neither its main nor its
      additional notification to it. */
  lemma StopSparesSurvivors(s: State, uid: int, name: string, abilityId: int, taskId: int, order: seq<string>,
                            refused: set<Note>, k: string)
    requires Inv(s, Full) && k in s.tasks
    ensures var s' := StopInner(s, uid, name, abilityId, taskId, order, refused).s;
            k in s'.tasks ==> SparedBoth(s, s', s.tasks[k])
    ensures var s' := StopByContext(s, uid, name, abilityId, order, refused).s;
            k in s'.tasks ==> SparedBoth(s, s', s.tasks[k])
  {
    hide Inv, StopTask, StopEach, First, ContextIds, Cancels;
    StopTaskIsSeries(s, taskId, order, refused);
    StopEachSpares(s, [taskId], order, refused, k);
    StopEachSpares(s, ContextIds(s.tasks, order, uid, name, abilityId), order, refused, k);
  }

  // ---------------------------------------------------------------- every task of one ability is stopped

  lemma {:induction false} ContextIdsIs(t: Table, order: seq<string>, uid: int, name: string, abilityId: int)
    ensures forall k :: k in t && k in order && InContext(t[k], uid, name, abilityId)
              ==> t[k].app.taskId in ContextIds(t, order, uid, name, abilityId)
    ensures forall x :: x in ContextIds(t, order, uid, name, abilityId)
              ==> exists k :: k in t && k in order && t[k].app.taskId == x && InContext(t[k], uid, name, abilityId)
  {
    if order != [] {
      var n := |order| - 1;
      ContextIdsIs(t, order[..n], uid, name, abilityId);
      assert order == order[..n] + [order[n]];
    }
  }

  /** The service takes the cancels that follow the removal of `k`, the last of these ids. */
  predicate Taken(t: Table, ids: seq<int>, k: string, refused: set<Note>)
    requires k in t
  {
    CancelStatus(SharedCancel(WithoutIds(t, ids), t[k]), refused) == Ok
  }

  /** ... and the cancels of all of them, one after the other. */
  ghost predicate NoneRefused(t: Table, ids: seq<int>, refused: set<Note>) {
    if ids == [] then true
    else
      && NoneRefused(t, ids[..|ids| - 1], refused)
      && forall k :: k in t && t[k].app.taskId == ids[|ids| - 1] ==> Taken(t, ids, k, refused)
  }

  lemma StopTaskStatus(s: State, taskId: int, order: seq<string>, refused: set<Note>, k: string)
    requires FreshIds(s.tasks, s.nextTask) && k in s.tasks && k in order && s.tasks[k].app.taskId == taskId
    ensures StopTask(s, taskId, order, refused).status == CancelStatus(SharedCancel(s.tasks - {k}, s.tasks[k]), refused)
  {
    hide DropAndTell, SharedCancel;
    FirstIs(s.tasks, order, ById(taskId), k, s.nextTask);
  }

  predicate HasId(t: Table, taskId: int) {
    exists k :: k in t && t[k].app.taskId == taskId
  }

  lemma KeyOfId(t: Table, taskId: int) returns (k: string)
    requires HasId(t, taskId)
    ensures k in t && t[k].app.taskId == taskId
  {
    k :| k in t && t[k].app.taskId == taskId;
  }

  /** A series of stops of live tasks ends well exactly when the service refuses no last cancel. */
  lemma {:induction false} StopEachOkExact(s: State, ids: seq<int>, order: seq<string>, refused: set<Note>)
    requires FreshIds(s.tasks, s.nextTask) && (forall k :: k in s.tasks ==> k in order)
    requires AllDifferent(ids) && forall x :: x in ids ==> HasId(s.tasks, x)
    ensures StopEach(s, ids, order, refused).status == Ok <==> NoneRefused(s.tasks, ids, refused)
  {
    if ids != [] {
      hide StopTask, FreshIds, HasId, SharedCancel, CancelStatus, WithoutIds;
      var n := |ids| - 1;
      StopEachOkExact(s, ids[..n], order, refused);
      StopEachLeaves(s, ids[..n], order, refused);
      assert ids[n] in ids && ids[n] !in ids[..n] && ids == ids[..n] + [ids[n]];
      var k := KeyOfId(s.tasks, ids[n]);
      WithoutNext(s.tasks, ids[..n], k, s.nextTask);
      if StopEach(s, ids[..n], order, refused).status == Ok {
        StillThere(s.tasks, ids[..n], k);
        StopTaskStatus(StopEach(s, ids[..n], order, refused).s, ids[n], order, refused, k);
        OnlyOne(s, k);
      }
    }
  }

  lemma StillThere(t: Table, ids: seq<int>, k: string)
    requires k in t && t[k].app.taskId !in ids
    ensures k in WithoutIds(t, ids) && WithoutIds(t, ids)[k] == t[k]
  {
  }

  lemma OnlyOne(s: State, k: string)
    requires FreshIds(s.tasks, s.nextTask) && k in s.tasks
    ensures forall j :: j in s.tasks && s.tasks[j].app.taskId == s.tasks[k].app.taskId ==> j == k
  {
  }

  lemma {:induction false} NothingRefused(t: Table, ids: seq<int>)
    ensures NoneRefused(t, ids, {})
  {
    hide SharedCancel, WithoutIds;
    if ids != [] {
      NothingRefused(t, ids[..|ids| - 1]);
    }
  }

  lemma {:induction false} ContextIdsDistinct(t: Table, order: seq<string>, uid: int, name: string, abilityId: int,
                                              nextTask: int)
    requires FreshIds(t, nextTask) && forall i, j :: 0 <= i < j < |order| ==> order[i] != order[j]
    ensures AllDifferent(ContextIds(t, order, uid, name, abilityId))
  {
    if order != [] {
      var n := |order| - 1;
      ContextIdsDistinct(t, order[..n], uid, name, abilityId, nextTask);
      ContextIdsIs(t, order[..n], uid, name, abilityId);
      assert forall k :: k in order[..n] ==> k != order[n];
      var prev := ContextIds(t, order[..n], uid, name, abilityId);
      assert order[n] in t ==> forall x :: x in prev ==> x != t[order[n]].app.taskId;
      assert forall i :: 0 <= i < |prev| ==> prev[i] in prev;
    }
  }

  /** Stopping by ability, with the notification service succeeding, removes exactly the tasks of that
      ability, in whatever order the table is walked, and leaves the others as they are. */
  lemma StopByContextRemoves(s: State, uid: int, name: string, abilityId: int, order: seq<string>)
    requires FreshIds(s.tasks, s.nextTask) && IsWalk(order, s.tasks)
    ensures var reply := StopByContext(s, uid, name, abilityId, order, {});
            && reply.status == Ok
            && (forall k :: k in reply.s.tasks <==> k in s.tasks && !InContext(s.tasks[k], uid, name, abilityId))
            && (forall k :: k in reply.s.tasks ==> reply.s.tasks[k] == s.tasks[k])
  {
    hide StopEach, ContextIds;
    var ids := ContextIds(s.tasks, order, uid, name, abilityId);
    ContextIdsDistinct(s.tasks, order, uid, name, abilityId, s.nextTask);
    ContextIdsIs(s.tasks, order, uid, name, abilityId);
    NothingRefused(s.tasks, ids);
    StopEachOkExact(s, ids, order, {});
    StopEachLeaves(s, ids, order, {});
  }
}
