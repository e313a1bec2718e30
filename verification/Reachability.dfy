/** Safety over whole runs: the basic invariant holds in every state the manager can reach, the full one as long
    as restarts can read the process list. */
module Reachability {
  import opened Wrappers
  import opened Json
  import opened TaskRecord
  import opened Subscribers
  import opened TaskTable
  import opened Invariants
  import L = Labels

  // ---------------------------------------------------------------- start

  lemma NewRecordFacts(q: Request)
    ensures var r := NewRecord(q);
            && r.notice.id == NO_ID && r.notice.subId == NO_ID && !r.phase.suspended && !r.phase.standby
            && !r.phase.standbySuspended
            && r.phase.audioSuspends == 0 && !(r.app.byRequest && r.app.inner)
  {
  }

  /** A record that may enter the table next. */
  ghost predicate Enters(s: State, r: Record, next: int) {
    && KeyOf(r) !in s.tasks && r.app.taskId == s.nextTask + 1 && Fits(r) && !(r.app.byRequest && r.app.inner)
    && (r.app.byRequest ==> |SameAbility(s.tasks, r.app.abilityId)| < ABILITY_TASK_MAX_NUM)
    && s.nextNote <= next
    && (r.notice.id == NO_ID || s.nextNote < r.notice.id <= next
        || exists j :: j in s.tasks && s.tasks[j].app.uid == r.app.uid && s.tasks[j].notice.id == r.notice.id)
  }

  lemma InsertCount(t: Table, k: string, r: Record, abilityId: int)
    ensures SameAbility(t[k := r], abilityId)
         <= if r.app.byRequest && r.app.abilityId == abilityId then SameAbility(t, abilityId) + {k}
            else SameAbility(t, abilityId)
  {
  }

  lemma InsertBounded(t: Table, k: string, r: Record)
    requires Bounded(t)
    requires r.app.byRequest ==> |SameAbility(t, r.app.abilityId)| < ABILITY_TASK_MAX_NUM
    ensures Bounded(t[k := r])
  {
    hide SameAbility;
    var t' := t[k := r];
    forall a ensures |SameAbility(t', a)| <= ABILITY_TASK_MAX_NUM {
      var prev := SameAbility(t, a);
      InsertCount(t, k, r, a);
      SubsetSize(SameAbility(t', a), if r.app.byRequest && r.app.abilityId == a then prev + {k} else prev);
    }
  }

  lemma InsertTableOk(s: State, r: Record, next: int, g: Grade)
    requires TableOk(s.tasks, s.nextTask, s.nextNote, g) && Enters(s, r, next)
    ensures TableOk(s.tasks[KeyOf(r) := r], r.app.taskId, next, g)
  {
    hide L.LabelOfUid, L.TaskKey, SameAbility;
    var t' := s.tasks[KeyOf(r) := r];
    InsertBounded(s.tasks, KeyOf(r), r);
    assert Keyed(t') && Labelled(t') && OuterRequests(t');
    assert g.Full? ==> FreshIds(t', r.app.taskId) && Isolated(t', next);
  }

  /** The table gained one record and was written. */
  lemma InsertedInv(s: State, r: Record, s': State, g: Grade)
    requires Inv(s, g) && Enters(s, r, s'.nextNote)
    requires s'.tasks == s.tasks[KeyOf(r) := r] && s'.nextTask == r.app.taskId && s'.subs == s.subs
    requires s'.disk == WriteTable(s'.tasks)
    ensures Inv(s', g)
  {
    hide TableOk, Enters, WriteTable, ReadTable;
    InsertTableOk(s, r, s'.nextNote, g);
    SavedInv(s', g);
  }

  /** The counters moved and nothing else did. */
  lemma CountersInv(s: State, s': State, g: Grade)
    requires Inv(s, g) && s'.tasks == s.tasks && s'.disk == s.disk && s'.subs == s.subs
    requires s.nextTask <= s'.nextTask && s.nextNote <= s'.nextNote
    ensures Inv(s', g)
  {
    hide KeyOf, SameAbility, ReadTable, Fits;
    TableOkGrows(s.tasks, s.nextTask, s.nextNote, s'.nextTask, s'.nextNote, g);
    TableOkGrows(ReadTable(s.disk), s.nextTask, s.nextNote, s'.nextTask, s'.nextNote, g);
  }

  lemma {:induction false} FirstFinds(tasks: Table, order: seq<string>, q: Query)
    ensures var k := First(tasks, order, q); k.Some? ==> k.value in tasks && Matches(q, tasks[k.value])
  {
    if order != [] {
      FirstFinds(tasks, order[1..], q);
    }
  }

  lemma {:induction false} FirstFound(t: Table, order: seq<string>, q: Query, k: string)
    requires k in order && k in t && Matches(q, t[k])
    ensures First(t, order, q).Some?
  {
    if order[0] != k {
      FirstFound(t, order[1..], q, k);
    }
  }

  /** Ids are unique, so the walk order does not matter: the task with this id is the one found. */
  lemma FirstIs(t: Table, order: seq<string>, q: Query, k: string, nextTask: int)
    requires FreshIds(t, nextTask) && k in order && k in t && Matches(q, t[k]) && !q.OfUid?
    ensures First(t, order, q) == Some(k)
  {
    FirstFound(t, order, q, k);
    FirstFinds(t, order, q);
  }

  lemma SameAbilityPut(t: Table, k: string, r: Record, abilityId: int)
    requires k in t && SameTask(t[k], r)
    ensures SameAbility(t[k := r], abilityId) == SameAbility(t, abilityId)
  {
  }

  lemma ShareInv(s: State, r: Record, k: string, g: Grade)
    requires Inv(s, g) && k in s.tasks && s.tasks[k].app.uid == r.app.uid && r.notice.subId == NO_ID
    requires Enters(s, r, s.nextNote)
    ensures var t := s.tasks[k];
            Inv(Insert(Put(s.(nextTask := s.nextTask + 1), k, MergeTarget(t, r)), MergeInto(r, t)), g)
  {
    hide Inv, L.LabelOfUid, L.TaskKey, WriteTable, Notify, SameAbility;
    var t := s.tasks[k];
    InvFits(s, k, g);
    var s1 := Put(s, k, MergeTarget(t, r));
    ChangedInv(s, k, MergeTarget(t, r), s1, g);
    SameAbilityPut(s.tasks, k, MergeTarget(t, r), r.app.abilityId);
    assert s1.tasks[k] == MergeTarget(t, r);
    InsertedInv(s1, MergeInto(r, t),
                Insert(Put(s.(nextTask := s.nextTask + 1), k, MergeTarget(t, r)), MergeInto(r, t)), g);
  }

  lemma PublishedInv(s: State, r: Record, answer: Answer, g: Grade)
    requires Inv(s, g) && Enters(s, r, s.nextNote) && r.notice.id == NO_ID
    ensures var p := Refresh(r, s.nextNote, answer);
            var s1 := Noted(s.(nextTask := s.nextTask + 1), p.notes).(nextNote := p.next);
            Inv(s1, g) && Inv(Insert(s1, p.r), g)
  {
    hide Inv, L.LabelOfUid, WriteTable, Notify, Refresh, SameAbility;
    var p := Refresh(r, s.nextNote, answer);
    RefreshFollows(r, s.nextNote, answer);
    var s1 := Noted(s.(nextTask := s.nextTask + 1), p.notes).(nextNote := p.next);
    CountersInv(s, s1, g);
    assert KeyOf(p.r) == KeyOf(r);
    InsertedInv(s, p.r, Insert(s1, p.r), g);
  }

  lemma SubmitInv(s: State, r: Record, env: StartEnv, order: seq<string>, g: Grade)
    requires Inv(s, g) && Enters(s, r, s.nextNote) && r.notice.id == NO_ID && r.notice.subId == NO_ID
    ensures Inv(Submit(s.(nextTask := s.nextTask + 1), r, env, order).s, g)
  {
    hide Inv, CheckStartModes, First, Insert, Refresh, Enters, SameModes;
    var s1 := s.(nextTask := s.nextTask + 1);
    CountersInv(s, s1, g);
    FirstFinds(s1.tasks, order, ByIdAndUid(r.work.mergeTaskId, r.app.uid));
    if CheckStartModes(r, env) == Ok {
      match CheckMerge(s1.tasks, r, order) {
        case Refuse(_) =>
        case Share(k) =>
          ShareInv(s, r, k, g);
        case Separate =>
          PublishedInv(s, r, env.answer, g);
          PlainInsertInv(s, r, g);
      }
    }
  }

  lemma PlainInsertInv(s: State, r: Record, g: Grade)
    requires Inv(s, g) && Enters(s, r, s.nextNote)
    ensures Inv(Insert(s.(nextTask := s.nextTask + 1), r), g)
  {
    hide Inv, WriteTable, Notify;
    InsertedInv(s, r, Insert(s.(nextTask := s.nextTask + 1), r), g);
  }

  lemma StartInv(s: State, q: Request, env: StartEnv, order: seq<string>, g: Grade)
    requires Inv(s, g)
    ensures Inv(Start(s, q, env, order).s, g)
  {
    hide Inv, Submit, KeyOf, AppliedModes;
    var r0 := NewRecord(q);
    NewRecordFacts(q);
    if r0.app.uid !in s.disabled && Allowed(s, r0, env) == Ok {
      var r := r0.(app := r0.app.(taskId := s.nextTask + 1));
      CountersInv(s, s.(nextTask := s.nextTask + 1), g);
      if KeyOf(r) !in s.tasks {
        InvFitsCounter(s, g);
        SubmitInv(s, r, env, order, g);
      }
    }
  }

  lemma InvFitsCounter(s: State, g: Grade)
    requires Inv(s, g)
    ensures NO_ID <= s.nextNote
  {
  }

  // ---------------------------------------------------------------- update

  lemma AfterUpdateInv(s: State, k: string, order: seq<string>, env: UpdateEnv, g: Grade)
    requires Inv(s, g) && k in s.tasks
    ensures Inv(AfterUpdate(s, k, order, env), g)
  {
    hide TableOk, ReadTable, WriteTable, Activate, Notify;
    ActivateInv(s, s.tasks[k].app.uid, order, env.answers, g);
    var s1 := if s.tasks[k].phase.suspended then Activate(s, s.tasks[k].app.uid, order, env.answers) else s;
    if k in s1.tasks {
      SavedInv(Save(Emit(s1, TaskUpdate, s1.tasks[k])), g);
    }
  }

  /** An update keeps identity, persisted core and notification rules of the record. */
  predicate Updates(r: Record, next: int, p: Posted) {
    Renotes(r, p.r, next, p.next) && SameCore(r, p.r)
  }

  lemma SettleInv(s: State, k: string, p: Posted, g: Grade)
    requires Inv(s, g) && k in s.tasks && Updates(s.tasks[k], s.nextNote, p)
    ensures Inv(Settle(s, k, p), g)
  {
    hide Inv, Fits, WriteTable;
    ChangedInv(s, k, p.r, Settle(s, k, p), g);
  }

  lemma UpdateNotificationUpdates(r: Record, next: int, p: UpdateParam, env: UpdateEnv)
    requires Fits(r)
    ensures Updates(r, next, UpdateNotification(r, next, p, env))
  {
    hide L.LabelOfUid, Send, SameModes;
    var w := if p.want.Some? then r.(work := r.work.(want := p.want)) else r;
    var u := w.(work := w.work.(modeId := p.modeId, modes := p.modes, subModes := p.subModes));
    SendFollows(u, next, env.verdict);
  }

  lemma UpdateByIdInv(s: State, caller: int, p: UpdateParam, env: UpdateEnv, order: seq<string>, g: Grade)
    requires Inv(s, g)
    ensures Inv(UpdateById(s, caller, p, env, order).s, g)
  {
    hide Inv, First, CheckModes, UpdateNotification, Settle, AfterUpdate, Updates, Fits;
    var found := First(s.tasks, order, ByIdAndRequest(p.taskId));
    if found.Some? && found.value in s.tasks {
      var k := found.value;
      InvFits(s, k, g);
      UpdateNotificationUpdates(s.tasks[k], s.nextNote, p, env);
      SettledThenUpdatedInv(s, k, UpdateNotification(s.tasks[k], s.nextNote, p, env), order, env, g);
    }
  }

  lemma SettledThenUpdatedInv(s: State, k: string, p: Posted, order: seq<string>, env: UpdateEnv, g: Grade)
    requires Inv(s, g) && k in s.tasks && Updates(s.tasks[k], s.nextNote, p)
    ensures Inv(Settle(s, k, p), g) && k in Settle(s, k, p).tasks && Inv(AfterUpdate(Settle(s, k, p), k, order, env), g)
  {
    hide Inv, AfterUpdate, Updates;
    SettleInv(s, k, p, g);
    AfterUpdateInv(Settle(s, k, p), k, order, env, g);
  }

  /** The record as the legacy update leaves it, before and after the mode check. */
  lemma UpdateByKeyRecords(r: Record, next: int, p: UpdateParam, v: Verdict)
    requires Fits(r)
    ensures var r1 := LegacySubModes(r, p); Updates(r, next, Posted(r1, next, [], Ok))
    ensures Updates(r, next, LegacyPosted(r, next, p, v))
  {
    hide L.LabelOfUid, Send;
    var r2 := LegacySubModes(r, p);
    var r3 := r2.(work := r2.work.(modes := p.modes, batchApi := p.batchApi));
    SendFollows(r3, next, v);
  }

  lemma PutUpdatedInv(s: State, k: string, r: Record, g: Grade)
    requires Inv(s, g) && k in s.tasks && Updates(s.tasks[k], s.nextNote, Posted(r, s.nextNote, [], Ok))
    ensures Inv(Put(s, k, r), g)
  {
    hide Inv, Fits;
    SettleInv(s, k, Posted(r, s.nextNote, [], Ok), g);
    InvParts(Settle(s, k, Posted(r, s.nextNote, [], Ok)), Put(s, k, r), g);
  }

  /** Where a legacy update ends: before any change, after the submodes, after publishing, or at its end. */
  lemma UpdateByKeyEnds(s: State, k: string, p: UpdateParam, env: UpdateEnv, order: seq<string>)
    requires k in s.tasks && k in Settle(s, k, LegacyPosted(s.tasks[k], s.nextNote, p, env.verdict)).tasks
    ensures var s' := UpdateByKey(s, k, p, env, order).s;
            var s1 := Settle(s, k, LegacyPosted(s.tasks[k], s.nextNote, p, env.verdict));
            || s' == s || s' == Put(s, k, LegacySubModes(s.tasks[k], p))
            || s' == s1 || s' == AfterUpdate(s1, k, order, env)
  {
    hide CheckModes, AfterUpdate, SameModes, LegacySubModes, LegacyPosted, Settle, Put;
    var r := s.tasks[k];
    if r.app.uid in s.disabled {
    } else if SameModes(r.work.modes, p.modes) {
    } else if CheckModes(env.configured, p.modes, true, LegacySubModes(r, p), env.keeping, env.special) != Ok {
    } else if LegacyPosted(r, s.nextNote, p, env.verdict).status != Ok {
    } else {
    }
  }

  lemma UpdateByKeyInv(s: State, k: string, p: UpdateParam, env: UpdateEnv, order: seq<string>, g: Grade)
    requires Inv(s, g)
    ensures Inv(UpdateByKey(s, k, p, env, order).s, g)
  {
    hide Inv, AfterUpdate, LegacySubModes, LegacyPosted, Settle, Put, Updates;
    if k in s.tasks {
      hide UpdateByKey;
      var r := s.tasks[k];
      InvFits(s, k, g);
      UpdateByKeyRecords(r, s.nextNote, p, env.verdict);
      PutUpdatedInv(s, k, LegacySubModes(r, p), g);
      SettledThenUpdatedInv(s, k, LegacyPosted(r, s.nextNote, p, env.verdict), order, env, g);
      UpdateByKeyEnds(s, k, p, env, order);
    }
  }

  lemma SendInv(s: State, k: string, r: Record, v: Verdict, g: Grade)
    requires Inv(s, g) && k in s.tasks && r.app == s.tasks[k].app && r.notice == s.tasks[k].notice
    requires r.phase == s.tasks[k].phase
    ensures var s1 := Settle(s, k, Send(r, s.nextNote, v)); Inv(s1, g) && Inv(Save(s1), g)
  {
    hide TableOk, ReadTable, Send, L.LabelOfUid, WriteTable;
    InvFits(s, k, g);
    SendFollows(r, s.nextNote, v);
    SettleInv(s, k, Send(r, s.nextNote, v), g);
    SavedInv(Save(Settle(s, k, Send(r, s.nextNote, v))), g);
  }

  lemma ProgressInv(s: State, uid: int, taskId: int, progress: Option<ProgressInfo>, v: Verdict, order: seq<string>,
                    g: Grade)
    requires Inv(s, g)
    ensures Inv(UpdateProgress(s, uid, taskId, progress, v, order).s, g)
  {
    hide Inv, First, Send, Settle, Save;
    var found := First(s.tasks, order, ByIdAndUid(taskId, uid));
    if found.Some? && found.value in s.tasks {
      var k := found.value;
      SendInv(s, k, s.tasks[k].(work := s.tasks[k].work.(progress := progress)), v, g);
    }
  }

  lemma AvSessionInv(s: State, uid: int, published: bool, v: Verdict, order: seq<string>, g: Grade)
    requires Inv(s, g)
    ensures Inv(AvSession(s, uid, published, v, order), g)
  {
    hide Inv, First, Send, Settle, Save, Put, Noted, MainNote, NoNote;
    var found := First(s.tasks, order, OfUid(uid));
    if found.Some? && found.value in s.tasks {
      SendInv(s, found.value, s.tasks[found.value], v, g);
      ResaveInv(s, g);
      DetectedInv(s, found.value, g);
      WithdrawnInv(s, found.value, g);
    }
  }

  lemma DetectedInv(s: State, k: string, g: Grade)
    requires Inv(s, g) && k in s.tasks
    ensures Inv(Put(s, k, s.tasks[k].(phase := s.tasks[k].phase.(audioDetected := true))), g)
  {
    hide Inv, L.LabelOfUid, WriteTable, OwnSubLabel;
    InvFits(s, k, g);
    var r := s.tasks[k].(phase := s.tasks[k].phase.(audioDetected := true));
    SubLabelStays(s.tasks[k], r);
    ChangedInv(s, k, r, Put(s, k, r), g);
  }

  lemma WithdrawnInv(s: State, k: string, g: Grade)
    requires Inv(s, g) && k in s.tasks
    ensures Inv(Save(Noted(Put(s, k, NoNote(s.tasks[k])), MainNote(s.tasks[k]))), g)
  {
    hide Inv, L.LabelOfUid, WriteTable, OwnSubLabel;
    InvFits(s, k, g);
    SubLabelStays(s.tasks[k], NoNote(s.tasks[k]));
    ChangedInv(s, k, NoNote(s.tasks[k]), Save(Noted(Put(s, k, NoNote(s.tasks[k])), MainNote(s.tasks[k]))), g);
  }

  lemma SubLabelStays(r: Record, r': Record)
    requires r'.app == r.app
    ensures OwnSubLabel(r') == OwnSubLabel(r)
  {
  }

  lemma ResaveInv(s: State, g: Grade)
    requires Inv(s, g)
    ensures Inv(Save(s), g)
  {
    hide TableOk, ReadTable, WriteTable;
    SavedInv(Save(s), g);
  }

  // ---------------------------------------------------------------- subscribers

  lemma SubsInv(s: State, s': State, g: Grade)
    requires Inv(s, g) && s'.tasks == s.tasks && s'.disk == s.disk && s'.nextTask == s.nextTask
    requires s'.nextNote == s.nextNote
    requires Distinct(s'.subs)
    ensures Inv(s', g)
  {
  }

  lemma {:induction false} WithoutDistinct(subs: seq<Subscriber>, id: int)
    requires Distinct(subs)
    ensures Distinct(Without(subs, id))
    ensures forall x :: x in Without(subs, id) <==> x in subs && x.id != id
  {
    if subs != [] {
      var n := |subs| - 1;
      WithoutDistinct(subs[..n], id);
      assert subs == subs[..n] + [subs[n]];
      var w := Without(subs[..n], id);
      assert forall i :: 0 <= i < |w| ==> w[i] in w;
      assert forall x :: x in subs[..n] ==> x.id != subs[n].id;
    }
  }

  lemma SubscribeInv(s: State, sub: Subscriber, g: Grade)
    requires Inv(s, g)
    ensures Inv(Subscribe(s, sub), g)
  {
    hide TableOk, ReadTable, Snapshot;
    SubsInv(s, Subscribe(s, sub), g);
  }

  lemma UnsubscribeInv(s: State, id: int, flags: set<Flag>, g: Grade)
    requires Inv(s, g)
    ensures Inv(Unsubscribe(s, id, flags), g) && Inv(s.(subs := Without(s.subs, id)), g)
  {
    hide TableOk, ReadTable, Without;
    WithoutDistinct(s.subs, id);
    SubsInv(s, s.(subs := Without(s.subs, id)), g);
    SubsInv(s, s.(subs := Narrow(s.subs, id, flags)), g);
  }

  // ---------------------------------------------------------------- restart

  lemma {:induction false} MaximaBound(t: Table, order: seq<string>)
    ensures -1 <= MaxTaskId(t, order) && -1 <= MaxNoteId(t, order)
    ensures forall k :: k in t && k in order ==>
              t[k].app.taskId <= MaxTaskId(t, order) && t[k].notice.id <= MaxNoteId(t, order)
  {
    if order != [] {
      var n := |order| - 1;
      MaximaBound(t, order[..n]);
      assert order == order[..n] + [order[n]];
    }
  }

  /** The maxima are good counters for the table they were taken over. */
  lemma MaximaTableOk(t: Table, order: seq<string>, nextTask: int, nextNote: int, g: Grade)
    requires TableOk(t, nextTask, nextNote, g) && (g.Full? ==> IsWalk(order, t))
    ensures var m := MaxTaskId(t, order); TableOk(t, if m != -1 then m else 0, MaxNoteId(t, order), g)
  {
    hide KeyOf, Fits, SameAbility, MaxTaskId, MaxNoteId;
    MaximaBound(t, order);
    var m := MaxTaskId(t, order);
    assert g.Full? ==> FreshIds(t, if m != -1 then m else 0) && Isolated(t, MaxNoteId(t, order));
  }

  lemma RestoreRoundOk(s: State, k: string, alive: set<int>, answers: map<string, Answer>, nextTask: int,
                       nextNote: int, g: Grade)
    requires TableOk(s.tasks, nextTask, nextNote, g) && NO_ID <= s.nextNote
    ensures var s' := RestoreRound(s, k, alive, answers);
            && TableOk(s'.tasks, nextTask, nextNote, g) && NO_ID <= s'.nextNote && SameRest(s, s')
  {
    hide KeyOf, SameAbility, Refresh, SharedCancel, L.LabelOfUid;
    if k in s.tasks {
      var r := s.tasks[k];
      if r.app.pid !in alive {
        QuietTableOk(s.tasks, s.tasks - {k}, nextTask, nextNote, g);
      } else if r.notice.id != NO_ID {
        RefreshFollows(r, s.nextNote, AnswerFor(answers, k));
        PutTableOk(s.tasks, nextTask, nextNote, k, Refresh(r, s.nextNote, AnswerFor(answers, k)).r, nextNote, g);
      }
    }
  }

  lemma {:induction false} RestoreRoundsOk(s: State, order: seq<string>, alive: set<int>, answers: map<string, Answer>,
                                           nextTask: int, nextNote: int, g: Grade)
    requires TableOk(s.tasks, nextTask, nextNote, g) && NO_ID <= s.nextNote
    ensures var s' := RestoreRounds(s, order, alive, answers);
            && TableOk(s'.tasks, nextTask, nextNote, g) && NO_ID <= s'.nextNote && SameRest(s, s')
  {
    hide TableOk, RestoreRound;
    if order != [] {
      var n := |order| - 1;
      RestoreRoundsOk(s, order[..n], alive, answers, nextTask, nextNote, g);
      RestoreRoundOk(RestoreRounds(s, order[..n], alive, answers), order[n], alive, answers, nextTask, nextNote, g);
    }
  }

  lemma RestartInv(s: State, alive: Option<set<int>>, reported: Option<set<int>>, order: seq<string>,
                   answers: map<string, Answer>, g: Grade)
    requires Inv(s, g) && (g.Full? ==> alive.Some? && IsWalk(order, ReadTable(s.disk)))
    ensures Inv(Restart(s, alive, reported, order, answers), g)
  {
    hide TableOk, IsWalk, ReadTable, WriteTable, RestoreRounds, MaxTaskId, MaxNoteId, Rebuild;
    if alive.None? {
      FreshInv(s);
    } else {
      var s0 := Fresh(s);
      var t, n := MaxTaskId(s0.tasks, order), MaxNoteId(s0.tasks, order);
      MaximaTableOk(s0.tasks, order, s.nextTask, s.nextNote, g);
      MaximaBound(s0.tasks, order);
      RestoreRoundsOk(s0, order, alive.value, answers, if t != -1 then t else 0, n, g);
      var s1 := RestoreRounds(s0, order, alive.value, answers);
      var s2 := s1.(nextTask := if t != -1 then t else s1.nextTask, nextNote := if n != -1 then n else s1.nextNote);
      TableOkGrows(s1.tasks, s2.nextTask, n, s2.nextTask, s2.nextNote, g);
      SavedInv(Save(s2), g);
      InvParts(Save(s2), RestoreApplied(Save(s2), reported, order), g);
    }
  }

  /** Without a process list the new process has the table of the file and the first counters. */
  lemma FreshInv(s: State)
    requires Inv(s, Basic)
    ensures Inv(Fresh(s), Basic)
  {
    hide ReadTable, KeyOf, SameAbility, Fits;
  }

  // ---------------------------------------------------------------- runs

  /** A restart finds the process list readable and walks the table it has read. */
  ghost predicate Sound(s: State, step: Step) {
    step.RestartStep? ==> step.alive.Some? && IsWalk(step.order, ReadTable(s.disk))
  }

  ghost predicate SoundRun(s: State, steps: seq<Step>) {
    if steps == [] then true
    else SoundRun(s, steps[..|steps| - 1]) && Sound(Run(s, steps[..|steps| - 1]), steps[|steps| - 1])
  }

  lemma StepInv(s: State, step: Step, g: Grade)
    requires Inv(s, g) && (g.Full? ==> Sound(s, step))
    ensures Inv(Apply(s, step), g)
  {
    hide Inv, Start, UpdateById, UpdateByKey, UpdateProgress, StopInner, StopByContext, StopByKey, Loop, Dismiss,
      Suspend,
      Activate, AvSession, Subscribe, Unsubscribe, Without, Restart, IsWalk, ReadTable;
    match step
    case StartStep(q, env, order) => StartInv(s, q, env, order, g);
    case UpdateByIdStep(caller, p, env, order) => UpdateByIdInv(s, caller, p, env, order, g);
    case UpdateByKeyStep(k, p, env, order) => UpdateByKeyInv(s, k, p, env, order, g);
    case ProgressStep(uid, taskId, progress, v, order) => ProgressInv(s, uid, taskId, progress, v, order, g);
    case StopStep(uid, name, abilityId, taskId, order, refused) =>
      StopInnerInv(s, uid, name, abilityId, taskId, order, refused, g);
    case AbilityGoneStep(uid, name, abilityId, order, refused) =>
      StopInnerInv(s, uid, name, abilityId, 0, order, refused, g);
    case StopByKeyStep(k, order, refused) => StopByKeyInv(s, k, order, refused, g);
    case LoopStep(job, order) => LoopInv(s, job, order, g);
    case DismissStep(k, isSub, order) => DismissInv(s, k, isSub, order, g);
    case SuspendStep(uid, reason, k, standby, order, refused) =>
      SuspendInv(s, uid, reason, k, standby, order, refused, g);
    case ActiveStep(uid, standby, order, answers) =>
      ActivateInv(s, uid, order, answers, g);
      LoopInv(s, StandbyActive(uid), order, g);
    case AvSessionStep(uid, published, v, order) => AvSessionInv(s, uid, published, v, order, g);
    case AppStateStep(uid, toForeground, order) => InvParts(s, AppState(s, uid, toForeground, order), g);
    case SubscribeStep(sub) => SubscribeInv(s, sub, g);
    case UnsubscribeStep(id, flags) => UnsubscribeInv(s, id, flags, g);
    case SubscriberDiedStep(id) => UnsubscribeInv(s, id, {}, g);
    case EnableStep(uid, enable) => InvParts(s, Apply(s, step), g);
    case BannerStep => CountersInv(s, Apply(s, step), g);
    case RestartStep(alive, reported, order, answers) => RestartInv(s, alive, reported, order, answers, g);
  }

  lemma InitInv(g: Grade)
    ensures Inv(INIT, g)
  {
    assert SameAbility(INIT.tasks, 0) == {};
    assert forall a :: SameAbility(INIT.tasks, a) == {};
  }

  /** Safety over whole runs. In every state reached from the initial one, restarts of every kind included: keys
      match records, labels name their application, at most ten request-object tasks share an ability id, and the
      file agrees with the table. As long as restarts can read the process list, moreover, task ids are distinct and
      at most the counter, and two tasks share a notification id only inside one application. */
  lemma {:induction false} RunInv(steps: seq<Step>, g: Grade)
    requires g.Full? ==> SoundRun(INIT, steps)
    ensures Inv(Run(INIT, steps), g)
  {
    hide Inv, Apply, Sound;
    if steps == [] {
      InitInv(g);
    } else {
      RunInv(steps[..|steps| - 1], g);
      StepInv(Run(INIT, steps[..|steps| - 1]), steps[|steps| - 1], g);
    }
  }

  predicate SameLegacy(a: App, b: App) {
    !a.byRequest && !b.byRequest && a.uid == b.uid && a.abilityName == b.abilityName && a.abilityId == b.abilityId
  }

  /** Table bounds over all runs: one legacy task per application, ability name and ability id, and ten
      request-object tasks per ability id. */
  lemma RunBounds(steps: seq<Step>, j: string, k: string, abilityId: int)
    ensures var t := Run(INIT, steps).tasks;
            && |SameAbility(t, abilityId)| <= ABILITY_TASK_MAX_NUM
            && (j in t && k in t && SameLegacy(t[j].app, t[k].app) ==> j == k)
  {
    hide Run, SameAbility, ReadTable, Fits;
    RunInv(steps, Basic);
  }
}
