/** Crash consistency: what a restart brings back, and when the counters it computes are good. */
module Recovery {
  import opened Wrappers
  import opened TaskRecord
  import opened Subscribers
  import opened TaskTable
  import opened Invariants
  import opened Reachability
  import L = Labels

  /** Publishing changes a record only in its notification, whatever the record is. */
  lemma RefreshKeepsCore(r: Record, next: int, a: Answer)
    ensures Refresh(r, next, a).r.app == r.app && Refresh(r, next, a).r.phase == r.phase
  {
    hide L.MainLabel, L.SubLabel;
    var main := Publish(r, next, !a.main.Rejected?);
    if HasLiveViewPart(r) {
      if main.status != Ok || a.sub.EmptyText? {
      } else if a.sub.Unavailable? {
      } else {
      }
    } else if r.notice.id == NO_ID {
    } else {
    }
  }

  lemma RoundRecovers(s: State, k: string, alive: set<int>, answers: map<string, Answer>)
    ensures var t := RestoreRound(s, k, alive, answers).tasks;
            && (forall j :: j in t <==> j in s.tasks && (j == k ==> s.tasks[j].app.pid in alive))
            && (forall j :: j in t ==> SameCore(s.tasks[j], t[j]))
  {
    hide Refresh, SharedCancel;
    if k in s.tasks {
      RefreshKeepsCore(s.tasks[k], s.nextNote, AnswerFor(answers, k));
      if s.tasks[k].app.pid !in alive {
      } else if s.tasks[k].notice.id == NO_ID {
      } else {
      }
    }
  }

  lemma {:induction false} RoundsRecover(s: State, order: seq<string>, alive: set<int>, answers: map<string, Answer>)
    ensures var t := RestoreRounds(s, order, alive, answers).tasks;
            && (forall k :: k in t <==> k in s.tasks && (k in order ==> s.tasks[k].app.pid in alive))
            && (forall k :: k in t ==> SameCore(s.tasks[k], t[k]))
  {
    hide RestoreRound;
    if order != [] {
      var n := |order| - 1;
      RoundsRecover(s, order[..n], alive, answers);
      assert order == order[..n] + [order[n]];
      RoundRecovers(RestoreRounds(s, order[..n], alive, answers), order[n], alive, answers);
    }
  }

  /** The process of this record is known to be alive, or nothing is known. */
  predicate MayLive(alive: Option<set<int>>, r: Record) {
    alive.Some? ==> r.app.pid in alive.value
  }

  /** After a crash in any state whose file agrees with the table, a restart recovers exactly the tasks whose
      process is alive, or all of them when the process list cannot be read; each is the same task with the same
      suspend flag. */
  lemma RestartRecovers(s: State, alive: Option<set<int>>, reported: Option<set<int>>, order: seq<string>,
                        answers: map<string, Answer>)
    requires Agree(ReadTable(s.disk), s.tasks) && IsWalk(order, ReadTable(s.disk))
    ensures var t := Restart(s, alive, reported, order, answers).tasks;
            && (forall k :: k in t <==> k in s.tasks && MayLive(alive, s.tasks[k]))
            && (forall k :: k in t ==> SameCore(s.tasks[k], t[k]))
  {
    hide ReadTable, WriteTable, RestoreRounds, MaxTaskId, MaxNoteId, Rebuild;
    var file := ReadTable(s.disk);
    if alive.Some? {
      RoundsRecover(Fresh(s), order, alive.value, answers);
      assert Restart(s, alive, reported, order, answers).tasks
             == RestoreRounds(Fresh(s), order, alive.value, answers).tasks;
    }
    assert forall k :: k in file <==> k in s.tasks;
  }

  /** ... after any run. */
  lemma RunRecovers(steps: seq<Step>, alive: Option<set<int>>, reported: Option<set<int>>, order: seq<string>,
                    answers: map<string, Answer>)
    requires IsWalk(order, ReadTable(Run(INIT, steps).disk))
    ensures var s := Run(INIT, steps);
            var t := Restart(s, alive, reported, order, answers).tasks;
            && (forall k :: k in t <==> k in s.tasks && MayLive(alive, s.tasks[k]))
            && (forall k :: k in t ==> SameCore(s.tasks[k], t[k]))
  {
    hide Run, Restart, TableOk, ReadTable, IsWalk;
    RunInv(steps, Basic);
    RestartRecovers(Run(INIT, steps), alive, reported, order, answers);
  }

  /** Task-id freshness across a restart: the counter covers the live ids exactly when the process
      list was readable or no task was there to be restored. */
  lemma RestartIdsExact(s: State, alive: Option<set<int>>, reported: Option<set<int>>, order: seq<string>,
                        answers: map<string, Answer>)
    requires Inv(s, Full) && IsWalk(order, ReadTable(s.disk))
    ensures var s' := Restart(s, alive, reported, order, answers);
            FreshIds(s'.tasks, s'.nextTask) <==> alive.Some? || s.tasks == map[]
  {
    hide IsWalk, ReadTable, RestoreRounds, KeyOf, SameAbility, Fits;
    if alive.Some? {
      hide Restart;
      RestartInv(s, alive, reported, order, answers, Full);
    } else {
      var file := ReadTable(s.disk);
      assert Restart(s, alive, reported, order, answers) == Fresh(s);
      if s.tasks != map[] {
        var k :| k in s.tasks;
        assert k in file && 1 <= file[k].app.taskId;
      } else {
        assert file.Keys == {};
      }
    }
  }

  /** Notification ids across a restart: two applications stay apart, and the counter covers the main ids in use,
      exactly when the process list was readable or no restored task has a main notification. */
  lemma RestartNotesExact(s: State, alive: Option<set<int>>, reported: Option<set<int>>, order: seq<string>,
                          answers: map<string, Answer>)
    requires Inv(s, Full) && IsWalk(order, ReadTable(s.disk))
    ensures var s' := Restart(s, alive, reported, order, answers);
            Isolated(s'.tasks, s'.nextNote)
            <==> alive.Some? || forall k :: k in ReadTable(s.disk) ==> ReadTable(s.disk)[k].notice.id <= NO_ID
  {
    hide IsWalk, ReadTable, RestoreRounds, KeyOf, SameAbility, Fits;
    if alive.Some? {
      hide Restart;
      RestartInv(s, alive, reported, order, answers, Full);
    } else {
      assert Restart(s, alive, reported, order, answers) == Fresh(s);
    }
  }

  /** Otherwise the next notification of any application gets the first id once more, which a restored task of
      another application may hold. */
  lemma UnreadableProcessListRepeatsNotes(s: State, reported: Option<set<int>>, order: seq<string>,
                                          answers: map<string, Answer>, k: string, r: Record)
    requires k in ReadTable(s.disk) && ReadTable(s.disk)[k].notice.id == NO_ID + 1 && r.notice.id == NO_ID
    ensures var s' := Restart(s, None, reported, order, answers);
            k in s'.tasks && Publish(r, s'.nextNote, true).r.notice.id == s'.tasks[k].notice.id
  {
    hide ReadTable, OwnLabel;
  }

  /** `t'` is `t` with one more record, with this id, and the same tasks otherwise. */
  ghost predicate Adds(t: Table, t': Table, k: string, taskId: int) {
    && k !in t && k in t' && t'[k].app.taskId == taskId && t'.Keys == t.Keys + {k}
    && forall j :: j in t ==> t'[j].app == t[j].app
  }

  /** An accepted start adds one record with the next id and keeps every other record. */
  lemma StartedRecord(s: State, q: Request, env: StartEnv, order: seq<string>) returns (k: string)
    requires Start(s, q, env, order).status == Ok
    ensures Adds(s.tasks, Start(s, q, env, order).s.tasks, k, s.nextTask + 1)
  {
    hide Notify, WriteTable, Refresh, CheckStartModes, First, SameModes, Allowed, L.TaskKey;
    var r0 := NewRecord(q);
    var r := r0.(app := r0.app.(taskId := s.nextTask + 1));
    k := KeyOf(r);
    match CheckMerge(s.tasks, r, order) {
      case Refuse(_) =>
      case Share(j) =>
      case Separate =>
        RefreshKeepsCore(r, s.nextNote, env.answer);
    }
  }

  /** What goes wrong otherwise: when the process list could not be read and task 1 was restored,
      the next accepted start hands out id 1 a second time. */
  lemma UnreadableProcessListRepeatsIds(s: State, reported: Option<set<int>>, order: seq<string>, answers: map<string,
                                        Answer>,
                                        first: string, q: Request, env: StartEnv, order': seq<string>)
    requires Inv(s, Full) && first in s.tasks && s.tasks[first].app.taskId == 1
    requires Start(Restart(s, None, reported, order, answers), q, env, order').status == Ok
    ensures var t := Start(Restart(s, None, reported, order, answers), q, env, order').s.tasks;
            exists j, k :: j in t && k in t && j != k && t[j].app.taskId == t[k].app.taskId == 1
  {
    hide TableOk, Start, ReadTable;
    var s0 := Restart(s, None, reported, order, answers);
    var k := StartedRecord(s0, q, env, order');
    assert first in s0.tasks && s0.tasks[first].app.taskId == 1;
  }
}
