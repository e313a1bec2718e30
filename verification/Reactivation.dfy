/** The reactivation loop, from start to end. */
module Reactivation {
  import opened Wrappers
  import opened TaskRecord
  import opened Subscribers
  import opened TaskTable
  import opened Invariants
  import opened Recovery
  import L = Labels

  // ---------------------------------------------------------------- counting activation callbacks

  /** An application of `uid` has subscribed with this remote object. */
  ghost predicate IsOwner(subs: seq<Subscriber>, id: int, uid: int) {
    exists i :: 0 <= i < |subs| && subs[i].id == id && subs[i].hap && subs[i].uid == uid
  }

  /** Nobody in the list has this remote object. */
  ghost predicate Absent(subs: seq<Subscriber>, id: int) {
    forall i :: 0 <= i < |subs| ==> subs[i].id != id
  }

  lemma LastSubscriber(subs: seq<Subscriber>, id: int, uid: int)
    requires subs != [] && Distinct(subs)
    ensures var n := |subs| - 1;
            && Distinct(subs[..n])
            && (Absent(subs, id) ==> Absent(subs[..n], id) && subs[n].id != id)
            && (subs[n].id == id ==> Absent(subs[..n], id))
            && (IsSystemAbility(subs, id) <==> IsSystemAbility(subs[..n], id) || (subs[n].id == id && !subs[n].hap))
            && (IsOwner(subs, id, uid)
                <==> IsOwner(subs[..n], id, uid) || (subs[n].id == id && subs[n].hap && subs[n].uid == uid))
            && (Absent(subs[..n], id) ==> !IsOwner(subs[..n], id, uid) && !IsSystemAbility(subs[..n], id))
  {
    assert forall i :: 0 <= i < |subs| - 1 ==> subs[..|subs| - 1][i] == subs[i];
  }

  lemma NotifySnoc(subs: seq<Subscriber>, r: Record, e: Entry)
    requires subs != []
    ensures Times(Notify(subs, TaskActive, r), e)
         == Times(Notify(subs[..|subs| - 1], TaskActive, r), e) + Times(Callbacks(subs[|subs| - 1], TaskActive, r), e)
  {
    hide Callbacks;
  }

  lemma {:induction false} ActiveTimes(subs: seq<Subscriber>, r: Record, id: int, t: int)
    requires Distinct(subs) && !r.phase.standby
    ensures IsSystemAbility(subs, id) ==>
              Times(Notify(subs, TaskActive, r), Told(id, OnStart(t))) == One(t == r.app.taskId)
    ensures Times(Notify(subs, TaskActive, r), Told(id, OnActive(t)))
         == One(t == r.app.taskId && IsOwner(subs, id, r.app.uid))
    ensures Absent(subs, id) ==> Times(Notify(subs, TaskActive, r), Told(id, OnStart(t))) == 0
  {
    if subs == [] {
    } else {
      hide Times, Callbacks, IsSystemAbility, IsOwner, Absent, Distinct, Notify;
      var n := |subs| - 1;
      LastSubscriber(subs, id, r.app.uid);
      ActiveTimes(subs[..n], r, id, t);
      LastCounts(subs[n], r, id, t);
      NotifySnoc(subs, r, Told(id, OnStart(t)));
      NotifySnoc(subs, r, Told(id, OnActive(t)));
    }
  }

  lemma LastCounts(sub: Subscriber, r: Record, id: int, t: int)
    requires !r.phase.standby
    ensures sub.id != id ==> Times(Callbacks(sub, TaskActive, r), Told(id, OnStart(t))) == 0
    ensures !sub.hap && sub.id == id ==>
              Times(Callbacks(sub, TaskActive, r), Told(id, OnStart(t))) == One(t == r.app.taskId)
    ensures Times(Callbacks(sub, TaskActive, r), Told(id, OnActive(t)))
         == One(sub.id == id && sub.hap && sub.uid == r.app.uid && t == r.app.taskId)
  {
  }

  // ---------------------------------------------------------------- one reactivation

  predicate Sleeps(r: Record, uid: int) {
    r.app.uid == uid && r.phase.suspended
  }

  /** A record after its reactivation: awake, the same task doing the same work. */
  predicate Woken(r: Record, r': Record) {
    r'.app == r.app && r'.work == r.work && !r'.phase.suspended && !r'.phase.standby
  }

  lemma RefreshKeepsWork(r: Record, next: int, a: Answer)
    ensures Refresh(r, next, a).r.work == r.work
  {
    hide OwnLabel;
    var main := Publish(r, next, !a.main.Rejected?);
    if HasLiveViewPart(r) {
      if main.status != Ok || a.sub.EmptyText? {
      } else if a.sub.Unavailable? {
      } else {
      }
    } else if r.notice.id == NO_ID {
    } else {
    }
  }

  lemma ReactivatedOne(t: Turn, k: string, a: Answer)
    requires k in t.s.tasks
    ensures var s' := Reactivated(t, k, a).s;
            && s'.tasks.Keys == t.s.tasks.Keys && (forall j :: j in t.s.tasks && j != k ==> s'.tasks[j] == t.s.tasks[j])
            && Woken(t.s.tasks[k], s'.tasks[k])
            && s'.log == t.s.log + Notify(t.s.subs, TaskActive, Awake(t.s.tasks[k])) && s'.subs == t.s.subs
  {
    hide Notify, Refresh, WriteTable;
    var r := Awake(t.s.tasks[k]);
    RefreshKeepsCore(r, t.s.nextNote, a);
    RefreshKeepsWork(r, t.s.nextNote, a);
    if r.notice.id == NO_ID {
    } else if t.id == ILLEGAL_ID || r.notice.id !in t.seen {
    } else {
    }
  }

  // ---------------------------------------------------------------- the loop

  /** Where the loop stands after the records in `done`. */
  ghost predicate Progress(s: State, s': State, done: seq<string>, uid: int) {
    && s'.subs == s.subs && s'.tasks.Keys == s.tasks.Keys
    && forall k :: k in s.tasks ==>
         if k in done && Sleeps(s.tasks[k], uid) then Woken(s.tasks[k], s'.tasks[k]) else s'.tasks[k] == s.tasks[k]
  }

  lemma {:induction false} ReactivationsProgress(s: State, order: seq<string>, uid: int, answers: map<string, Answer>)
    ensures Progress(s, Reactivations(s, order, uid, answers).s, order, uid)
  {
    hide Reactivated;
    if order != [] {
      var n := |order| - 1;
      ReactivationsProgress(s, order[..n], uid, answers);
      var t, k := Reactivations(s, order[..n], uid, answers), order[n];
      assert order == order[..n] + [k];
      if k in t.s.tasks && Sleeps(t.s.tasks[k], uid) {
        ReactivatedOne(t, k, AnswerFor(answers, k));
      }
    }
  }

  /** Task `t` is one of the suspended tasks of the application among these keys. */
  predicate Slept(tasks: Table, order: seq<string>, uid: int, t: int) {
    exists k :: k in order && k in tasks && Sleeps(tasks[k], uid) && tasks[k].app.taskId == t
  }

  lemma SleptSnoc(tasks: Table, order: seq<string>, uid: int, t: int, nextTask: int)
    requires order != [] && FreshIds(tasks, nextTask)
    ensures var n := |order| - 1;
            var last := order[n] in tasks && Sleeps(tasks[order[n]], uid) && tasks[order[n]].app.taskId == t;
            && (Slept(tasks, order, uid, t) <==> Slept(tasks, order[..n], uid, t) || last)
            && (order[n] !in order[..n] && order[n] in tasks && tasks[order[n]].app.taskId == t ==>
                  !Slept(tasks, order[..n], uid, t))
  {
    assert order == order[..|order| - 1] + [order[|order| - 1]];
  }

  /** Callbacks for a reactivation, counted. */
  ghost predicate Announced(s: State, s': State, order: seq<string>, uid: int, id: int, t: int) {
    && (IsSystemAbility(s.subs, id) ==>
          Times(s'.log, Told(id, OnStart(t)))
          == Times(s.log, Told(id, OnStart(t))) + One(Slept(s.tasks, order, uid, t)))
    && Times(s'.log, Told(id, OnActive(t)))
       == Times(s.log, Told(id, OnActive(t))) + One(Slept(s.tasks, order, uid, t) && IsOwner(s.subs, id, uid))
  }

  lemma {:induction false} ReactivationsAnnounced(s: State, order: seq<string>, uid: int, answers: map<string, Answer>,
                                                  id: int, t: int)
    requires FreshIds(s.tasks, s.nextTask) && Distinct(s.subs)
    requires forall i, j :: 0 <= i < j < |order| ==> order[i] != order[j]
    ensures Announced(s, Reactivations(s, order, uid, answers).s, order, uid, id, t)
  {
    hide Reactivated, Times, FreshIds, IsSystemAbility, IsOwner, Slept;
    if order == [] {
      NobodySlept(s.tasks, uid, t);
    } else {
      var n := |order| - 1;
      ReactivationsAnnounced(s, order[..n], uid, answers, id, t);
      ReactivationsProgress(s, order[..n], uid, answers);
      SleptSnoc(s.tasks, order, uid, t, s.nextTask);
      var turn, k := Reactivations(s, order[..n], uid, answers), order[n];
      assert k !in order[..n];
      if k in turn.s.tasks && Sleeps(turn.s.tasks[k], uid) {
        var r := Awake(turn.s.tasks[k]);
        ReactivatedOne(turn, k, AnswerFor(answers, k));
        ActiveTimes(s.subs, r, id, t);
        TimesConcat(turn.s.log, Notify(s.subs, TaskActive, r), Told(id, OnStart(t)));
        TimesConcat(turn.s.log, Notify(s.subs, TaskActive, r), Told(id, OnActive(t)));
      }
    }
  }

  lemma NobodySlept(tasks: Table, uid: int, t: int)
    ensures !Slept(tasks, [], uid, t)
  {
  }

  /** The reactivation loop, for every walk over the table: no task of the application stays
      suspended, tasks that were running and tasks of other applications are untouched, and each
      system ability hears of exactly one start, and the application itself of exactly one
      activation, for each task that was suspended and for no other. */
  lemma ActivateExact(s: State, uid: int, order: seq<string>, answers: map<string, Answer>, id: int, t: int)
    requires Inv(s, Full) && IsWalk(order, s.tasks)
    ensures var s' := Activate(s, uid, order, answers);
            && s'.tasks.Keys == s.tasks.Keys
            && (forall k :: k in s.tasks ==>
                  if Sleeps(s.tasks[k], uid) then Woken(s.tasks[k], s'.tasks[k]) else s'.tasks[k] == s.tasks[k])
            && Announced(s, s', order, uid, id, t)
  {
    hide Reactivations, Announced, Woken, ReadTable, KeyOf, SameAbility, Fits;
    ReactivationsProgress(s, order, uid, answers);
    ReactivationsAnnounced(s, order, uid, answers, id, t);
  }
}
