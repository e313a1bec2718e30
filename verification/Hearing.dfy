/** Who is told what, counted: for each change of a task, which callbacks each subscriber gets, read off the change,
    the task and the subscription. */
module Hearing {
  import opened Wrappers
  import opened TaskRecord
  import opened Subscribers
  import opened TaskTable

  /** System abilities follow all tasks, and so do applications that watch task states. */
  predicate FollowsAll(sub: Subscriber) {
    !sub.hap || TaskStateFlag in sub.flags
  }

  /** The application that the task belongs to. */
  predicate Owns(sub: Subscriber, r: Record) {
    sub.hap && sub.uid == r.app.uid
  }

  /** A cancel by the user or by the system's power management is told to the application, a cancel by the user
      not to one whose component had started the task. */
  predicate ToldReason(r: Record) {
    r.phase.reason == 2 || (r.phase.reason == 1 && !r.app.fromComponent)
  }

  /** The subscriber is due this callback. A task handled by standby is suspended and activated without those who
      follow it being told. */
  predicate Due(sub: Subscriber, change: Change, r: Record, c: Callback) {
    match c
    case OnStart(t) =>
      t == r.app.taskId && FollowsAll(sub) && (change == TaskStart || (change == TaskActive && !r.phase.standby))
    case OnUpdate(t) => t == r.app.taskId && FollowsAll(sub) && change == TaskUpdate
    case OnStop(t) =>
      && t == r.app.taskId
      && (|| (change == TaskCancel && (FollowsAll(sub) || (Owns(sub, r) && ToldReason(r))))
          || (change == TaskSuspend && FollowsAll(sub) && !r.phase.standby))
    case OnSuspend(t) => t == r.app.taskId && Owns(sub, r) && change == TaskSuspend
    case OnActive(t) => t == r.app.taskId && Owns(sub, r) && change == TaskActive
    case OnAppStop(_) => false
  }

  lemma WhenTimes(b: bool, sent: int, c: Callback, id: int, c': Callback)
    ensures Times(When(b, sent, c), Told(id, c')) == One(b && sent == id && c == c')
  {
  }

  lemma CallbacksDue(sub: Subscriber, change: Change, r: Record, id: int, c: Callback)
    ensures Times(Callbacks(sub, change, r), Told(id, c)) == One(sub.id == id && Due(sub, change, r, c))
  {
    hide When, Times;
    var t, follows := r.app.taskId, !sub.hap || TaskStateFlag in sub.flags;
    match change {
      case TaskStart => WhenTimes(follows, sub.id, OnStart(t), id, c);
      case TaskUpdate => WhenTimes(follows, sub.id, OnUpdate(t), id, c);
      case TaskCancel =>
        WhenTimes(!sub.hap || CanNotifyHap(sub, r) || TaskStateFlag in sub.flags, sub.id, OnStop(t), id, c);
      case TaskSuspend => PairDue(sub, follows, r, OnStop(t), OnSuspend(t), id, c);
      case TaskActive => PairDue(sub, follows, r, OnStart(t), OnActive(t), id, c);
    }
  }

  lemma PairDue(sub: Subscriber, follows: bool, r: Record, a: Callback, b: Callback, id: int, c: Callback)
    requires a != b
    ensures var sent := When(follows && !r.phase.standby, sub.id, a) + When(sub.hap && sub.uid == r.app.uid, sub.id, b);
            Times(sent, Told(id, c))
            == One(sub.id == id && ((c == a && follows && !r.phase.standby) || (c == b && Owns(sub, r))))
  {
    hide When, Times;
    var x, y := When(follows && !r.phase.standby, sub.id, a), When(sub.hap && sub.uid == r.app.uid, sub.id, b);
    TimesConcat(x, y, Told(id, c));
    WhenTimes(follows && !r.phase.standby, sub.id, a, id, c);
    WhenTimes(sub.hap && sub.uid == r.app.uid, sub.id, b, id, c);
  }

  /** The subscriber with this remote object is due the callback. */
  ghost predicate SomeDue(subs: seq<Subscriber>, change: Change, r: Record, id: int, c: Callback) {
    exists i :: 0 <= i < |subs| && subs[i].id == id && Due(subs[i], change, r, c)
  }

  lemma SomeDueSnoc(subs: seq<Subscriber>, change: Change, r: Record, id: int, c: Callback)
    requires subs != [] && Distinct(subs)
    ensures var n := |subs| - 1;
            && Distinct(subs[..n])
            && One(SomeDue(subs, change, r, id, c))
               == One(SomeDue(subs[..n], change, r, id, c)) + One(subs[n].id == id && Due(subs[n], change, r, c))
  {
    hide Due;
    assert forall i :: 0 <= i < |subs| - 1 ==> subs[..|subs| - 1][i] == subs[i];
  }

  /** Each subscriber gets each callback it is due once, and no other. */
  lemma {:induction false} NotifyDue(subs: seq<Subscriber>, change: Change, r: Record, id: int, c: Callback)
    requires Distinct(subs)
    ensures Times(Notify(subs, change, r), Told(id, c)) == One(SomeDue(subs, change, r, id, c))
  {
    if subs != [] {
      hide Times, Callbacks, Distinct, SomeDue;
      var n := |subs| - 1;
      SomeDueSnoc(subs, change, r, id, c);
      NotifyDue(subs[..n], change, r, id, c);
      CallbacksDue(subs[n], change, r, id, c);
      TimesConcat(Notify(subs[..n], change, r), Callbacks(subs[n], change, r), Told(id, c));
    }
  }

  /** An application with this remote object watches task states. */
  ghost predicate Watches(subs: seq<Subscriber>, id: int) {
    exists i :: 0 <= i < |subs| && subs[i].id == id && subs[i].hap && TaskStateFlag in subs[i].flags
  }

  lemma WatchesSnoc(subs: seq<Subscriber>, id: int)
    requires subs != [] && Distinct(subs)
    ensures var n, last := |subs| - 1, subs[|subs| - 1];
            && Distinct(subs[..n])
            && One(Watches(subs, id)) == One(Watches(subs[..n], id))
                                         + One(last.id == id && last.hap && TaskStateFlag in last.flags)
  {
    assert forall i :: 0 <= i < |subs| - 1 ==> subs[..|subs| - 1][i] == subs[i];
  }

  /** The audio notice is one stop for each application that watches task states. */
  lemma {:induction false} AudioDue(subs: seq<Subscriber>, r: Record, id: int, c: Callback)
    requires Distinct(subs)
    ensures Times(NotifyAudio(subs, r), Told(id, c)) == One(c == OnStop(r.app.taskId) && Watches(subs, id))
  {
    if subs != [] {
      hide Times, AudioCallback, Distinct, Watches;
      var n := |subs| - 1;
      WatchesSnoc(subs, id);
      AudioDue(subs[..n], r, id, c);
      AudioCallbackDue(subs[n], r, id, c);
      TimesConcat(NotifyAudio(subs[..n], r), AudioCallback(subs[n], r), Told(id, c));
    }
  }

  lemma AudioCallbackDue(sub: Subscriber, r: Record, id: int, c: Callback)
    ensures Times(AudioCallback(sub, r), Told(id, c))
         == One(c == OnStop(r.app.taskId) && sub.id == id && sub.hap && TaskStateFlag in sub.flags)
  {
  }
}
