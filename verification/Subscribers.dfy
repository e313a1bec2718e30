/** The subscriber list and the callbacks it is sent (the NotifySubscribers family of
    bg_continuous_task_mgr.cpp), together with the history those callbacks form. */
module Subscribers {
  import opened TaskRecord

  /** Bits of a subscriber's flag word. */
  datatype Flag = OnCancelFlag | SuspendFlag | ActiveFlag | TaskStateFlag

  /** `id` identifies the remote object. A subscriber is an application (`hap`) or a system ability. */
  datatype Subscriber = Subscriber(id: int, uid: int, hap: bool, flags: set<Flag>)

  datatype Change = TaskStart | TaskUpdate | TaskCancel | TaskSuspend | TaskActive

  datatype Callback =
    | OnStart(taskId: int) | OnUpdate(taskId: int) | OnStop(taskId: int)
    | OnSuspend(taskId: int) | OnActive(taskId: int) | OnAppStop(uid: int)

  /** History: a subscriber joins and reads the non-suspended tasks, or is sent a callback. */
  datatype Entry = Joined(id: int, snapshot: set<int>) | Told(id: int, callback: Callback)

  const REMOVE_NOTIFICATION_CANCEL: int := 1
  const FREEZE_CANCEL: int := 2
  const SYSTEM_CANCEL: int := 3

  /** CanNotifyHap. */
  predicate CanNotifyHap(sub: Subscriber, r: Record) {
    && sub.hap && sub.uid == r.app.uid
    && !(r.phase.reason == REMOVE_NOTIFICATION_CANCEL && r.app.fromComponent)
    && (r.phase.reason == REMOVE_NOTIFICATION_CANCEL || r.phase.reason == FREEZE_CANCEL)
  }

  function When(b: bool, id: int, c: Callback): seq<Entry> {
    if b then [Told(id, c)] else []
  }

  /** What one subscriber is sent for one change of one task. */
  function Callbacks(sub: Subscriber, change: Change, r: Record): seq<Entry> {
    var watches := TaskStateFlag in sub.flags;
    match change
    case TaskStart => When(!sub.hap || watches, sub.id, OnStart(r.app.taskId))
    case TaskUpdate => When(!sub.hap || watches, sub.id, OnUpdate(r.app.taskId))
    case TaskCancel => When(!sub.hap || CanNotifyHap(sub, r) || watches, sub.id, OnStop(r.app.taskId))
    case TaskSuspend =>
      When((!sub.hap || watches) && !r.phase.standby, sub.id, OnStop(r.app.taskId))
      + When(sub.hap && sub.uid == r.app.uid, sub.id, OnSuspend(r.app.taskId))
    case TaskActive =>
      When((!sub.hap || watches) && !r.phase.standby, sub.id, OnStart(r.app.taskId))
      + When(sub.hap && sub.uid == r.app.uid, sub.id, OnActive(r.app.taskId))
  }

  /** OnContinuousTaskChanged: all subscribers in turn. */
  function Notify(subs: seq<Subscriber>, change: Change, r: Record): seq<Entry> {
    if subs == [] then []
    else Notify(subs[..|subs| - 1], change, r) + Callbacks(subs[|subs| - 1], change, r)
  }

  /** The loop of HandleAppContinuousTaskStop: system abilities only. */
  function NotifyAppStop(subs: seq<Subscriber>, uid: int): seq<Entry> {
    if subs == [] then []
    else NotifyAppStop(subs[..|subs| - 1], uid) + When(!subs[|subs| - 1].hap, subs[|subs| - 1].id, OnAppStop(uid))
  }

  /** What one subscriber is sent by the audio notice: an application that watches task states, a stop. */
  function AudioCallback(sub: Subscriber, r: Record): seq<Entry> {
    When(sub.hap && TaskStateFlag in sub.flags, sub.id, OnStop(r.app.taskId))
  }

  /** SendAudioCallBackTaskState. */
  function NotifyAudio(subs: seq<Subscriber>, r: Record): seq<Entry> {
    if subs == [] then [] else NotifyAudio(subs[..|subs| - 1], r) + AudioCallback(subs[|subs| - 1], r)
  }

  /** IsExistCallback. */
  predicate HasCallback(subs: seq<Subscriber>, uid: int, flag: Flag) {
    exists i :: 0 <= i < |subs| && subs[i].hap && subs[i].uid == uid && flag in subs[i].flags
  }

  ghost predicate Distinct(subs: seq<Subscriber>) {
    forall i, j :: 0 <= i < j < |subs| ==> subs[i].id != subs[j].id
  }

  /** A system ability with this remote object is subscribed. */
  ghost predicate IsSystemAbility(subs: seq<Subscriber>, id: int) {
    exists i :: 0 <= i < |subs| && subs[i].id == id && !subs[i].hap
  }

  // ---------------------------------------------------------------- what a subscriber concludes

  /** The set of running tasks a subscriber holds that starts from its snapshot and folds every
      start and stop callback it is sent. */
  function View(log: seq<Entry>, id: int): set<int> {
    if log == [] then {}
    else Hear(View(log[..|log| - 1], id), log[|log| - 1], id)
  }

  function Hear(view: set<int>, e: Entry, id: int): set<int> {
    if e.id != id then view
    else match e
      case Joined(_, snapshot) => snapshot
      case Told(_, OnStart(t)) => view + {t}
      case Told(_, OnStop(t)) => view - {t}
      case Told(_, _) => view
  }

  /** How often this entry occurs. */
  function Times(log: seq<Entry>, e: Entry): nat {
    multiset(log)[e]
  }

  lemma TimesConcat(a: seq<Entry>, b: seq<Entry>, e: Entry)
    ensures Times(a + b, e) == Times(a, e) + Times(b, e)
  {
  }

  lemma ViewSnoc(log: seq<Entry>, e: Entry, id: int)
    ensures View(log + [e], id) == Hear(View(log, id), e, id)
  {
    assert (log + [e])[..|log|] == log;
  }

  lemma {:induction false} ViewConcat(log: seq<Entry>, tail: seq<Entry>, id: int)
    requires NotFor(tail, id)
    ensures View(log + tail, id) == View(log, id)
  {
    if tail == [] {
      assert log + tail == log;
    } else {
      var n := |tail| - 1;
      ViewConcat(log, tail[..n], id);
      assert log + tail == log + tail[..n] + [tail[n]];
      ViewSnoc(log + tail[..n], tail[n], id);
    }
  }

  /** The effect of one change on a system ability's view: a suspended task counts as stopped and a
      reactivated one as started, unless the record is marked as handled by standby. */
  function Conclude(view: set<int>, change: Change, r: Record): set<int> {
    match change
    case TaskStart => view + {r.app.taskId}
    case TaskUpdate => view
    case TaskCancel => view - {r.app.taskId}
    case TaskSuspend => if r.phase.standby then view else view - {r.app.taskId}
    case TaskActive => if r.phase.standby then view else view + {r.app.taskId}
  }

  ghost predicate NotFor(tail: seq<Entry>, id: int) {
    forall i :: 0 <= i < |tail| ==> tail[i].id != id
  }

  lemma CallbacksAddressed(sub: Subscriber, change: Change, r: Record, id: int)
    requires sub.id != id
    ensures NotFor(Callbacks(sub, change, r), id)
  {
  }

  lemma NotForConcat(a: seq<Entry>, b: seq<Entry>, id: int)
    requires NotFor(a, id) && NotFor(b, id)
    ensures NotFor(a + b, id)
  {
  }

  lemma {:induction false} OthersNotAddressed(subs: seq<Subscriber>, change: Change, r: Record, id: int)
    requires forall i :: 0 <= i < |subs| ==> subs[i].id != id
    ensures NotFor(Notify(subs, change, r), id) && NotFor(NotifyAudio(subs, r), id)
  {
    if subs != [] {
      hide Callbacks, NotFor;
      var n := |subs| - 1;
      OthersNotAddressed(subs[..n], change, r, id);
      CallbacksAddressed(subs[n], change, r, id);
      NotForConcat(Notify(subs[..n], change, r), Callbacks(subs[n], change, r), id);
      AudioAddressed(subs[n], r, id);
      NotForConcat(NotifyAudio(subs[..n], r), AudioCallback(subs[n], r), id);
    }
  }

  lemma AudioAddressed(sub: Subscriber, r: Record, id: int)
    requires sub.id != id
    ensures NotFor(AudioCallback(sub, r), id)
  {
  }

  lemma CallbacksHeard(log: seq<Entry>, sub: Subscriber, change: Change, r: Record)
    requires !sub.hap
    ensures View(log + Callbacks(sub, change, r), sub.id) == Conclude(View(log, sub.id), change, r)
  {
    hide View;
    var c := Callbacks(sub, change, r);
    if c == [] {
      assert log + c == log;
    } else {
      assert c == [c[0]];
      ViewSnoc(log, c[0], sub.id);
    }
  }

  /** Every subscribed system ability draws exactly one conclusion from each change. */
  lemma {:induction false} SystemAbilityHears(log: seq<Entry>, subs: seq<Subscriber>, change: Change, r: Record,
                                              id: int)
    requires Distinct(subs) && IsSystemAbility(subs, id)
    ensures View(log + Notify(subs, change, r), id) == Conclude(View(log, id), change, r)
  {
    hide View, Conclude, Callbacks, NotFor;
    var n := |subs| - 1;
    var before := log + Notify(subs[..n], change, r);
    assert log + Notify(subs, change, r) == before + Callbacks(subs[n], change, r);
    var i :| 0 <= i < |subs| && subs[i].id == id && !subs[i].hap;
    if i == n {
      OthersNotAddressed(subs[..n], change, r, id);
      ViewConcat(log, Notify(subs[..n], change, r), id);
      CallbacksHeard(before, subs[n], change, r);
    } else {
      assert subs[..n][i] == subs[i];
      SystemAbilityHears(log, subs[..n], change, r, id);
      CallbacksAddressed(subs[n], change, r, id);
      ViewConcat(before, Callbacks(subs[n], change, r), id);
    }
  }

  /** Application-stop messages and the audio notice leave every system ability's view alone. */
  lemma {:induction false} ViewIgnoresAppStop(log: seq<Entry>, subs: seq<Subscriber>, uid: int, id: int)
    ensures View(log + NotifyAppStop(subs, uid), id) == View(log, id)
  {
    if subs == [] {
      assert log + [] == log;
    } else {
      var n := |subs| - 1;
      ViewIgnoresAppStop(log, subs[..n], uid, id);
      var w := When(!subs[n].hap, subs[n].id, OnAppStop(uid));
      assert log + NotifyAppStop(subs, uid) == log + NotifyAppStop(subs[..n], uid) + w;
      if w != [] {
        ViewSnoc(log + NotifyAppStop(subs[..n], uid), w[0], id);
      } else {
        assert log + NotifyAppStop(subs[..n], uid) + w == log + NotifyAppStop(subs[..n], uid);
      }
    }
  }

  lemma {:induction false} SystemAbilitiesIgnoreAudio(log: seq<Entry>, subs: seq<Subscriber>, r: Record, id: int)
    requires Distinct(subs) && IsSystemAbility(subs, id)
    ensures View(log + NotifyAudio(subs, r), id) == View(log, id)
  {
    var n := |subs| - 1;
    var w := AudioCallback(subs[n], r);
    assert log + NotifyAudio(subs, r) == log + NotifyAudio(subs[..n], r) + w;
    var i :| 0 <= i < |subs| && subs[i].id == id && !subs[i].hap;
    ViewConcat(log + NotifyAudio(subs[..n], r), w, id);
    if i == n {
      OthersNotAddressed(subs[..n], TaskStart, r, id);
      ViewConcat(log, NotifyAudio(subs[..n], r), id);
    } else {
      assert subs[..n][i] == subs[i];
      SystemAbilitiesIgnoreAudio(log, subs[..n], r, id);
    }
  }

  // ---------------------------------------------------------------- counting application-stop messages

  lemma {:induction false} NotifyHasNoAppStop(subs: seq<Subscriber>, change: Change, r: Record, id: int, uid: int)
    ensures Times(Notify(subs, change, r), Told(id, OnAppStop(uid))) == 0
    ensures Times(NotifyAudio(subs, r), Told(id, OnAppStop(uid))) == 0
  {
    if subs != [] {
      hide Callbacks, Times;
      var n := |subs| - 1;
      var e := Told(id, OnAppStop(uid));
      NotifyHasNoAppStop(subs[..n], change, r, id, uid);
      CallbacksHaveNoAppStop(subs[n], change, r, id, uid);
      TimesConcat(Notify(subs[..n], change, r), Callbacks(subs[n], change, r), e);
      TimesConcat(NotifyAudio(subs[..n], r), AudioCallback(subs[n], r), e);
    }
  }

  lemma CallbacksHaveNoAppStop(sub: Subscriber, change: Change, r: Record, id: int, uid: int)
    ensures Times(Callbacks(sub, change, r), Told(id, OnAppStop(uid))) == 0
    ensures Times(AudioCallback(sub, r), Told(id, OnAppStop(uid))) == 0
  {
  }

  lemma {:induction false} AppStopTimes(subs: seq<Subscriber>, uid: int, id: int, u: int)
    requires Distinct(subs)
    ensures Times(NotifyAppStop(subs, uid), Told(id, OnAppStop(u)))
         == if u == uid && IsSystemAbility(subs, id) then 1 else 0
  {
    if subs != [] {
      var n := |subs| - 1;
      AppStopTimes(subs[..n], uid, id, u);
      assert forall i :: 0 <= i < n ==> subs[..n][i] == subs[i];
      if subs[n].id == id && !subs[n].hap {
        assert IsSystemAbility(subs, id);
        assert !IsSystemAbility(subs[..n], id);
      } else {
        assert IsSystemAbility(subs, id) <==> IsSystemAbility(subs[..n], id);
      }
    }
  }
}
