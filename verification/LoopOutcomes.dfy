/** What a loop over the whole table does, task by task and in any walk order: which tasks go, how those that stay are
    changed, which notifications are withdrawn and who is told. Read off the fields of each task. */
module LoopOutcomes {
  import opened Wrappers
  import opened TaskRecord
  import opened Subscribers
  import opened TaskTable
  import opened Invariants
  import opened Stopping
  import opened Removal
  import opened Hearing
  import opened Publishing

  // ---------------------------------------------------------------- one task

  /** Who is told: nobody, the subscribers of a change, or those the audio notice is for. */
  datatype Telling = Nobody | Event(change: Change, r: Record) | AudioNews(r: Record)

  /** What happens to a task: what is left of it, whether its two notifications are withdrawn, who is told. */
  datatype Effect = Untouched | Treated(after: Option<Record>, main: bool, sub: bool, telling: Telling)

  function Gone(r: Record, reason: int, main: bool, sub: bool): Effect {
    Treated(None, main, sub, Event(TaskCancel, r.(phase := r.phase.(reason := reason))))
  }

  /** The audio loop: without a listener only the notice, then a suspension, then a removal. */
  function AudioEffect(listens: bool, r: Record): Effect {
    if !listens then
      var quiet := r.(phase := r.phase.(audioDetected := false));
      Treated(Some(quiet), true, false, AudioNews(quiet))
    else if r.phase.audioSuspends == 0 then
      var paused := r.(phase := r.phase.(suspended := true, suspendReason := 6, audioSuspends := 1,
                                         audioDetected := false));
      Treated(Some(paused), true, false, Event(TaskSuspend, paused))
    else Gone(r, 2, true, false)
  }

  function EffectOf(job: Job, listens: bool, r: Record): Effect {
    match job
    case ByUid(uid) => if r.app.uid == uid then Gone(r, 2, true, true) else Untouched
    case ByUidAndMode(uid, mode) =>
      if r.app.uid == uid && mode in r.work.modes then Gone(r, 2, true, true) else Untouched
    case Dismissed(text, id, isSub) =>
      if r.notice.text == text && r.notice.id == id then Gone(r, 1, isSub, !isSub) else Untouched
    case AppGone(uid) => if r.app.uid == uid then Gone(r, 3, true, true) else Untouched
    case Cleared(uid) => if r.app.uid == uid then Gone(r, 3, true, false) else Untouched
    case Accounts(active) => if r.app.userId in active then Untouched else Gone(r, 3, true, false)
    case InnerMode(mode) => if r.app.inner && mode in r.work.modes then Gone(r, 3, false, false) else Untouched
    case Everything(_) => Gone(r, r.phase.reason, true, false)
    case Audio(uid) => if r.app.uid == uid && 2 in r.work.modes then AudioEffect(listens, r) else Untouched
    case StandbyActive(uid) =>
      var awake := r.(phase := r.phase.(standby := true, standbySuspended := false));
      if r.app.uid == uid && r.phase.standbySuspended
      then Treated(Some(awake), false, false, Event(TaskActive, awake)) else Untouched
    case LiveViewShown(uid) =>
      if r.app.uid == uid && r.notice.id != -1 && 4 in r.work.modes && forall m :: m in r.work.modes ==> m !in {1, 3, 8}
      then Treated(Some(r.(notice := r.notice.(id := -1))), true, false, Nobody) else Untouched
    case _ => Untouched
  }

  /** The jobs described here; the others hand out notification ids. */
  predicate IsPlain(job: Job) {
    !job.LiveViewGone? && !job.Republish?
  }

  /** What is withdrawn depends on the task alone, and not on who shares its notification. */
  predicate OnItsOwn(job: Job) {
    !job.InnerMode?
  }

  ghost predicate IsDue(telling: Telling, subs: seq<Subscriber>, id: int, c: Callback) {
    match telling
    case Nobody => false
    case Event(change, r) => SomeDue(subs, change, r, id, c)
    case AudioNews(r) => c == OnStop(r.app.taskId) && Watches(subs, id)
  }

  ghost predicate StrikesMain(e: Effect, r: Record, text: string, id: int) {
    e.Treated? && e.main && r.notice.text == text && r.notice.id == id
  }

  ghost predicate StrikesSub(e: Effect, r: Record, text: string, id: int) {
    e.Treated? && e.sub && r.app.byRequest && r.notice.subText == text && r.notice.subId == id
  }

  ghost predicate Tells(e: Effect, subs: seq<Subscriber>, id: int, c: Callback) {
    e.Treated? && IsDue(e.telling, subs, id, c)
  }

  /** An effect took place. */
  ghost predicate Took(s: State, s': State, k: string, e: Effect, text: string, id: int, sub: int, c: Callback,
                       own: bool)
    requires k in s.tasks
  {
    && s'.subs == s.subs
    && s'.tasks == (if e.Untouched? then s.tasks else if e.after.Some? then s.tasks[k := e.after.value]
                    else s.tasks - {k})
    && (own ==>
          var r := s.tasks[k];
          && MainCancels(s'.notes, text, id) == MainCancels(s.notes, text, id) + One(StrikesMain(e, r, text, id))
          && SubCancels(s'.notes, text, id) == SubCancels(s.notes, text, id) + One(StrikesSub(e, r, text, id)))
    && Times(s'.log, Told(sub, c)) == Times(s.log, Told(sub, c)) + One(Tells(e, s.subs, sub, c))
  }

  // ---------------------------------------------------------------- one round

  /** Events and cancels add up; the application-stop check adds nothing that counts here. */
  lemma Added(s: State, s': State, told: seq<Entry>, notes: seq<Note>, text: string, id: int, sub: int, c: Callback)
    requires s'.log == s.log + told && s'.notes == s.notes + notes
    ensures MainCancels(s'.notes, text, id) == MainCancels(s.notes, text, id) + MainCancels(notes, text, id)
    ensures SubCancels(s'.notes, text, id) == SubCancels(s.notes, text, id) + SubCancels(notes, text, id)
    ensures Times(s'.log, Told(sub, c)) == Times(s.log, Told(sub, c)) + Times(told, Told(sub, c))
  {
    hide MainCancels, SubCancels, Times;
    CancelsConcat(s.notes, notes, text, id);
    TimesConcat(s.log, told, Told(sub, c));
  }

  lemma TellAdds(s: State, uid: int, sub: int, c: Callback)
    requires !c.OnAppStop?
    ensures var s' := TellAppStop(s, uid);
            && s'.tasks == s.tasks && s'.subs == s.subs && s'.notes == s.notes
            && Times(s'.log, Told(sub, c)) == Times(s.log, Told(sub, c))
  {
    hide HasUid, NotifyAppStop, Times;
    AppStopOnly(s.subs, uid, sub, c);
    TimesConcat(s.log, NotifyAppStop(s.subs, uid), Told(sub, c));
  }

  lemma {:induction false} AppStopOnly(subs: seq<Subscriber>, uid: int, sub: int, c: Callback)
    requires !c.OnAppStop?
    ensures Times(NotifyAppStop(subs, uid), Told(sub, c)) == 0
  {
    if subs != [] {
      hide Times, When;
      var n := |subs| - 1;
      AppStopOnly(subs[..n], uid, sub, c);
      WhenTimes(!subs[n].hap, subs[n].id, OnAppStop(uid), sub, c);
      TimesConcat(NotifyAppStop(subs[..n], uid), When(!subs[n].hap, subs[n].id, OnAppStop(uid)), Told(sub, c));
    }
  }

  lemma DropTook(s: State, k: string, reason: int, notes: seq<Note>, e: Effect, text: string, id: int, sub: int,
                 c: Callback, own: bool)
    requires k in s.tasks && id != -1 && Distinct(s.subs) && !c.OnAppStop?
    requires e.Treated? && e == Gone(s.tasks[k], reason, e.main, e.sub)
    requires own ==> MainCancels(notes, text, id) == One(StrikesMain(e, s.tasks[k], text, id))
    requires own ==> SubCancels(notes, text, id) == One(StrikesSub(e, s.tasks[k], text, id))
    ensures Took(s, Drop(s, k, s.tasks[k], reason, notes), k, e, text, id, sub, c, own)
    ensures Took(s, Save(Drop(s, k, s.tasks[k], reason, notes)), k, e, text, id, sub, c, own)
    ensures Took(s, DropAndTell(s, k, s.tasks[k], reason, notes), k, e, text, id, sub, c, own)
  {
    hide Notify, Times, MainCancels, SubCancels, WriteTable, TellAppStop, SomeDue, StrikesMain, StrikesSub;
    var r := s.tasks[k];
    var s' := Drop(s, k, r, reason, notes);
    NotifyDue(s.subs, TaskCancel, Because(r, reason), sub, c);
    Added(s, s', Notify(s.subs, TaskCancel, Because(r, reason)), notes, text, id, sub, c);
    TellAdds(s', r.app.uid, sub, c);
  }

  /** The cancels of a removing round, without those for the id that stands for none. */
  lemma RoundStrikes(r: Record, e: Effect, text: string, id: int)
    requires e.Treated? && id != -1
    ensures var all := MainNote(r) + SubNote(r);
            e.main && e.sub ==>
              && MainCancels(all, text, id) == One(StrikesMain(e, r, text, id))
              && SubCancels(all, text, id) == One(StrikesSub(e, r, text, id))
    ensures var shown := (if r.notice.id != NO_ID then MainNote(r) else []) + SubNote(r);
            e.main && e.sub ==>
              && MainCancels(shown, text, id) == One(StrikesMain(e, r, text, id))
              && SubCancels(shown, text, id) == One(StrikesSub(e, r, text, id))
    ensures e.main && !e.sub ==>
              && MainCancels(MainNote(r), text, id) == One(StrikesMain(e, r, text, id))
              && SubCancels(MainNote(r), text, id) == One(StrikesSub(e, r, text, id))
    ensures !e.main && e.sub ==>
              && MainCancels(SubNote(r), text, id) == One(StrikesMain(e, r, text, id))
              && SubCancels(SubNote(r), text, id) == One(StrikesSub(e, r, text, id))
  {
    hide MainNote, SubNote, MainCancels, SubCancels;
    NoteCancels(r, text, id);
    NoCancels(text, id);
    CancelsConcat(MainNote(r), SubNote(r), text, id);
    CancelsConcat([], SubNote(r), text, id);
  }

  lemma AudioTook(s: State, k: string, text: string, id: int, sub: int, c: Callback)
    requires k in s.tasks && id != -1 && Distinct(s.subs) && !c.OnAppStop?
    ensures var r := s.tasks[k];
            var e := AudioEffect(HasCallback(s.subs, r.app.uid, SuspendFlag), r);
            Took(s, AudioRound(s, k, r), k, e, text, id, sub, c, true)
  {
    hide Notify, NotifyAudio, Times, MainCancels, SubCancels, WriteTable, HasCallback, SomeDue, Watches, StrikesMain,
      StrikesSub;
    var r := s.tasks[k];
    var e := AudioEffect(HasCallback(s.subs, r.app.uid, SuspendFlag), r);
    RoundStrikes(r, e, text, id);
    if !HasCallback(s.subs, r.app.uid, SuspendFlag) {
      AudioDue(s.subs, e.telling.r, sub, c);
      Added(s, AudioNotice(s, k, e.telling.r), NotifyAudio(s.subs, e.telling.r), MainNote(r), text, id, sub, c);
    } else if r.phase.audioSuspends == 0 {
      var paused := AudioPaused(r);
      NotifyDue(s.subs, TaskSuspend, paused, sub, c);
      Added(s, AudioPause(s, k, paused), Notify(s.subs, TaskSuspend, paused), MainNote(r), text, id, sub, c);
    } else {
      DropTook(s, k, FREEZE_CANCEL, MainNote(r), e, text, id, sub, c, true);
    }
  }

  lemma ChangeTook(s: State, k: string, job: Job, e: Effect, text: string, id: int, sub: int, c: Callback)
    requires k in s.tasks && id != -1 && Distinct(s.subs) && !c.OnAppStop? && (job.StandbyActive? || job.LiveViewShown?)
    requires e == EffectOf(job, false, s.tasks[k]) && e.Treated?
    ensures Took(s, Round(s, k, s.tasks[k], job), k, e, text, id, sub, c, true)
  {
    hide Notify, Times, MainCancels, SubCancels, WriteTable, SomeDue, MainNote;
    var r, s' := s.tasks[k], Round(s, k, s.tasks[k], job);
    RoundStrikes(r, e, text, id);
    NoCancels(text, id);
    if job.StandbyActive? {
      NotifyDue(s.subs, TaskActive, StandbyAwake(r), sub, c);
      Added(s, s', Notify(s.subs, TaskActive, StandbyAwake(r)), [], text, id, sub, c);
    } else {
      Added(s, s', [], MainNote(r), text, id, sub, c);
      NothingTold(Told(sub, c));
    }
  }

  lemma NothingTold(e: Entry)
    ensures Times([], e) == 0
  {
  }

  lemma VisitTook(s: State, k: string, job: Job, text: string, id: int, sub: int, c: Callback)
    requires k in s.tasks && id != -1 && Distinct(s.subs) && !c.OnAppStop? && IsPlain(job)
    ensures var r := s.tasks[k];
            var e := EffectOf(job, HasCallback(s.subs, r.app.uid, SuspendFlag), r);
            Took(s, Visit(s, k, job), k, e, text, id, sub, c, OnItsOwn(job))
  {
    hide Took, Drop, DropAndTell, AudioRound, AudioEffect, MainCancels, SubCancels, MainNote, SubNote, HasCallback,
      WriteTable, StrikesMain, StrikesSub;
    var r := s.tasks[k];
    var e := EffectOf(job, HasCallback(s.subs, r.app.uid, SuspendFlag), r);
    if e.Untouched? {
      NotSelected(s, k, job, e);
      Nothing(s, k, text, id, sub, c, OnItsOwn(job));
    } else {
      RoundStrikes(r, e, text, id);
      match job {
        case ByUid(_) => DropTook(s, k, FREEZE_CANCEL, MainNote(r) + SubNote(r), e, text, id, sub, c, true);
        case ByUidAndMode(_, _) => DropTook(s, k, FREEZE_CANCEL, MainNote(r) + SubNote(r), e, text, id, sub, c, true);
        case Dismissed(_, _, isSub) =>
          var notes := if isSub then MainNote(r) else SubNote(r);
          DropTook(s, k, REMOVE_NOTIFICATION_CANCEL, notes, e, text, id, sub, c, true);
        case AppGone(_) =>
          var notes := (if r.notice.id != NO_ID then MainNote(r) else []) + SubNote(r);
          DropTook(s, k, SYSTEM_CANCEL, notes, e, text, id, sub, c, true);
        case Cleared(_) => DropTook(s, k, SYSTEM_CANCEL, MainNote(r), e, text, id, sub, c, true);
        case Accounts(_) => DropTook(s, k, SYSTEM_CANCEL, MainNote(r), e, text, id, sub, c, true);
        case InnerMode(_) =>
          DropTook(s, k, SYSTEM_CANCEL, SharedCancel(s.tasks - {k}, r), e, text, id, sub, c, false);
        case Everything(_) => DropTook(s, k, r.phase.reason, MainNote(r), e, text, id, sub, c, true);
        case Audio(_) => AudioTook(s, k, text, id, sub, c);
        case StandbyActive(_) => ChangeTook(s, k, job, e, text, id, sub, c);
        case LiveViewShown(_) => ChangeTook(s, k, job, e, text, id, sub, c);
      }
    }
  }

  lemma NotSelected(s: State, k: string, job: Job, e: Effect)
    requires k in s.tasks && IsPlain(job) && e.Untouched?
    requires e == EffectOf(job, HasCallback(s.subs, s.tasks[k].app.uid, SuspendFlag), s.tasks[k])
    ensures Visit(s, k, job) == s
  {
    hide Round, HasCallback, AudioEffect;
    AudioTreats(HasCallback(s.subs, s.tasks[k].app.uid, SuspendFlag), s.tasks[k]);
  }

  lemma AudioTreats(listens: bool, r: Record)
    ensures AudioEffect(listens, r).Treated?
  {
  }

  lemma Nothing(s: State, k: string, text: string, id: int, sub: int, c: Callback, own: bool)
    requires k in s.tasks
    ensures Took(s, s, k, Untouched, text, id, sub, c, own)
  {
    hide MainCancels, SubCancels, Times;
  }

  // ---------------------------------------------------------------- the loop

  /** The listener the audio loop asks for. */
  predicate Listens(subs: seq<Subscriber>, r: Record) {
    exists i :: 0 <= i < |subs| && subs[i].hap && subs[i].uid == r.app.uid && SuspendFlag in subs[i].flags
  }

  function Outcome(s: State, job: Job, k: string): Effect
    requires k in s.tasks
  {
    EffectOf(job, Listens(s.subs, s.tasks[k]), s.tasks[k])
  }

  /** The tasks whose main notification with this label and id is withdrawn. */
  ghost function Struck(s: State, job: Job, text: string, id: int): set<string> {
    set k | k in s.tasks && StrikesMain(Outcome(s, job, k), s.tasks[k], text, id)
  }

  ghost function StruckSub(s: State, job: Job, text: string, id: int): set<string> {
    set k | k in s.tasks && StrikesSub(Outcome(s, job, k), s.tasks[k], text, id)
  }

  /** The tasks of which this subscriber is told with this callback. */
  ghost function Reported(s: State, job: Job, sub: int, c: Callback): set<string> {
    set k | k in s.tasks && Tells(Outcome(s, job, k), s.subs, sub, c)
  }

  /** The tasks among `done` have met their effect, the others are as they were. */
  ghost predicate AllTook(s: State, t': Table, job: Job, done: set<string>) {
    && t'.Keys <= s.tasks.Keys
    && forall k :: k in s.tasks ==>
         var e := if k in done then Outcome(s, job, k) else Untouched;
         if e.Untouched? then k in t' && t'[k] == s.tasks[k]
         else e.after == if k in t' then Some(t'[k]) else None
  }

  ghost predicate LoopTook(s: State, s': State, job: Job, done: set<string>, text: string, id: int, sub: int,
                           c: Callback) {
    && AllTook(s, s'.tasks, job, done) && s'.subs == s.subs
    && (OnItsOwn(job) ==>
          && MainCancels(s'.notes, text, id) == MainCancels(s.notes, text, id) + |done * Struck(s, job, text, id)|
          && SubCancels(s'.notes, text, id) == SubCancels(s.notes, text, id) + |done * StruckSub(s, job, text, id)|)
    && Times(s'.log, Told(sub, c)) == Times(s.log, Told(sub, c)) + |done * Reported(s, job, sub, c)|
  }

  lemma CountNext(done: set<string>, hits: set<string>, k: string)
    requires k !in done
    ensures |(done + {k}) * hits| == |done * hits| + One(k in hits)
  {
    assert (done + {k}) * hits == done * hits + if k in hits then {k} else {};
  }

  lemma HitsNext(s: State, job: Job, done: set<string>, k: string, text: string, id: int, sub: int, c: Callback)
    requires k !in done
    ensures |(done + {k}) * Struck(s, job, text, id)|
         == |done * Struck(s, job, text, id)|
            + One(k in s.tasks && StrikesMain(Outcome(s, job, k), s.tasks[k], text, id))
    ensures |(done + {k}) * StruckSub(s, job, text, id)|
         == |done * StruckSub(s, job, text, id)|
            + One(k in s.tasks && StrikesSub(Outcome(s, job, k), s.tasks[k], text, id))
    ensures |(done + {k}) * Reported(s, job, sub, c)|
         == |done * Reported(s, job, sub, c)| + One(k in s.tasks && Tells(Outcome(s, job, k), s.subs, sub, c))
  {
    hide Outcome, StrikesMain, StrikesSub, Tells;
    CountNext(done, Struck(s, job, text, id), k);
    CountNext(done, StruckSub(s, job, text, id), k);
    CountNext(done, Reported(s, job, sub, c), k);
  }

  lemma TookNext(s: State, before: State, after: State, job: Job, done: set<string>, k: string)
    requires AllTook(s, before.tasks, job, done) && k !in done
    requires if k in s.tasks
             then var e := Outcome(s, job, k);
                  after.tasks == (if e.Untouched? then before.tasks
                                  else if e.after.Some? then before.tasks[k := e.after.value] else before.tasks - {k})
             else after.tasks == before.tasks
    ensures AllTook(s, after.tasks, job, done + {k})
  {
    hide Outcome;
  }

  function KeysOf(order: seq<string>): set<string> {
    set k | k in order
  }

  lemma {:induction false} VisitsTook(s: State, order: seq<string>, job: Job, text: string, id: int, sub: int,
                                      c: Callback)
    requires id != -1 && Distinct(s.subs) && !c.OnAppStop? && IsPlain(job)
    requires forall i, j :: 0 <= i < j < |order| ==> order[i] != order[j]
    ensures LoopTook(s, Visits(s, order, job), job, KeysOf(order), text, id, sub, c)
  {
    hide LoopTook, Visit, IsPlain, Distinct;
    if order == [] {
      assert KeysOf(order) == {};
      NothingTook(s, job, text, id, sub, c);
    } else {
      var n, k := |order| - 1, order[|order| - 1];
      VisitsTook(s, order[..n], job, text, id, sub, c);
      assert k !in order[..n];
      assert KeysOf(order) == KeysOf(order[..n]) + {k} by { assert order == order[..n] + [k]; }
      NextTook(s, Visits(s, order[..n], job), job, KeysOf(order[..n]), k, text, id, sub, c);
    }
  }

  lemma NextTook(s: State, before: State, job: Job, done: set<string>, k: string, text: string, id: int, sub: int,
                 c: Callback)
    requires id != -1 && Distinct(s.subs) && !c.OnAppStop? && IsPlain(job) && k !in done
    requires LoopTook(s, before, job, done, text, id, sub, c)
    ensures LoopTook(s, Visit(before, k, job), job, done + {k}, text, id, sub, c)
  {
    hide MainCancels, SubCancels, Times, Visit, AllTook, StrikesMain, StrikesSub, Tells, Outcome, Struck, StruckSub,
      Reported, IsPlain, Distinct;
    HitsNext(s, job, done, k, text, id, sub, c);
    OneVisit(s, before, job, done, k, text, id, sub, c);
    TookNext(s, before, Visit(before, k, job), job, done, k);
  }

  lemma NothingTook(s: State, job: Job, text: string, id: int, sub: int, c: Callback)
    ensures LoopTook(s, s, job, {}, text, id, sub, c)
  {
    hide MainCancels, SubCancels, Times;
  }

  /** A visit of a task that has not been visited yet. */
  lemma OneVisit(s: State, before: State, job: Job, done: set<string>, k: string, text: string, id: int, sub: int,
                 c: Callback)
    requires AllTook(s, before.tasks, job, done) && k !in done && before.subs == s.subs
    requires id != -1 && Distinct(s.subs) && !c.OnAppStop? && IsPlain(job)
    ensures k in s.tasks ==>
              k in before.tasks && before.tasks[k] == s.tasks[k]
              && Took(before, Visit(before, k, job), k, Outcome(s, job, k), text, id, sub, c, OnItsOwn(job))
    ensures k !in s.tasks ==> Visit(before, k, job) == before
  {
    hide EffectOf, Visit, Took;
    if k in s.tasks {
      VisitTook(before, k, job, text, id, sub, c);
    } else {
      Unvisited(before, k, job);
    }
  }

  lemma Unvisited(s: State, k: string, job: Job)
    requires k !in s.tasks
    ensures Visit(s, k, job) == s
  {
  }

  lemma {:induction false} TellAllAdds(s: State, uids: seq<int>, sub: int, c: Callback)
    requires !c.OnAppStop?
    ensures var s' := TellAll(s, uids);
            && s'.tasks == s.tasks && s'.subs == s.subs && s'.notes == s.notes
            && Times(s'.log, Told(sub, c)) == Times(s.log, Told(sub, c))
  {
    if uids != [] {
      hide TellAppStop, Times;
      var n := |uids| - 1;
      TellAllAdds(s, uids[..n], sub, c);
      TellAdds(TellAll(s, uids[..n]), uids[n], sub, c);
    }
  }

  /** The whole loop, for every walk: each task meets its effect once; each withdrawal and each callback happens once
      for each task that calls for it. */
  lemma LoopOutcome(s: State, job: Job, order: seq<string>, text: string, id: int, sub: int, c: Callback)
    requires IsPlain(job) && IsWalk(order, s.tasks) && Distinct(s.subs) && id != -1 && !c.OnAppStop?
    ensures var s' := Loop(s, job, order);
            && AllTook(s, s'.tasks, job, s.tasks.Keys)
            && (OnItsOwn(job) ==>
                  && MainCancels(s'.notes, text, id) == MainCancels(s.notes, text, id) + |Struck(s, job, text, id)|
                  && SubCancels(s'.notes, text, id) == SubCancels(s.notes, text, id) + |StruckSub(s, job, text, id)|)
            && Times(s'.log, Told(sub, c)) == Times(s.log, Told(sub, c)) + |Reported(s, job, sub, c)|
  {
    hide Visits, TellAppStop, TellAll, MainCancels, SubCancels, Times, Struck, StruckSub, Reported, AllTook, WriteTable;
    VisitsTook(s, order, job, text, id, sub, c);
    var s1 := Visits(s, order, job);
    WalkIsAll(s, order, job, s1.tasks, text, id, sub, c);
    if job.ByUid? || job.ByUidAndMode? || job.Audio? {
      TellAdds(s1, job.uid, sub, c);
    } else if job.Everything? {
      TellAllAdds(Save(s1), job.uids, sub, c);
    }
  }

  lemma WalkIsAll(s: State, order: seq<string>, job: Job, t': Table, text: string, id: int, sub: int, c: Callback)
    requires IsWalk(order, s.tasks)
    ensures AllTook(s, t', job, KeysOf(order)) <==> AllTook(s, t', job, s.tasks.Keys)
    ensures KeysOf(order) * Struck(s, job, text, id) == Struck(s, job, text, id)
    ensures KeysOf(order) * StruckSub(s, job, text, id) == StruckSub(s, job, text, id)
    ensures KeysOf(order) * Reported(s, job, sub, c) == Reported(s, job, sub, c)
  {
    hide Outcome, StrikesMain, StrikesSub, Tells;
  }

  // ---------------------------------------------------------------- system components' tasks

  lemma {:induction false} InnerVisits(s: State, order: seq<string>, mode: nat, text: string, id: int)
    requires id != -1
    ensures Counted(s, Visits(s, order, InnerMode(mode)), text, id)
  {
    hide DropAndTell, SharedCancel, MainCancels, Referenced, Selected;
    if order != [] {
      var n := |order| - 1;
      InnerVisits(s, order[..n], mode, text, id);
      var before, k := Visits(s, order[..n], InnerMode(mode)), order[n];
      if k in before.tasks && Selected(InnerMode(mode), before.tasks[k]) {
        var r, notes := before.tasks[k], SharedCancel(before.tasks - {k}, before.tasks[k]);
        DropAndTellNotes(before, k, r, SYSTEM_CANCEL, notes);
        CancelsConcat(before.notes, notes, text, id);
        SharedCancelCancels(before.tasks - {k}, r, text, id);
        ErasedReference(before.tasks, k, text, id);
      }
    }
  }

  /** When tasks of system components go, a main notification is withdrawn once when the last task that refers to it
      goes, and otherwise not. */
  lemma InnerModeCounted(s: State, mode: nat, order: seq<string>, text: string, id: int)
    requires id != -1
    ensures Counted(s, Loop(s, InnerMode(mode), order), text, id)
  {
    hide Visits, Counted;
    InnerVisits(s, order, mode, text, id);
  }

  // ---------------------------------------------------------------- which tasks stay

  /** Which tasks the removing loops leave, and that they leave them as they are. */
  lemma LoopLeaves(s: State, job: Job, order: seq<string>, k: string)
    requires Removes(job) && IsWalk(order, s.tasks)
    ensures var t, t' := s.tasks, Loop(s, job, order).tasks;
            && (k in t' ==> k in t && t'[k] == t[k])
            && (k in t ==>
                  && (job.ByUid? ==> (k in t' <==> t[k].app.uid != job.uid))
                  && (job.ByUidAndMode? ==> (k in t' <==> t[k].app.uid != job.uid || job.mode !in t[k].work.modes))
                  && (job.Dismissed? ==> (k in t' <==> t[k].notice.id != job.id || t[k].notice.text != job.text))
                  && (job.AppGone? ==> (k in t' <==> t[k].app.uid != job.uid))
                  && (job.Cleared? ==> (k in t' <==> t[k].app.uid != job.uid))
                  && (job.Accounts? ==> (k in t' <==> t[k].app.userId in job.active))
                  && (job.InnerMode? ==> (k in t' <==> !t[k].app.inner || job.mode !in t[k].work.modes))
                  && (job.Everything? ==> k !in t'))
  {
    hide Loop;
    LoopFilter(s, job, order);
  }

  // ---------------------------------------------------------------- the loops that publish again

  predicate Publishes(job: Job) {
    job.LiveViewGone? || job.Republish?
  }

  /** Tasks of the application without a notification when its live view is gone; all tasks that are not suspended
      when the manager's notifications have to come back. */
  predicate IsDueAgain(job: Job, r: Record)
    requires Publishes(job)
  {
    if job.LiveViewGone? then r.app.uid == job.uid && r.notice.id == -1 else !r.phase.suspended
  }

  predicate IsPublished(job: Job, r: Record, next: int, a: Answer, p: Posted)
    requires Publishes(job)
  {
    if job.LiveViewGone? then IsSent(r, next, a.main, p) else IsRefreshed(r, next, a, p)
  }

  function AnswerTo(job: Job, k: string): Answer
    requires Publishes(job)
  {
    if k in job.answers then job.answers[k] else Answer(Unavailable, Unavailable)
  }

  /** The task was published again with an id counter of at least `low`; what was asked is among `notes`. */
  ghost predicate WasPublished(job: Job, k: string, r: Record, r': Record, low: int, notes: seq<Note>)
    requires Publishes(job)
  {
    exists next, p :: && low <= next && IsPublished(job, r, next, AnswerTo(job, k), p) && p.r == r'
                      && forall n :: n in p.notes ==> n in notes
  }

  ghost predicate AllPublished(s: State, s': State, job: Job, done: set<string>)
    requires Publishes(job)
  {
    && s'.tasks.Keys == s.tasks.Keys && s.nextNote <= s'.nextNote && s'.log == s.log
    && (forall n :: n in s.notes ==> n in s'.notes)
    && forall k :: k in s.tasks ==>
         if k in done && IsDueAgain(job, s.tasks[k])
         then WasPublished(job, k, s.tasks[k], s'.tasks[k], s.nextNote, s'.notes) else s'.tasks[k] == s.tasks[k]
  }

  lemma PublishRound(s: State, k: string, job: Job)
    requires Publishes(job) && k in s.tasks && IsDueAgain(job, s.tasks[k])
    ensures var s' := Visit(s, k, job);
            exists p :: && IsPublished(job, s.tasks[k], s.nextNote, AnswerTo(job, k), p) && s.nextNote <= p.next
                        && s'.tasks == s.tasks[k := p.r] && s'.nextNote == p.next && s'.notes == s.notes + p.notes
                        && s'.log == s.log
  {
    hide Send, Refresh, WriteTable, IsSent, IsRefreshed;
    var r, a := s.tasks[k], AnswerTo(job, k);
    SendIs(r, s.nextNote, a.main);
    RefreshIs(r, s.nextNote, a);
    if job.LiveViewGone? {
      CounterGrows(r, s.nextNote, a, Send(r, s.nextNote, a.main));
      assert IsPublished(job, r, s.nextNote, a, Send(r, s.nextNote, a.main));
    } else {
      CounterGrows(r, s.nextNote, a, Refresh(r, s.nextNote, a));
      assert IsPublished(job, r, s.nextNote, a, Refresh(r, s.nextNote, a));
    }
  }

  lemma CounterGrows(r: Record, next: int, a: Answer, p: Posted)
    requires IsSent(r, next, a.main, p) || IsRefreshed(r, next, a, p)
    ensures next <= p.next
  {
    hide OwnLabel, OwnSubLabel;
  }

  lemma PublishNext(s: State, before: State, after: State, job: Job, done: set<string>, k: string, p: Posted)
    requires Publishes(job) && AllPublished(s, before, job, done) && k !in done
    requires k in before.tasks && IsDueAgain(job, before.tasks[k])
    requires IsPublished(job, before.tasks[k], before.nextNote, AnswerTo(job, k), p) && before.nextNote <= p.next
    requires after.tasks == before.tasks[k := p.r] && after.nextNote == p.next && after.notes == before.notes + p.notes
    requires after.log == before.log
    ensures AllPublished(s, after, job, done + {k})
  {
    hide IsPublished;
    forall j | j in s.tasks
      ensures if j in done + {k} && IsDueAgain(job, s.tasks[j])
              then WasPublished(job, j, s.tasks[j], after.tasks[j], s.nextNote, after.notes)
              else after.tasks[j] == s.tasks[j]
    {
      if j != k && j in done && IsDueAgain(job, s.tasks[j]) {
        var next, q :| && s.nextNote <= next && IsPublished(job, s.tasks[j], next, AnswerTo(job, j), q)
                       && q.r == before.tasks[j] && forall n :: n in q.notes ==> n in before.notes;
        assert IsPublished(job, s.tasks[j], next, AnswerTo(job, j), q);
      }
    }
  }

  lemma {:induction false} VisitsPublish(s: State, order: seq<string>, job: Job)
    requires Publishes(job) && forall i, j :: 0 <= i < j < |order| ==> order[i] != order[j]
    ensures AllPublished(s, Visits(s, order, job), job, KeysOf(order))
  {
    hide Visit, IsPublished, AnswerTo, WasPublished;
    if order != [] {
      var n, k := |order| - 1, order[|order| - 1];
      VisitsPublish(s, order[..n], job);
      var before := Visits(s, order[..n], job);
      assert k !in order[..n];
      assert KeysOf(order) == KeysOf(order[..n]) + {k} by { assert order == order[..n] + [k]; }
      if k in before.tasks && IsDueAgain(job, before.tasks[k]) {
        PublishRound(before, k, job);
        var p :| && IsPublished(job, before.tasks[k], before.nextNote, AnswerTo(job, k), p) && before.nextNote <= p.next
                 && Visit(before, k, job).tasks == before.tasks[k := p.r] && Visit(before, k, job).nextNote == p.next
                 && Visit(before, k, job).notes == before.notes + p.notes && Visit(before, k, job).log == before.log;
        PublishNext(s, before, Visit(before, k, job), job, KeysOf(order[..n]), k, p);
      } else {
        NotDueAgain(before, k, job);
      }
    }
  }

  lemma NotDueAgain(s: State, k: string, job: Job)
    requires Publishes(job) && (k !in s.tasks || !IsDueAgain(job, s.tasks[k]))
    ensures Visit(s, k, job) == s
  {
  }

  /** The loops that publish again, in any walk order: each task that is due is published once, as the service
      answers, and no other is touched. */
  lemma LoopPublishes(s: State, job: Job, order: seq<string>)
    requires Publishes(job) && IsWalk(order, s.tasks)
    ensures AllPublished(s, Loop(s, job, order), job, s.tasks.Keys)
  {
    hide Visits, IsDueAgain, WasPublished;
    VisitsPublish(s, order, job);
  }

  // ---------------------------------------------------------------- the file

  /** The loops that write after each task they treat: all but the bulk cancellation, which writes at its end, and the
      one that only publishes again. The audio loop does when somebody listens. */
  predicate WritesEach(job: Job, subs: seq<Subscriber>) {
    && !job.Everything? && !job.Republish?
    && (job.Audio? ==>
          exists i :: 0 <= i < |subs| && subs[i].hap && subs[i].uid == job.uid && SuspendFlag in subs[i].flags)
  }

  /** The file holds the table, or the loop found nothing to do. */
  ghost predicate IsWritten(s: State, s': State) {
    s'.disk == WriteTable(s'.tasks) || (s'.disk == s.disk && s'.tasks == s.tasks)
  }

  lemma RoundWrites(s: State, k: string, job: Job)
    requires k in s.tasks && Selected(job, s.tasks[k]) && WritesEach(job, s.subs)
    ensures var s' := Round(s, k, s.tasks[k], job); s'.disk == WriteTable(s'.tasks) && s'.subs == s.subs
  {
    hide Notify, NotifyAudio, NotifyAppStop, HasUid, WriteTable, Send, SharedCancel;
    if job.Audio? {
      assert HasCallback(s.subs, s.tasks[k].app.uid, SuspendFlag);
    }
  }

  lemma {:induction false} VisitsWrite(s: State, order: seq<string>, job: Job)
    requires WritesEach(job, s.subs)
    ensures IsWritten(s, Visits(s, order, job)) && Visits(s, order, job).subs == s.subs
  {
    hide Round, Selected, WritesEach, WriteTable;
    if order != [] {
      var n := |order| - 1;
      VisitsWrite(s, order[..n], job);
      var before, k := Visits(s, order[..n], job), order[n];
      if k in before.tasks && Selected(job, before.tasks[k]) {
        RoundWrites(before, k, job);
      }
    }
  }

  lemma {:induction false} TellAllWrites(s: State, uids: seq<int>)
    ensures TellAll(s, uids).tasks == s.tasks && TellAll(s, uids).disk == s.disk
  {
    hide HasUid, NotifyAppStop;
    if uids != [] {
      TellAllWrites(s, uids[..|uids| - 1]);
    }
  }

  lemma TellWrites(s: State, uid: int)
    ensures TellAppStop(s, uid).tasks == s.tasks && TellAppStop(s, uid).disk == s.disk
  {
    hide HasUid, NotifyAppStop;
  }

  /** After a loop the file holds the table as the loop leaves it. */
  lemma LoopWrites(s: State, job: Job, order: seq<string>)
    requires WritesEach(job, s.subs) || job.Everything?
    ensures var s' := Loop(s, job, order);
            if job.Everything? then s'.disk == WriteTable(s'.tasks) else IsWritten(s, s')
  {
    hide Visits, TellAppStop, TellAll, WritesEach, WriteTable;
    var s1 := Visits(s, order, job);
    if job.Everything? {
      TellAllWrites(Save(s1), job.uids);
    } else {
      VisitsWrite(s, order, job);
      if job.ByUid? || job.ByUidAndMode? || job.Audio? {
        TellWrites(s1, job.uid);
      }
    }
  }
}
