/** What the loops that erase while they walk leave behind, for every walk order. */
module Removal {
  import opened Wrappers
  import opened TaskRecord
  import opened Subscribers
  import opened TaskTable
  import opened Invariants
  import opened Stopping
  import opened Notifications
  import L = Labels

  /** The loops that remove every record they select. */
  predicate Removes(job: Job) {
    || job.ByUid? || job.ByUidAndMode? || job.Dismissed? || job.AppGone?
    || job.Cleared? || job.Accounts? || job.InnerMode? || job.Everything?
  }

  function Kept(t: Table, job: Job): Table {
    map k | k in t && !Selected(job, t[k]) :: t[k]
  }

  lemma RoundErases(s: State, k: string, job: Job)
    requires k in s.tasks && Removes(job)
    ensures Round(s, k, s.tasks[k], job).tasks == s.tasks - {k}
  {
    hide Notify, NotifyAppStop, HasUid, WriteTable, SharedCancel;
  }

  /** Part of the way. */
  function KeptSoFar(t: Table, job: Job, done: seq<string>): Table {
    map k | k in t && !(k in done && Selected(job, t[k])) :: t[k]
  }

  lemma {:induction false} VisitsFilter(s: State, order: seq<string>, job: Job)
    requires Removes(job)
    ensures Visits(s, order, job).tasks == KeptSoFar(s.tasks, job, order)
  {
    hide Round, Selected;
    if order != [] {
      var n := |order| - 1;
      VisitsFilter(s, order[..n], job);
      var before, k := Visits(s, order[..n], job), order[n];
      assert order == order[..n] + [k];
      if k in before.tasks && Selected(job, before.tasks[k]) {
        RoundErases(before, k, job);
      }
    }
  }

  lemma TellAllTasks(s: State, uids: seq<int>)
    ensures TellAll(s, uids).tasks == s.tasks
  {
    hide HasUid, NotifyAppStop;
    if uids != [] {
      TellAllTasks(s, uids[..|uids| - 1]);
    }
  }

  lemma LoopTasks(s: State, job: Job, order: seq<string>)
    ensures Loop(s, job, order).tasks == Visits(s, order, job).tasks
  {
    hide Visits, TellAppStop, TellAll;
    if job.ByUid? || job.ByUidAndMode? || job.Audio? {
      TellNotes(Visits(s, order, job), job.uid);
    } else if job.Everything? {
      TellAllTasks(Save(Visits(s, order, job)), job.uids);
    }
  }

  /** A removing loop is a filter: it leaves exactly the records it does not select, unchanged. */
  lemma LoopFilter(s: State, job: Job, order: seq<string>)
    requires Removes(job) && IsWalk(order, s.tasks)
    ensures Loop(s, job, order).tasks == Kept(s.tasks, job)
  {
    hide Loop, Visits, Selected;
    LoopTasks(s, job, order);
    VisitsFilter(s, order, job);
  }

  /** Dismissing a notification leaves no task that refers to it, and every task that did not. */
  lemma DismissRemovesAll(s: State, k: string, isSub: bool, order: seq<string>)
    requires IsWalk(order, s.tasks) && k in s.tasks && s.tasks[k].notice.id != NO_ID
    ensures var n, t := s.tasks[k].notice, Dismiss(s, k, isSub, order).tasks;
            && !Referenced(t, n.text, n.id)
            && (forall j :: j in s.tasks && !RefersTo(s.tasks[j], n.text, n.id) ==> j in t && t[j] == s.tasks[j])
            && (forall j :: j in t ==> j in s.tasks)
  {
    hide Loop;
    var s1 := SetReason(s, k, REMOVE_NOTIFICATION_CANCEL);
    var n := s1.tasks[k].notice;
    LoopFilter(s1, Dismissed(n.text, n.id, isSub), order);
  }

  /** From the screen back to the table: the label of a notification that a live task published, parsed
      with the task's ability name, names that task, and the dismissal it leads to removes it. */
  lemma UserDismissalRemovesTask(s: State, k: string, order: seq<string>)
    requires Inv(s, Basic) && IsWalk(order, s.tasks) && k in s.tasks
    requires s.tasks[k].notice.id != NO_ID && s.tasks[k].notice.text == OwnLabel(s.tasks[k])
    ensures var d := L.ParseLabel(s.tasks[k].notice.text, s.tasks[k].app.abilityName);
            d.Task? && d.key == k && k !in Dismiss(s, d.key, d.isSub, order).tasks
  {
    hide Inv, IsWalk, Dismiss, OwnLabel, L.ParseLabel, L.SubLabel;
    LabelFindsTask(s, k);
    DismissRemovesOwn(s, k, order);
  }

  lemma DismissRemovesOwn(s: State, k: string, order: seq<string>)
    requires IsWalk(order, s.tasks) && k in s.tasks && s.tasks[k].notice.id != NO_ID
    ensures k !in Dismiss(s, k, false, order).tasks
  {
    hide Loop;
    var s1 := SetReason(s, k, REMOVE_NOTIFICATION_CANCEL);
    LoopFilter(s1, Dismissed(s1.tasks[k].notice.text, s1.tasks[k].notice.id, false), order);
  }

  // ---------------------------------------------------------------- the audio loop

  /** A selected record after the loop: still there, paused, or gone. */
  function AudioOutcome(listens: bool, r: Record): Option<Record> {
    if !listens then Some(r.(phase := r.phase.(audioDetected := false)))
    else if r.phase.audioSuspends == 0 then Some(AudioPaused(r))
    else None
  }

  ghost predicate AudioDone(t: Table, t': Table, done: seq<string>, uid: int, listens: bool) {
    && t'.Keys <= t.Keys
    && forall k :: k in t ==>
         if k in done && Selected(Audio(uid), t[k])
         then AudioOutcome(listens, t[k]) == (if k in t' then Some(t'[k]) else None)
         else k in t' && t'[k] == t[k]
  }

  lemma AudioRoundIs(s: State, k: string)
    requires k in s.tasks
    ensures var s', r := AudioRound(s, k, s.tasks[k]), s.tasks[k];
            var o := AudioOutcome(HasCallback(s.subs, r.app.uid, SuspendFlag), r);
            && s'.subs == s.subs
            && s'.tasks == if o.Some? then s.tasks[k := o.value] else s.tasks - {k}
  {
    hide Notify, NotifyAudio, WriteTable, HasCallback;
    if !HasCallback(s.subs, s.tasks[k].app.uid, SuspendFlag) {
    } else if s.tasks[k].phase.audioSuspends == 0 {
    } else {
    }
  }

  lemma AudioNext(t: Table, before: Table, done: seq<string>, k: string, uid: int, listens: bool, after: Table)
    requires AudioDone(t, before, done, uid, listens) && k !in done
    requires if k in before && Selected(Audio(uid), before[k])
             then var o := AudioOutcome(listens, before[k]); after == if o.Some? then before[k := o.value]
                                                                      else before - {k}
             else after == before
    ensures AudioDone(t, after, done + [k], uid, listens)
  {
    hide AudioOutcome, Selected;
    assert k in t ==> k in before && before[k] == t[k];
  }

  lemma {:induction false} AudioVisits(s: State, order: seq<string>, uid: int)
    requires forall i, j :: 0 <= i < j < |order| ==> order[i] != order[j]
    ensures var s' := Visits(s, order, Audio(uid));
            s'.subs == s.subs && AudioDone(s.tasks, s'.tasks, order, uid, HasCallback(s.subs, uid, SuspendFlag))
  {
    if order != [] {
      hide AudioRound, HasCallback, AudioOutcome, AudioDone;
      var n := |order| - 1;
      AudioVisits(s, order[..n], uid);
      var before, k := Visits(s, order[..n], Audio(uid)), order[n];
      assert order == order[..n] + [k];
      assert k !in order[..n];
      if k in before.tasks && Selected(Audio(uid), before.tasks[k]) {
        AudioRoundIs(before, k);
      }
      AudioNext(s.tasks, before.tasks, order[..n], k, uid, HasCallback(s.subs, uid, SuspendFlag),
                Visits(s, order, Audio(uid)).tasks);
    }
  }

  /** The audio loop treats every audio task of the application once, whatever the walk order: it pauses
      a listening application's task the first time and removes it the second time. */
  lemma AudioLoopIs(s: State, uid: int, order: seq<string>)
    requires IsWalk(order, s.tasks)
    ensures AudioDone(s.tasks, Loop(s, Audio(uid), order).tasks, order, uid, HasCallback(s.subs, uid, SuspendFlag))
  {
    hide Visits, TellAppStop, AudioDone, HasCallback;
    AudioVisits(s, order, uid);
    LoopTasks(s, Audio(uid), order);
  }
}
