/** Which notifications are cancelled, how often, and whose. */
module Notifications {
  import opened Wrappers
  import opened TaskRecord
  import opened Subscribers
  import opened TaskTable
  import opened Invariants
  import opened Reachability
  import opened Stopping
  import L = Labels

  // ---------------------------------------------------------------- removals for one application

  /** The loops that cancel for a whole application without looking for tasks that share. */
  predicate ForUid(job: Job, uid: int) {
    match job
    case ByUid(u) => u == uid
    case ByUidAndMode(u, _) => u == uid
    case AppGone(u) => u == uid
    case Cleared(u) => u == uid
    case Audio(u) => u == uid
    case LiveViewShown(u) => u == uid
    case _ => false
  }

  lemma ForeignCancels(r: Record, text: string, v: int, isSub: bool, id: int)
    requires Fits(r) && id != NO_ID && L.LabelOfUid(text, v, isSub) && v != r.app.uid
    ensures Cancels(MainNote(r), text, id) == 0 && Cancels(SubNote(r), text, id) == 0
  {
    hide L.LabelOfUid, MainCancels, SubCancels, MainNote, SubNote;
    NoteCancels(r, text, id);
    if RefersTo(r, text, id) {
      L.LabelNamesOneUid(text, v, isSub, r.app.uid, false);
    }
    if RefersToSub(r, text, id) {
      SubLabelFits(r);
      L.LabelNamesOneUid(text, v, isSub, r.app.uid, true);
    }
  }

  /** One round only adds cancels of the record it is about. */
  lemma RoundNotes(s: State, k: string, job: Job, uid: int)
    requires k in s.tasks && ForUid(job, uid)
    ensures var s', r := Round(s, k, s.tasks[k], job), s.tasks[k];
            || s'.notes == s.notes + MainNote(r) || s'.notes == s.notes + SubNote(r)
            || s'.notes == s.notes + (MainNote(r) + SubNote(r))
  {
    hide Notify, NotifyAudio, WriteTable, DropAndTell, HasCallback;
    var r := s.tasks[k];
    match job {
      case AppGone(_) =>
        DropAndTellNotes(s, k, r, SYSTEM_CANCEL, (if r.notice.id != NO_ID then MainNote(r) else []) + SubNote(r));
        assert [] + SubNote(r) == SubNote(r);
      case Cleared(_) => DropAndTellNotes(s, k, r, SYSTEM_CANCEL, MainNote(r));
      case Audio(_) =>
        if !HasCallback(s.subs, r.app.uid, SuspendFlag) {
        } else if r.phase.audioSuspends == 0 {
        } else {
        }
      case _ =>
    }
  }

  lemma {:induction false} VisitsSpare(s: State, order: seq<string>, job: Job, uid: int, text: string, v: int,
                                       isSub: bool, id: int)
    requires Inv(s, Basic) && ForUid(job, uid) && id != NO_ID && L.LabelOfUid(text, v, isSub) && v != uid
    ensures Spared(s, Visits(s, order, job), text, id)
  {
    hide TableOk, ReadTable, Round, L.LabelOfUid, Cancels, MainNote, SubNote, Fits;
    if order != [] {
      var n := |order| - 1;
      VisitsSpare(s, order[..n], job, uid, text, v, isSub, id);
      VisitsInv(s, order[..n], job, Basic);
      var before, k := Visits(s, order[..n], job), order[n];
      if k in before.tasks && Selected(job, before.tasks[k]) {
        var r := before.tasks[k];
        RoundNotes(before, k, job, uid);
        InvFits(before, k, Basic);
        ForeignCancels(r, text, v, isSub, id);
        CancelsConcat(before.notes, MainNote(r), text, id);
        CancelsConcat(before.notes, SubNote(r), text, id);
        CancelsConcat(MainNote(r), SubNote(r), text, id);
        CancelsConcat(before.notes, MainNote(r) + SubNote(r), text, id);
      }
    }
  }

  lemma LoopNotes(s: State, job: Job, order: seq<string>, uid: int)
    requires ForUid(job, uid)
    ensures Loop(s, job, order).notes == Visits(s, order, job).notes
  {
    hide TellAppStop, Visits;
    TellNotes(Visits(s, order, job), uid);
  }

  /** Notification isolation: a removal for one application never cancels a notification, main or
      additional, of a live task of another application. */
  lemma LoopSparesOthers(s: State, job: Job, order: seq<string>, uid: int, k: string)
    requires Inv(s, Basic) && ForUid(job, uid) && k in s.tasks && s.tasks[k].app.uid != uid
    ensures SparedBoth(s, Loop(s, job, order), s.tasks[k])
  {
    hide Inv, Loop, Visits, L.LabelOfUid, Cancels, ForUid;
    var n, v := s.tasks[k].notice, s.tasks[k].app.uid;
    InvFits(s, k, Basic);
    LoopNotes(s, job, order, uid);
    if n.id != NO_ID {
      VisitsSpare(s, order, job, uid, n.text, v, false, n.id);
    }
    if n.subId != NO_ID {
      SubLabelFits(s.tasks[k]);
      VisitsSpare(s, order, job, uid, n.subText, v, true, n.subId);
    }
  }

  /** ... over all runs. */
  lemma RunSparesOthers(steps: seq<Step>, job: Job, order: seq<string>, uid: int, k: string)
    requires ForUid(job, uid)
    requires k in Run(INIT, steps).tasks && Run(INIT, steps).tasks[k].app.uid != uid
    ensures var s := Run(INIT, steps); SparedBoth(s, Loop(s, job, order), s.tasks[k])
  {
    hide Inv, Loop, SparedBoth, ForUid, Run;
    RunInv(steps, Basic);
    LoopSparesOthers(Run(INIT, steps), job, order, uid, k);
  }

  // ---------------------------------------------------------------- suspending by key

  lemma SuspendAtNotes(s: State, uid: int, reason: int, k: string)
    requires k in s.tasks
    ensures SuspendAt(s, uid, reason, k).notes == s.notes + (MainNote(s.tasks[k]) + SubNote(s.tasks[k]))
  {
    hide TellAppStop, Notify, WriteTable;
    var r := s.tasks[k];
    var s1 := if r.app.uid == uid then PutSuspended(s, k, SuspendRecord(r, reason)) else s;
    TellNotes(Noted(s1, MainNote(r) + SubNote(r)), uid);
  }

  /** The record shows nothing that a suspension would withdraw. */
  predicate Unseen(r: Record) {
    r.notice.id == NO_ID && (r.notice.subId == NO_ID || !r.app.byRequest)
  }

  lemma SuspendCancels(s: State, uid: int, reason: int, k: string, text: string, id: int)
    requires k in s.tasks && id != NO_ID
    ensures var r := s.tasks[k];
            Cancels(SuspendAt(s, uid, reason, k).notes, text, id)
            == Cancels(s.notes, text, id) + One(RefersTo(r, text, id)) + One(RefersToSub(r, text, id))
  {
    hide SuspendAt, MainNote, SubNote, MainCancels, SubCancels, RefersTo, RefersToSub;
    var r := s.tasks[k];
    SuspendAtNotes(s, uid, reason, k);
    NoteCancels(r, text, id);
    CancelsConcat(MainNote(r), SubNote(r), text, id);
    CancelsConcat(s.notes, MainNote(r) + SubNote(r), text, id);
  }

  /** Nothing of a task of application `v` is withdrawn with a record of another application. */
  lemma SuspendSparesForeign(s: State, uid: int, reason: int, k: string, j: string)
    requires Inv(s, Basic) && k in s.tasks && j in s.tasks
    requires s.tasks[k].app.uid != s.tasks[j].app.uid || Unseen(s.tasks[k])
    ensures SparedBoth(s, SuspendAt(s, uid, reason, k), s.tasks[j])
  {
    hide Inv, SuspendAt, MainCancels, SubCancels, MainNote, SubNote, L.LabelOfUid, L.SubLabel;
    var n, r, v := s.tasks[j].notice, s.tasks[k], s.tasks[j].app.uid;
    InvFits(s, j, Basic);
    InvFits(s, k, Basic);
    if n.id != NO_ID {
      SuspendCancels(s, uid, reason, k, n.text, n.id);
      if r.app.uid != v {
        ForeignCancels(r, n.text, v, false, n.id);
        NoteCancels(r, n.text, n.id);
      }
    }
    if n.subId != NO_ID {
      SubLabelFits(s.tasks[j]);
      SuspendCancels(s, uid, reason, k, n.subText, n.subId);
      if r.app.uid != v {
        ForeignCancels(r, n.subText, v, true, n.subId);
        NoteCancels(r, n.subText, n.subId);
      }
    }
  }

  /** A suspension names an application and a table key. It leaves the notifications, main and additional,
      of all tasks of other applications alone exactly when the named record belongs to the named
      application or shows none: the code suspends only a record of the named application but cancels
      for whatever record it found. */
  lemma SuspendSparesOthersExact(s: State, uid: int, reason: int, k: string)
    requires Inv(s, Basic) && k in s.tasks
    ensures (forall j :: j in s.tasks && s.tasks[j].app.uid != uid ==>
               SparedBoth(s, SuspendAt(s, uid, reason, k), s.tasks[j]))
       <==> s.tasks[k].app.uid == uid || Unseen(s.tasks[k])
  {
    hide Inv, SuspendAt, MainCancels, SubCancels;
    var n, r := s.tasks[k].notice, s.tasks[k];
    if r.app.uid == uid || Unseen(r) {
      forall j | j in s.tasks && s.tasks[j].app.uid != uid
        ensures SparedBoth(s, SuspendAt(s, uid, reason, k), s.tasks[j])
      {
        SuspendSparesForeign(s, uid, reason, k, j);
      }
    } else {
      if n.id != NO_ID {
        SuspendCancels(s, uid, reason, k, n.text, n.id);
      } else {
        SuspendCancels(s, uid, reason, k, n.subText, n.subId);
      }
      assert !SparedBoth(s, SuspendAt(s, uid, reason, k), s.tasks[k]);
    }
  }

  // ---------------------------------------------------------------- from a label back to its task

  /** The label under which a live task publishes, taken apart together with the ability name, leads back
      to that task and no other; so does the label of its additional notification, which is recognised. */
  lemma LabelFindsTask(s: State, k: string)
    requires Inv(s, Basic) && k in s.tasks
    ensures var app := s.tasks[k].app;
            && L.ParseLabel(OwnLabel(s.tasks[k]), app.abilityName) == L.Task(k, false)
            && (app.byRequest ==> L.ParseLabel(OwnSubLabel(s.tasks[k]), app.abilityName) == L.Task(k, true))
  {
    hide L.TaskKey, L.MainLabel, L.SubLabel, L.ParseLabel, ReadTable, Fits, SameAbility;
    var app := s.tasks[k].app;
    L.MainLabelRoundTrip(app.uid, app.abilityName, app.abilityId, app.byRequest, app.taskId);
    L.SubLabelRoundTrip(app.uid, app.abilityName, app.abilityId, app.taskId, app.pid);
  }
}
