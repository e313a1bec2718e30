/** What a start answers, with which error it is refused, and what it stores, in the fields of the request, of the
    records and of the answers of the system. */
module StartOutcomes {
  import opened Wrappers
  import opened TaskRecord
  import opened Subscribers
  import opened TaskTable
  import opened Invariants
  import opened Reachability
  import opened Rules
  import opened Admission
  import opened ModeChecks
  import opened Publishing
  import opened UpdateOutcomes

  // ---------------------------------------------------------------- the record asked for

  predicate OnlyTransfers(modes: seq<nat>) {
    forall i :: 0 <= i < |modes| ==> modes[i] == 1
  }

  /** The i-th mode is the first that is not data transfer. */
  predicate FirstOther(modes: seq<nat>, i: nat) {
    i < |modes| && modes[i] != 1 && forall j :: 0 <= j < i ==> modes[j] == 1
  }

  /** The mode that stands for several: the first that is not data transfer, or data transfer. */
  predicate IsMainMode(mode: nat, modes: seq<nat>) {
    && (OnlyTransfers(modes) ==> mode == 1)
    && forall i :: 0 <= i < |modes| && FirstOther(modes, i) ==> mode == modes[i]
  }

  lemma {:induction false} FirstOtherIs(modes: seq<nat>, other: nat)
    ensures OnlyTransfers(modes) ==> FirstOtherMode(modes, other) == other
    ensures forall i :: 0 <= i < |modes| && FirstOther(modes, i) ==> FirstOtherMode(modes, other) == modes[i]
  {
    if modes != [] && modes[0] == 1 {
      FirstOtherIs(modes[1..], other);
      assert forall i :: 0 <= i < |modes| - 1 ==> modes[1..][i] == modes[i + 1];
      forall i | 0 <= i < |modes| && FirstOther(modes, i) ensures FirstOtherMode(modes, other) == modes[i] {
        assert FirstOther(modes[1..], i - 1);
      }
    }
  }

  /** Everything the caller says of itself and of the task is in the record; the record shows no notification and is
      running. */
  lemma RecordAsked(s: State, q: Request)
    ensures var r := Candidate(s, q);
            && r.app.bundleName == q.bundleName && r.app.abilityName == q.abilityName && r.app.uid == q.uid
            && r.app.pid == q.pid && r.app.userId == q.userId && r.app.taskId == s.nextTask + 1
            && r.notice.id == -1 && r.notice.subId == -1 && !r.phase.suspended && !r.phase.standby
            && !r.phase.standbySuspended && r.phase.audioSuspends == 0 && r.phase.audioDetected
    ensures var r := Candidate(s, q);
            q.AppRequest? ==>
              && r.app.abilityId == q.abilityId && r.app.appIndex == q.appIndex && r.app.newApi == q.newApi
              && r.app.system == q.system && r.app.byRequest == q.byRequest && r.app.combined == q.combined
              && !r.app.inner && !r.app.innerNotify && !r.app.fromComponent
              && r.work.batchApi == q.batchApi && r.work.subModes == q.subModes && r.work.mergeTaskId == q.mergeTaskId
              && r.work.want == q.want && r.work.progress == q.progress
              && r.work.modes == (if q.batchApi then q.modes else q.modes + [q.modeId])
              && (q.batchApi && q.modes != [] ==> IsMainMode(r.work.modeId, q.modes))
              && (!q.batchApi || q.modes == [] ==> r.work.modeId == q.modeId)
    ensures var r := Candidate(s, q);
            q.InnerRequest? ==>
              && r.app.inner && r.app.innerNotify == q.innerNotify && r.app.fromComponent == q.fromComponent
              && r.app.newApi && !r.app.byRequest && !r.app.combined && !r.app.system && r.app.abilityId == -1
              && r.app.appIndex == -1 && r.work.modeId == q.modeId && r.work.modes == [q.modeId]
              && r.work.subModes == [] && r.work.mergeTaskId == -1 && r.work.want.None? && r.work.progress.None?
  {
    hide FirstOtherMode;
    if q.AppRequest? && q.modes != [] {
      FirstOtherIs(q.modes, q.modes[0]);
    }
  }

  // ---------------------------------------------------------------- the guards

  predicate AllOfAbility(t: Table, ks: set<string>, abilityId: int) {
    forall k :: k in ks ==> k in t && t[k].app.byRequest && t[k].app.abilityId == abilityId
  }

  /** Ten request-object tasks have this ability id. */
  ghost predicate Crowded(t: Table, abilityId: int) {
    exists ks :: |ks| >= 10 && AllOfAbility(t, ks, abilityId)
  }

  lemma CrowdedIs(t: Table, abilityId: int)
    ensures |SameAbility(t, abilityId)| >= ABILITY_TASK_MAX_NUM <==> Crowded(t, abilityId)
  {
    if Crowded(t, abilityId) {
      var ks :| |ks| >= 10 && AllOfAbility(t, ks, abilityId);
      SubsetSize(ks, SameAbility(t, abilityId));
    }
    assert AllOfAbility(t, SameAbility(t, abilityId), abilityId);
  }

  /** The application is in the background for all that is known, and asks for a mode other than audio playback that
      is not remembered for it. */
  ghost predicate InBackground(s: State, r: Record, env: StartEnv) {
    && r.app.uid !in s.foreground && r.app.uid !in env.reported
    && exists m :: m in r.work.modes && m != 2 && (r.app.uid in s.applied ==> m !in s.applied[r.app.uid])
  }

  lemma AllowedIs(s: State, r: Record, env: StartEnv)
    requires r.app.byRequest ==> !r.app.inner
    ensures Allowed(s, r, env)
         == if env.preLaunch then PreLaunchState
            else if r.app.byRequest && Crowded(s.tasks, r.app.abilityId) then TooManyTasks
            else if r.app.byRequest && InBackground(s, r, env) then OnBackground
            else Ok
  {
    hide Crowded, SameAbility;
    CrowdedIs(s.tasks, r.app.abilityId);
    var allowed := AppliedModes(s, r.app.uid) + [AUDIO_PLAYBACK];
    assert forall m :: m in allowed <==> m == 2 || (r.app.uid in s.applied && m in s.applied[r.app.uid]);
    if r.app.byRequest && !AllIn(r.work.modes, allowed) {
      var i :| 0 <= i < |r.work.modes| && r.work.modes[i] !in allowed;
      assert r.work.modes[i] in r.work.modes;
    }
  }

  // ---------------------------------------------------------------- merging

  /** The task a merging request names. */
  predicate IsNamed(t: Table, k: string, r: Record) {
    k in t && t[k].app.taskId == r.work.mergeTaskId && t[k].app.uid == r.app.uid
  }

  /** The task can share its notification: it is combined, shows one, and does the same. */
  ghost predicate CanShare(target: Record, r: Record) {
    && target.app.combined && target.notice.id != -1
    && SameSet(target.work.modes, r.work.modes) && SameSet(target.work.subModes, r.work.subModes)
  }

  /** Nothing stands in the way of merging, or nothing is to be merged. */
  ghost predicate MergePasses(t: Table, r: Record) {
    r.app.byRequest ==>
      && (r.app.combined ==> 1 !in r.work.modes && 13 !in r.work.modes)
      && (r.work.mergeTaskId != -1 ==> r.app.combined && exists k :: IsNamed(t, k, r) && CanShare(t[k], r))
  }

  /** The error when something does. */
  ghost predicate IsMergeError(status: Status, t: Table, r: Record) {
    if r.app.combined && 1 in r.work.modes then status == DataTransferNotMerged
    else if r.app.combined && 13 in r.work.modes then status == SpecialNotMerged
    else if !r.app.combined then status == CurrentNotCombined
    else if forall k :: !IsNamed(t, k, r) then status == TaskIdInvalid
    else
      forall k :: IsNamed(t, k, r) ==>
        status == if !t[k].app.combined then TargetNotCombined
                  else if t[k].notice.id == -1 then TargetHasNoNotification else ModeMismatch
  }

  lemma NamedIs(t: Table, r: Record, order: seq<string>, nextTask: int)
    requires FreshIds(t, nextTask) && IsWalk(order, t)
    ensures var found := First(t, order, ByIdAndUid(r.work.mergeTaskId, r.app.uid));
            (found.Some? ==> IsNamed(t, found.value, r)) && (forall k :: IsNamed(t, k, r) ==> found == Some(k))
  {
    hide First, FreshIds;
    var q := ByIdAndUid(r.work.mergeTaskId, r.app.uid);
    FirstFinds(t, order, q);
    forall k | IsNamed(t, k, r) ensures First(t, order, q) == Some(k) {
      FirstIs(t, order, q, k, nextTask);
    }
  }

  lemma CheckMergeIs(t: Table, r: Record, order: seq<string>, nextTask: int)
    requires FreshIds(t, nextTask) && IsWalk(order, t)
    ensures var m := CheckMerge(t, r, order);
            && (m.Refuse? <==> !MergePasses(t, r)) && (m.Refuse? ==> IsMergeError(m.status, t, r))
            && (!m.Refuse? ==>
                  if r.app.byRequest && r.work.mergeTaskId != -1
                  then m.Share? && IsNamed(t, m.k, r) && CanShare(t[m.k], r) else m.Separate?)
  {
    hide First, FreshIds, IsWalk, SameModes, SameSet;
    NamedIs(t, r, order, nextTask);
    var found := First(t, order, ByIdAndUid(r.work.mergeTaskId, r.app.uid));
    if found.Some? {
      assert IsNamed(t, found.value, r);
      SameModesIs(t[found.value].work.modes, r.work.modes);
      SameModesIs(t[found.value].work.subModes, r.work.subModes);
    }
  }

  // ---------------------------------------------------------------- the whole start

  /** The record is in the table under its key, the start is announced and written. */
  predicate IsEntered(s: State, s': State, t: Table, r: Record, next: int, notes: seq<Note>) {
    s' == s.(tasks := t[KeyOf(r) := r], nextTask := s.nextTask + 1, nextNote := next, notes := s.notes + notes,
             log := s.log + Notify(s.subs, TaskStart, r), disk := WriteTable(t[KeyOf(r) := r]))
  }

  /** The record shares the notification of the task it names, which is marked with its own id. */
  predicate EntersShared(s: State, s': State, r: Record, k: string)
    requires k in s.tasks
  {
    var target := s.tasks[k];
    var marked := s.tasks[k := target.(work := target.work.(mergeTaskId := r.work.mergeTaskId))];
    var sharing := r.(notice := r.notice.(text := target.notice.text, id := target.notice.id));
    IsEntered(s, s', marked, sharing, s.nextNote, [])
  }

  /** What a start answers once nothing stands in its way but the notification. */
  ghost predicate IsSubmitted(s: State, reply: Reply, r: Record, env: StartEnv) {
    if r.app.byRequest && r.work.mergeTaskId != -1 then
      && reply.status == Ok
      && exists k :: IsNamed(s.tasks, k, r) && CanShare(s.tasks[k], r) && EntersShared(s, reply.s, r, k)
    else if r.app.inner && !r.app.innerNotify then
      reply.status == Ok && IsEntered(s, reply.s, s.tasks, r, s.nextNote, [])
    else
      exists u ::
        && IsRefreshed(r, s.nextNote, env.answer, u) && reply.status == u.status
        && if u.status == Ok then IsEntered(s, reply.s, s.tasks, u.r, u.next, u.notes)
           else reply.s == s.(nextTask := s.nextTask + 1, nextNote := u.next, notes := s.notes + u.notes)
  }

  lemma SubmitIs(s: State, r: Record, env: StartEnv, order: seq<string>)
    requires FreshIds(s.tasks, s.nextTask) && IsWalk(order, s.tasks) && ModesPass(r, env) && MergePasses(s.tasks, r)
    requires KeyOf(r) !in s.tasks
    ensures IsSubmitted(s, Submit(s.(nextTask := s.nextTask + 1), r, env, order), r, env)
  {
    hide FreshIds, IsWalk, ModesPass, MergePasses, CheckStartModes, CheckMerge, Refresh, IsRefreshed, Notify,
      WriteTable, KeyOf, CanShare;
    StartModesJudged(r, env);
    CheckMergeIs(s.tasks, r, order, s.nextTask);
    RefreshIs(r, s.nextNote, env.answer);
    match CheckMerge(s.tasks, r, order) {
      case Refuse(_) =>
      case Share(k) => SharedKey(r, s.tasks[k]);
      case Separate =>
        var u := Refresh(r, s.nextNote, env.answer);
        assert IsRefreshed(r, s.nextNote, env.answer, u);
        RefreshedKey(r, s.nextNote, env.answer, u);
        assert s.notes + [] == s.notes;
    }
  }

  lemma SharedKey(r: Record, target: Record)
    ensures KeyOf(MergeInto(r, target)) == KeyOf(r)
  {
  }

  lemma RefreshedKey(r: Record, next: int, a: Answer, u: Posted)
    requires IsRefreshed(r, next, a, u)
    ensures KeyOf(u.r) == KeyOf(r)
  {
    hide OwnLabel, OwnSubLabel;
  }

  /** The error of the mode check of a start. */
  predicate IsModeError(status: Status, r: Record, env: StartEnv) {
    if r.app.inner then status == InvalidMode
    else if !r.app.newApi then status == NoModeConfigured
    else IsJudged(status, r.work.modes, r.app, env.configured, env.keeping, env.special)
  }

  /** The answer and the effect of a start: the first guard that stops it gives the error; from the key on, the id has
      been handed out; otherwise the record asked for is stored with its notification, or refused with it. */
  lemma StartOutcome(s: State, q: Request, env: StartEnv, order: seq<string>)
    requires FreshIds(s.tasks, s.nextTask) && IsWalk(order, s.tasks)
    ensures var r, reply, counted := Candidate(s, q), Start(s, q, env, order), s.(nextTask := s.nextTask + 1);
            if q.uid in s.disabled then reply == Reply(s, RequestsDisabled)
            else if env.preLaunch then reply == Reply(s, PreLaunchState)
            else if r.app.byRequest && Crowded(s.tasks, r.app.abilityId) then reply == Reply(s, TooManyTasks)
            else if r.app.byRequest && InBackground(s, r, env) then reply == Reply(s, OnBackground)
            else if KeyOf(r) in s.tasks then reply == Reply(counted, AlreadyExists)
            else if !ModesPass(r, env) then reply.s == counted && IsModeError(reply.status, r, env)
            else if !MergePasses(s.tasks, r) then reply.s == counted && IsMergeError(reply.status, s.tasks, r)
            else IsSubmitted(s, reply, r, env)
  {
    hide FreshIds, IsWalk, ModesPass, IsModeError, MergePasses, IsMergeError, IsSubmitted, Crowded, InBackground,
      Allowed, Submit, KeyOf, NewRecord;
    var r := Candidate(s, q);
    CandidateAllowed(s, q, env);
    if KeyOf(r) !in s.tasks {
      if ModesPass(r, env) && MergePasses(s.tasks, r) {
        SubmitIs(s, r, env, order);
      } else {
        SubmitRefused(s, r, env, order);
      }
    }
  }

  lemma CandidateAllowed(s: State, q: Request, env: StartEnv)
    ensures var r := Candidate(s, q);
            && NewRecord(q).app.uid == q.uid
            && Allowed(s, NewRecord(q), env)
               == if env.preLaunch then PreLaunchState
                  else if r.app.byRequest && Crowded(s.tasks, r.app.abilityId) then TooManyTasks
                  else if r.app.byRequest && InBackground(s, r, env) then OnBackground
                  else Ok
  {
    hide Allowed, Crowded, FirstOtherMode;
    RequestsAreNotInner(q);
    AllowedIs(s, NewRecord(q), env);
  }

  lemma SubmitRefused(s: State, r: Record, env: StartEnv, order: seq<string>)
    requires FreshIds(s.tasks, s.nextTask) && IsWalk(order, s.tasks) && !(ModesPass(r, env) && MergePasses(s.tasks, r))
    ensures var counted := s.(nextTask := s.nextTask + 1);
            var reply := Submit(counted, r, env, order);
            && reply.s == counted
            && if !ModesPass(r, env) then IsModeError(reply.status, r, env) else IsMergeError(reply.status, s.tasks, r)
  {
    hide FreshIds, IsWalk, ModesPass, MergePasses, IsMergeError, CheckStartModes, CheckMerge, Refresh, Insert, IsJudged;
    StartModesJudged(r, env);
    CheckMergeIs(s.tasks, r, order, s.nextTask);
  }
}
