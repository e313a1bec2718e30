/** A run in which a stopped task leaves its additional notification on the screen. Tasks X and Y share a
    notification, Z transfers data and has two. All are suspended and reactivated; the walk is X, Z, Y, so that Y
    takes over the last handled notification, which is that of Z. Then Z is stopped. */
module Leak {
  import opened Wrappers
  import opened TaskRecord
  import opened Subscribers
  import opened TaskTable
  import opened Invariants
  import opened Reachability
  import opened Recovery
  import opened Reactivation
  import opened Stopping
  import opened Rules
  import opened Admission
  import opened Mirror
  import opened Witnesses
  import L = Labels

  const BOTH: seq<nat> := [DATA_TRANSFER, LOCATION]
  const ACCEPTED: Answer := Answer(Accepted, Accepted)

  function KeyAt(taskId: int): string {
    L.TaskKey(100, "a", 7, true, taskId)
  }

  lemma KeysApart()
    ensures KeyAt(1) != KeyAt(2) && KeyAt(1) != KeyAt(3) && KeyAt(2) != KeyAt(3)
  {
    hide L.TaskKey;
    if KeyAt(1) == KeyAt(2) {
      L.RequestKeysNameTask(100, "a", 7, 1, 2);
    } else if KeyAt(1) == KeyAt(3) {
      L.RequestKeysNameTask(100, "a", 7, 1, 3);
    } else if KeyAt(2) == KeyAt(3) {
      L.RequestKeysNameTask(100, "a", 7, 2, 3);
    }
  }

  /** X and Y: one mode, notification 0. */
  predicate Plain(r: Record, asleep: bool) {
    r.app.uid == 100 && |r.work.modes| == 1 && r.notice.id == 0 && r.phase.suspended == asleep
  }

  /** Z: two modes, its own two notifications. */
  predicate Double(r: Record, asleep: bool) {
    && r.app.uid == 100 && r.app.taskId == 3 && r.app.byRequest && r.work.modes == BOTH && r.phase.suspended == asleep
    && r.notice == Notice(OwnLabel(r), 1, OwnSubLabel(r), 2)
  }

  predicate Trio(t: Table, x: bool, y: bool, z: bool) {
    && t.Keys == {KeyAt(1), KeyAt(2), KeyAt(3)}
    && Plain(t[KeyAt(1)], x) && Plain(t[KeyAt(2)], y) && Double(t[KeyAt(3)], z)
  }

  // ---------------------------------------------------------------- three starts

  /** What the later steps need to know of a state. */
  predicate Ready(s: State, nextTask: int, nextNote: int) {
    s.subs == [LISTENER] && s.disabled == {} && s.nextTask == nextTask && s.nextNote == nextNote
  }

  const ASK_X: Step := StartStep(Ask(100, [LOCATION], true, NO_ID), Welcome(100, BOTH_MODES), [])
  const ASK_Y: Step := StartStep(Ask(100, [LOCATION], true, 1), Welcome(100, BOTH_MODES), [KeyAt(1)])
  const ASK_Z: Step := StartStep(Ask(100, BOTH, false, NO_ID), Welcome(100, BOTH_MODES), [KeyAt(1), KeyAt(2)])

  lemma KeyOfAsked(modes: seq<nat>, combined: bool, mergeTaskId: int, taskId: int)
    ensures KeyOf(Asked(100, modes, combined, mergeTaskId, taskId)) == KeyAt(taskId)
  {
    hide L.TaskKey, Asked;
    AskedFacts(100, modes, combined, mergeTaskId, taskId);
  }

  lemma StartX(s: State)
    requires Ready(s, 0, NO_ID) && s.tasks == map[] && FreshIds(s.tasks, 0)
    ensures var s' := Apply(s, ASK_X);
            && Ready(s', 1, 0) && s'.tasks.Keys == {KeyAt(1)} && Plain(s'.tasks[KeyAt(1)], false)
            && s'.tasks[KeyAt(1)].app == Asked(100, [LOCATION], true, NO_ID, 1).app
            && s'.tasks[KeyAt(1)].work == Asked(100, [LOCATION], true, NO_ID, 1).work
  {
    hide Start, KeyOf, KeyAt, OwnLabel, FreshIds, Asked, WriteTable;
    var r := Asked(100, [LOCATION], true, NO_ID, 1);
    AskedFacts(100, [LOCATION], true, NO_ID, 1);
    KeyOfAsked([LOCATION], true, NO_ID, 1);
    assert IsWalk([], s.tasks);
    AskPublishes(s, 100, [LOCATION], true, BOTH_MODES, []);
    RefreshPlain(r, NO_ID);
  }

  lemma SameModesSelf(a: seq<nat>)
    ensures SameModes(a, a)
  {
  }

  lemma StartY(s: State)
    requires Ready(s, 1, 0) && s.tasks.Keys == {KeyAt(1)} && Plain(s.tasks[KeyAt(1)], false) && FreshIds(s.tasks, 1)
    requires s.tasks[KeyAt(1)].app == Asked(100, [LOCATION], true, NO_ID, 1).app
    requires s.tasks[KeyAt(1)].work == Asked(100, [LOCATION], true, NO_ID, 1).work
    ensures var s' := Apply(s, ASK_Y);
            && Ready(s', 2, 0) && s'.tasks.Keys == {KeyAt(1), KeyAt(2)}
            && Plain(s'.tasks[KeyAt(1)], false) && Plain(s'.tasks[KeyAt(2)], false)
  {
    hide Start, L.TaskKey, OwnLabel, FreshIds, Asked, WriteTable, Notify, SameModes, KeyAt;
    var q, r, x := Ask(100, [LOCATION], true, 1), Asked(100, [LOCATION], true, 1, 2), s.tasks[KeyAt(1)];
    AskedFacts(100, [LOCATION], true, NO_ID, 1);
    AskedFacts(100, [LOCATION], true, 1, 2);
    KeyOfAsked([LOCATION], true, 1, 2);
    KeysApart();
    SameModesSelf([LOCATION]);
    SameModesSelf(SubsOf([LOCATION]));
    assert CanMerge(x, r);
    assert IsWalk([KeyAt(1)], s.tasks);
    AskAccepted(s, 100, [LOCATION], true, 1, BOTH_MODES, [KeyAt(1)]);
    CandidateIs(s, 100, [LOCATION], true, 1);
    StartShares(s, q, Welcome(100, BOTH_MODES), [KeyAt(1)], KeyAt(1));
    KeyIgnoresNotes(r, x.notice.text, x.notice.id);
  }

  lemma RefreshBoth(r: Record, next: int)
    requires !r.phase.suspended && HasLiveViewPart(r) && r.notice == BLANK.notice
    ensures var p := Refresh(r, next, ACCEPTED);
            p.r == r.(notice := Notice(OwnLabel(r), next + 1, OwnSubLabel(r), next + 2)) && p.next == next + 2
  {
    hide OwnLabel, OwnSubLabel;
    var main := Publish(r, next, true);
    assert main.r == WithNote(r, OwnLabel(r), next + 1) && main.status == Ok;
    OwnLabelsStay(r, main.r);
    assert SendLive(r, next, ACCEPTED).r == PublishSub(main.r, main.next, true).r;
  }

  lemma OwnLabelsStay(r: Record, r': Record)
    requires r'.app == r.app
    ensures OwnLabel(r') == OwnLabel(r) && OwnSubLabel(r') == OwnSubLabel(r)
  {
  }

  lemma StartZ(s: State)
    requires Ready(s, 2, 0) && s.tasks.Keys == {KeyAt(1), KeyAt(2)} && FreshIds(s.tasks, 2)
    requires Plain(s.tasks[KeyAt(1)], false) && Plain(s.tasks[KeyAt(2)], false)
    ensures var s' := Apply(s, ASK_Z); Ready(s', 3, 2) && Trio(s'.tasks, false, false, false)
  {
    hide Start, KeyOf, OwnLabel, OwnSubLabel, FreshIds, Asked, WriteTable, KeyAt, SubsOf, Refresh;
    var r := Asked(100, BOTH, false, NO_ID, 3);
    AskedFacts(100, BOTH, false, NO_ID, 3);
    KeyOfAsked(BOTH, false, NO_ID, 3);
    KeysApart();
    assert IsWalk([KeyAt(1), KeyAt(2)], s.tasks);
    AskPublishes(s, 100, BOTH, false, BOTH_MODES, [KeyAt(1), KeyAt(2)]);
    RefreshBoth(r, 0);
    OwnLabelsStay(r, Refresh(r, 0, ACCEPTED).r);
  }

  // ---------------------------------------------------------------- three suspensions

  function Sleep(taskId: int): Step {
    SuspendStep(100, 0, KeyAt(taskId), false, [], {})
  }

  lemma Suspended(s: State, taskId: int)
    requires s.subs == [LISTENER] && KeyAt(taskId) in s.tasks && s.tasks[KeyAt(taskId)].app.uid == 100
    ensures var k, s' := KeyAt(taskId), Apply(s, Sleep(taskId));
            s'.tasks == s.tasks[k := SuspendRecord(s.tasks[k], 0)] && s'.subs == s.subs
  {
    hide Notify, WriteTable, KeyAt, MainNote, SubNote, NotifyAppStop, HasUid;
    ListenerIsSuspended(s, KeyAt(taskId));
  }

  lemma SuspendTrio(s: State)
    requires s.subs == [LISTENER] && Trio(s.tasks, false, false, false)
    ensures var s' := Apply(Apply(Apply(s, Sleep(1)), Sleep(2)), Sleep(3));
            s'.subs == [LISTENER] && Trio(s'.tasks, true, true, true)
  {
    hide Apply, KeyAt, OwnLabel, OwnSubLabel;
    KeysApart();
    Suspended(s, 1);
    Suspended(Apply(s, Sleep(1)), 2);
    Suspended(Apply(Apply(s, Sleep(1)), Sleep(2)), 3);
    var s' := Apply(Apply(Apply(s, Sleep(1)), Sleep(2)), Sleep(3));
    OwnLabelsStay(s.tasks[KeyAt(3)], s'.tasks[KeyAt(3)]);
  }

  // ---------------------------------------------------------------- one reactivation

  const ALL_ACCEPTED: map<string, Answer> := map[KeyAt(1) := ACCEPTED, KeyAt(3) := ACCEPTED]
  const WALK: seq<string> := [KeyAt(1), KeyAt(3), KeyAt(2)]

  lemma WakeX(t: Turn, k: string)
    requires t.id == ILLEGAL_ID && t.seen == [] && k in t.s.tasks && Plain(t.s.tasks[k], true)
    ensures var t' := Reactivated(t, k, ACCEPTED);
            && t'.seen == [0] && t'.id == 0 && t'.s.tasks.Keys == t.s.tasks.Keys
            && forall j :: j in t.s.tasks && j != k ==> t'.s.tasks[j] == t.s.tasks[j]
  {
    hide Notify, WriteTable, OwnLabel;
    RefreshPlain(Awake(t.s.tasks[k]), t.s.nextNote);
  }

  lemma RefreshDouble(r: Record, next: int)
    requires Double(r, false)
    ensures var p := Refresh(r, next, ACCEPTED);
            p.r == r && p.notes == [Post(r.notice.text, 1), Post(OwnSubLabel(r), 2)]
  {
    hide OwnLabel, OwnSubLabel;
    assert HasLiveViewPart(r);
    var main := Publish(r, next, true);
    assert main.r == r;
  }

  lemma WakeZ(t: Turn, k: string)
    requires 1 !in t.seen && k in t.s.tasks && Double(t.s.tasks[k], true)
    ensures var t', r := Reactivated(t, k, ACCEPTED), Awake(t.s.tasks[k]);
            && t'.seen == t.seen + [1] && t'.id == 1 && t'.text == OwnLabel(r) && t'.s.tasks == t.s.tasks[k := r]
            && t'.s.notes != [] && t'.s.notes[|t'.s.notes| - 1] == Post(OwnSubLabel(r), 2) && Double(r, false)
  {
    hide Notify, WriteTable, OwnLabel, OwnSubLabel, Refresh;
    var r := Awake(t.s.tasks[k]);
    OwnLabelsStay(t.s.tasks[k], r);
    RefreshDouble(r, t.s.nextNote);
  }

  lemma WakeY(t: Turn, k: string)
    requires 0 in t.seen && t.id != ILLEGAL_ID && k in t.s.tasks && Plain(t.s.tasks[k], true)
    ensures var s' := Reactivated(t, k, Answer(Unavailable, Unavailable)).s;
            && s'.tasks == t.s.tasks[k := WithNote(Awake(t.s.tasks[k]), t.text, t.id)] && s'.notes == t.s.notes
  {
    hide Notify, WriteTable, Refresh;
  }

  /** Y now carries the label and id of Z, and the last thing asked of the service is to show the additional
      notification of Z. */
  predicate Muddled(s: State) {
    && s.tasks.Keys == {KeyAt(1), KeyAt(2), KeyAt(3)} && Double(s.tasks[KeyAt(3)], false)
    && RefersTo(s.tasks[KeyAt(2)], s.tasks[KeyAt(3)].notice.text, 1)
    && s.notes != [] && s.notes[|s.notes| - 1] == Post(s.tasks[KeyAt(3)].notice.subText, 2)
  }

  /** One turn of the reactivation loop, at a suspended task of the application. */
  lemma NextTurn(s: State, before: seq<string>, k: string, answer: Answer)
    requires answer == if k in ALL_ACCEPTED then ALL_ACCEPTED[k] else Answer(Unavailable, Unavailable)
    requires var t := Reactivations(s, before, 100, ALL_ACCEPTED).s.tasks;
             k in t && t[k].app.uid == 100 && t[k].phase.suspended
    ensures Reactivations(s, before + [k], 100, ALL_ACCEPTED)
         == Reactivated(Reactivations(s, before, 100, ALL_ACCEPTED), k, answer)
  {
    hide Reactivated, KeyAt;
    assert (before + [k])[..|before|] == before;
  }

  /** X and Z are awake, Y is not; the notification handled last is that of Z. */
  predicate TwoAwake(t: Turn) {
    && t.s.tasks.Keys == {KeyAt(1), KeyAt(2), KeyAt(3)} && Plain(t.s.tasks[KeyAt(2)], true)
    && Double(t.s.tasks[KeyAt(3)], false) && 0 in t.seen && t.id == 1 && t.text == t.s.tasks[KeyAt(3)].notice.text
    && t.s.notes != [] && t.s.notes[|t.s.notes| - 1] == Post(t.s.tasks[KeyAt(3)].notice.subText, 2)
  }

  lemma WakeTwo(s: State)
    requires Trio(s.tasks, true, true, true)
    ensures TwoAwake(Reactivations(s, [] + [KeyAt(1)] + [KeyAt(3)], 100, ALL_ACCEPTED))
  {
    hide Reactivated, Reactivations, KeyAt, OwnLabel, OwnSubLabel;
    KeysApart();
    var x, z, t0 := KeyAt(1), KeyAt(3), Reactivations(s, [], 100, ALL_ACCEPTED);
    FirstTurn(s);
    NextTurn(s, [], x, ACCEPTED);
    WakeX(t0, x);
    NextTurn(s, [] + [x], z, ACCEPTED);
    WakeZ(Reactivated(t0, x, ACCEPTED), z);
  }

  lemma WakeTrio(s: State)
    requires Trio(s.tasks, true, true, true)
    ensures Muddled(Apply(s, ActiveStep(100, false, WALK, ALL_ACCEPTED)))
  {
    hide Reactivated, Reactivations, KeyAt, Trio, OwnLabel, OwnSubLabel;
    KeysApart();
    var x, y, z := KeyAt(1), KeyAt(2), KeyAt(3);
    WakeTwo(s);
    WakeY(Reactivations(s, [] + [x] + [z], 100, ALL_ACCEPTED), y);
    NextTurn(s, [] + [x] + [z], y, Answer(Unavailable, Unavailable));
    assert [] + [x] + [z] + [y] == WALK;
  }

  lemma FirstTurn(s: State)
    ensures Reactivations(s, [], 100, ALL_ACCEPTED) == Turn(s, "default", ILLEGAL_ID, [])
  {
  }

  // ---------------------------------------------------------------- the stop

  lemma StopLeaks(s: State)
    requires Muddled(s) && FreshIds(s.tasks, s.nextTask)
    ensures var s' := Apply(s, StopStep(100, "a", 7, 3, WALK, {}));
            s'.tasks == s.tasks - {KeyAt(3)} && s'.notes == s.notes
  {
    hide KeyAt, OwnLabel, OwnSubLabel, DropAndTell, FreshIds, First;
    KeysApart();
    var k, r := KeyAt(3), s.tasks[KeyAt(3)];
    assert k in WALK;
    FirstIs(s.tasks, WALK, ById(3), k, s.nextTask);
    assert (s.tasks - {k})[KeyAt(2)] == s.tasks[KeyAt(2)];
    assert Referenced(s.tasks - {k}, r.notice.text, 1);
    DropAndTellNotes(s, k, r, r.phase.reason, []);
  }

  lemma StartTrio() returns (steps: seq<Step>)
    ensures ProperRun(steps) && SoundRun(INIT, steps) && Run(INIT, steps).subs == [LISTENER]
    ensures Trio(Run(INIT, steps).tasks, false, false, false)
  {
    hide Apply, Run, SoundRun, HarmlessRun, ProperRun, Trio, Plain, Inv, FreshIds, Asked;
    NoSteps();
    var a := SubscribeStep(LISTENER);
    Snoc([], a);
    FirstListener();
    Snoc([] + [a], ASK_X);
    RunInv([] + [a], Full);
    InvIds(Run(INIT, [] + [a]));
    StartX(Run(INIT, [] + [a]));
    Snoc([] + [a] + [ASK_X], ASK_Y);
    RunInv([] + [a] + [ASK_X], Full);
    InvIds(Run(INIT, [] + [a] + [ASK_X]));
    StartY(Run(INIT, [] + [a] + [ASK_X]));
    Snoc([] + [a] + [ASK_X] + [ASK_Y], ASK_Z);
    RunInv([] + [a] + [ASK_X] + [ASK_Y], Full);
    InvIds(Run(INIT, [] + [a] + [ASK_X] + [ASK_Y]));
    StartZ(Run(INIT, [] + [a] + [ASK_X] + [ASK_Y]));
    AskProper(100, [LOCATION], true, NO_ID, Welcome(100, BOTH_MODES), []);
    AskProper(100, [LOCATION], true, 1, Welcome(100, BOTH_MODES), [KeyAt(1)]);
    AskProper(100, BOTH, false, NO_ID, Welcome(100, BOTH_MODES), [KeyAt(1), KeyAt(2)]);
    steps := [] + [a] + [ASK_X] + [ASK_Y] + [ASK_Z];
  }

  lemma FirstListener()
    ensures var s := Apply(INIT, SubscribeStep(LISTENER)); Ready(s, 0, NO_ID) && s.tasks == map[]
  {
  }

  /** The whole run. Stopping Z removes it and issues no cancel, although Z has an additional notification, which
      the last request to the service has put on the screen. */
  lemma SubNotificationLeaks() returns (steps: seq<Step>, step: Step, k: string)
    ensures ProperRun(steps) && Proper(step) && SoundRun(INIT, steps) && step.StopStep?
    ensures var s, s' := Run(INIT, steps), Apply(Run(INIT, steps), step);
            && k in s.tasks && k !in s'.tasks && s'.notes == s.notes
            && s.tasks[k].app.byRequest && s.tasks[k].notice.id != NO_ID && s.tasks[k].notice.subId != NO_ID
            && s.notes != [] && s.notes[|s.notes| - 1] == Post(s.tasks[k].notice.subText, s.tasks[k].notice.subId)
  {
    hide Apply, Run, SoundRun, HarmlessRun, ProperRun, Trio, Inv, FreshIds, KeyAt, OwnLabel, OwnSubLabel;
    var b := StartTrio();
    var s := Run(INIT, b);
    Snoc(b, Sleep(1));
    Snoc(b + [Sleep(1)], Sleep(2));
    Snoc(b + [Sleep(1)] + [Sleep(2)], Sleep(3));
    SuspendTrio(s);
    var c := b + [Sleep(1)] + [Sleep(2)] + [Sleep(3)];
    var wake := ActiveStep(100, false, WALK, ALL_ACCEPTED);
    Snoc(c, wake);
    WakeTrio(Run(INIT, c));
    steps, step, k := c + [wake], StopStep(100, "a", 7, 3, WALK, {}), KeyAt(3);
    RunInv(steps, Full);
    InvIds(Run(INIT, steps));
    StopLeaks(Run(INIT, steps));
  }
}
