/** Which modes the mode check lets through and what it answers otherwise, read off the modes, the permissions and
    the declaration. Modes are written as the numbers of the interface. */
module ModeChecks {
  import opened Wrappers
  import opened TaskRecord
  import opened TaskTable

  /** Wi-Fi interaction is for system applications, task keeping and the special scenario need a permission. */
  predicate Permitted(mode: nat, app: App, keeping: bool, special: Status) {
    (mode == 7 ==> app.system) && (mode == 9 ==> keeping) && (mode == 13 ==> special == Ok)
  }

  /** Declared; or audio playback, recording or a call by request object, with the combined mode declared. */
  predicate Covered(mode: nat, app: App, configured: set<nat>) {
    || (mode != 0 && mode in configured)
    || (app.byRequest && (mode == 2 || mode == 3 || mode == 8) && 12 in configured)
  }

  predicate Passes(mode: nat, app: App, configured: set<nat>, keeping: bool, special: Status) {
    Permitted(mode, app, keeping, special) && Covered(mode, app, configured)
  }

  predicate AllPass(modes: seq<nat>, app: App, configured: set<nat>, keeping: bool, special: Status) {
    forall i :: 0 <= i < |modes| ==> Passes(modes[i], app, configured, keeping, special)
  }

  /** The error for a mode that does not pass. A missing permission comes before a missing declaration. */
  predicate IsRefusal(status: Status, mode: nat, app: App, keeping: bool, special: Status) {
    if Permitted(mode, app, keeping, special) then status == InvalidMode
    else && (mode == 7 ==> status == NotSystemApp) && (mode == 9 ==> status == KeepingRefused)
         && (mode == 13 ==> status == special)
  }

  /** The i-th mode is the first that does not pass. */
  predicate FirstFails(modes: seq<nat>, i: nat, app: App, configured: set<nat>, keeping: bool, special: Status) {
    && i < |modes| && !Passes(modes[i], app, configured, keeping, special)
    && forall j :: 0 <= j < i ==> Passes(modes[j], app, configured, keeping, special)
  }

  /** The modes pass, or this is the error of the first that does not. */
  predicate IsJudged(status: Status, modes: seq<nat>, app: App, configured: set<nat>, keeping: bool, special: Status) {
    && (AllPass(modes, app, configured, keeping, special) <==> status == Ok)
    && forall i :: 0 <= i < |modes| && FirstFails(modes, i, app, configured, keeping, special) ==>
         IsRefusal(status, modes[i], app, keeping, special)
  }

  lemma CheckModeJudged(configured: set<nat>, mode: nat, r: Record, keeping: bool, special: Status)
    ensures var status := CheckMode(configured, mode, true, r, keeping, special);
            if Passes(mode, r.app, configured, keeping, special) then status == Ok
            else status != Ok && IsRefusal(status, mode, r.app, keeping, special)
  {
  }

  /** The mode check of the new interface: no mode is refused if and only if each is permitted and covered, and
      otherwise the first that is not determines the error. */
  lemma {:induction false} CheckModesJudged(configured: set<nat>, modes: seq<nat>, r: Record, keeping: bool,
                                            special: Status)
    ensures var status := CheckModes(configured, modes, true, r, keeping, special);
            IsJudged(status, modes, r.app, configured, keeping, special)
    ensures CheckModes(configured, modes, true, r, keeping, special) == Ok
       <==> AllPass(modes, r.app, configured, keeping, special)
  {
    if modes != [] {
      hide CheckMode, AllPass, IsJudged, Passes, IsRefusal;
      var status := CheckModes(configured, modes, true, r, keeping, special);
      CheckModeJudged(configured, modes[0], r, keeping, special);
      AllPassCons(modes, r.app, configured, keeping, special);
      if Passes(modes[0], r.app, configured, keeping, special) {
        CheckModesJudged(configured, modes[1..], r, keeping, special);
        LaterJudged(status, modes, r.app, configured, keeping, special);
      } else {
        FirstJudged(status, modes, r.app, configured, keeping, special);
      }
    }
  }

  lemma FirstJudged(status: Status, modes: seq<nat>, app: App, configured: set<nat>, keeping: bool, special: Status)
    requires modes != [] && !Passes(modes[0], app, configured, keeping, special)
    requires status != Ok && IsRefusal(status, modes[0], app, keeping, special)
    ensures IsJudged(status, modes, app, configured, keeping, special)
  {
    hide Passes, IsRefusal;
  }

  lemma LaterJudged(status: Status, modes: seq<nat>, app: App, configured: set<nat>, keeping: bool, special: Status)
    requires modes != [] && Passes(modes[0], app, configured, keeping, special)
    requires IsJudged(status, modes[1..], app, configured, keeping, special)
    ensures IsJudged(status, modes, app, configured, keeping, special)
  {
    hide Passes, IsRefusal, AllPass;
    AllPassCons(modes, app, configured, keeping, special);
    forall i | 0 <= i < |modes| && FirstFails(modes, i, app, configured, keeping, special)
      ensures IsRefusal(status, modes[i], app, keeping, special)
    {
      assert forall j :: 0 <= j < i ==> modes[1..][j] == modes[j + 1] || j == i - 1;
      assert FirstFails(modes[1..], i - 1, app, configured, keeping, special);
    }
  }

  lemma AllPassCons(modes: seq<nat>, app: App, configured: set<nat>, keeping: bool, special: Status)
    requires modes != []
    ensures AllPass(modes, app, configured, keeping, special)
       <==> Passes(modes[0], app, configured, keeping, special)
            && AllPass(modes[1..], app, configured, keeping, special)
  {
    hide Passes;
    assert forall i :: 0 <= i < |modes| - 1 ==> modes[1..][i] == modes[i + 1];
    assert forall i :: 0 < i < |modes| ==> modes[i] == modes[1..][i - 1];
  }

  /** The modes of a start pass: those of a system component are known, those of the old interface have some
      declaration, those of the new interface pass the check. */
  predicate ModesPass(r: Record, env: StartEnv) {
    if r.app.inner then 1 <= r.work.modeId <= 10
    else if r.app.newApi then AllPass(r.work.modes, r.app, env.configured, env.keeping, env.special)
    else r.work.modes != [] ==> env.configured != {}
  }

  lemma {:induction false} OldModes(configured: set<nat>, modes: seq<nat>, r: Record, keeping: bool, special: Status)
    ensures CheckModes(configured, modes, false, r, keeping, special)
         == if modes != [] && configured == {} then NoModeConfigured else Ok
  {
    if modes != [] {
      OldModes(configured, modes[1..], r, keeping, special);
    }
  }

  /** What the mode check of a start answers. */
  lemma StartModesJudged(r: Record, env: StartEnv)
    ensures CheckStartModes(r, env) == Ok <==> ModesPass(r, env)
    ensures !ModesPass(r, env) ==>
              if r.app.inner then CheckStartModes(r, env) == InvalidMode
              else if !r.app.newApi then CheckStartModes(r, env) == NoModeConfigured
              else IsJudged(CheckStartModes(r, env), r.work.modes, r.app, env.configured, env.keeping, env.special)
  {
    hide CheckModes, AllPass, IsJudged;
    CheckModesJudged(env.configured, r.work.modes, r, env.keeping, env.special);
    OldModes(env.configured, r.work.modes, r, env.keeping, env.special);
  }
}
