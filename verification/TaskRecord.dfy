/** A continuous task's record, and how it is written to and read from the task file
    (continuous_task_record.cpp, data_storage_helper.cpp). */
module TaskRecord {
  import opened Wrappers
  import opened Decimal
  import opened Json
  import L = Labels

  datatype WantAgentInfo = WantAgentInfo(bundleName: string, abilityName: string)

  datatype ProgressInfo = ProgressInfo(title: string, fileName: string, value: int, mute: bool)

  /** Who the task belongs to: fixed once the task has started. */
  datatype App = App(
    bundleName: string, abilityName: string, userId: int, uid: int, pid: int, abilityId: int, appIndex: int,
    taskId: int, newApi: bool, inner: bool, innerNotify: bool, fromComponent: bool, system: bool,
    byRequest: bool, combined: bool)

  /** What it does in the background. */
  datatype Work = Work(
    modeId: nat, batchApi: bool, modes: seq<nat>, subModes: seq<nat>, mergeTaskId: int,
    want: Option<WantAgentInfo>, progress: Option<ProgressInfo>)

  /** Its main notification and the additional one. */
  datatype Notice = Notice(text: string, id: int, subText: string, subId: int)

  /** Where it stands. The fields after `audioPlaying` are held in memory only. */
  datatype Phase = Phase(
    suspended: bool, suspendReason: int, standby: bool, standbySuspended: bool, cancelDetail: int, audioPlaying: bool,
    reason: int, audioSuspends: int, audioDetected: bool)

  datatype Record = Record(app: App, work: Work, notice: Notice, phase: Phase)

  /** Field initialisers of the class. */
  const BLANK: Record := Record(
    App("", "", 0, 0, 0, -1, -1, -1, false, false, false, false, false, false, false),
    Work(0, false, [], [], -1, None, None),
    Notice("", -1, "", -1),
    Phase(false, 0, false, false, 0, true, 0, 0, true))

  function KeyOf(r: Record): string {
    L.TaskKey(r.app.uid, r.app.abilityName, r.app.abilityId, r.app.byRequest, r.app.taskId)
  }

  // ---------------------------------------------------------------- mode lists

  const COMMA: char := ','

  /** ToString: every mode in decimal, each followed by a comma. */
  function ModesText(modes: seq<nat>): string {
    if modes == [] then "" else ToString(modes[0]) + [COMMA] + ModesText(modes[1..])
  }

  /** The pieces OHOS::SplitStr yields for a comma: empty ones are dropped. */
  function Pieces(s: string): seq<string>
    decreases |s|
  {
    if s == "" then [] else
      var i := L.IndexOf(s, COMMA);
      (if i == 0 then [] else [s[..i]]) + (if i == |s| then [] else Pieces(s[i + 1..]))
  }

  /** The conversion of an `int` to `uint32_t`. */
  function AsUint32(n: int): nat {
    n % 0x1_0000_0000
  }

  function ReadModes(pieces: seq<string>): seq<nat> {
    if pieces == [] then [] else [AsUint32(Atoi(pieces[0]))] + ReadModes(pieces[1..])
  }

  /** ToVector. */
  function ParseModes(s: string): seq<nat> {
    ReadModes(Pieces(s))
  }

  method ToText(modes: seq<nat>) returns (result: string)
    ensures result == ModesText(modes)
  {
    hide ToString;
    result := "";
    var i := 0;
    while i < |modes|
      invariant 0 <= i <= |modes|
      invariant result + ModesText(modes[i..]) == ModesText(modes)
    {
      result := result + ToString(modes[i]);
      result := result + [COMMA];
      assert modes[i..][1..] == modes[i + 1..];
      i := i + 1;
    }
  }

  method ToVector(str: string) returns (modes: seq<nat>)
    ensures modes == ParseModes(str)
  {
    modes := [];
    var tokens := Pieces(str);
    var i := 0;
    while i < |tokens|
      invariant 0 <= i <= |tokens|
      invariant modes + ReadModes(tokens[i..]) == ReadModes(tokens)
    {
      modes := modes + [AsUint32(Atoi(tokens[i]))];
      assert tokens[i..][1..] == tokens[i + 1..];
      i := i + 1;
    }
  }

  predicate Small(modes: seq<nat>) {
    forall i :: 0 <= i < |modes| ==> modes[i] <= INT32_MAX
  }

  lemma PiecesCons(t: string, rest: string)
    requires t != "" && COMMA !in t
    ensures Pieces(t + [COMMA] + rest) == [t] + Pieces(rest)
  {
    var s := t + [COMMA] + rest;
    assert s[..|t|] == t && s[|t| + 1..] == rest;
    L.IndexOfIs(s, |t|, COMMA);
  }

  function Printed(modes: seq<nat>): seq<string> {
    if modes == [] then [] else [ToString(modes[0])] + Printed(modes[1..])
  }

  lemma {:induction false} PiecesOfText(modes: seq<nat>)
    ensures Pieces(ModesText(modes)) == Printed(modes)
  {
    if modes != [] {
      PiecesOfText(modes[1..]);
      PiecesCons(ToString(modes[0]), ModesText(modes[1..]));
    }
  }

  lemma ReadOne(mode: nat, rest: seq<string>)
    requires mode <= INT32_MAX
    ensures ReadModes([ToString(mode)] + rest) == [mode] + ReadModes(rest)
  {
    hide ToString, Atoi;
    AtoiOfToString(mode);
    var p := [ToString(mode)] + rest;
    assert p[1..] == rest && p[0] == ToString(mode);
    assert AsUint32(mode) == mode;
  }

  lemma {:induction false} ReadPrinted(modes: seq<nat>)
    requires Small(modes)
    ensures ReadModes(Printed(modes)) == modes
  {
    if modes != [] {
      ReadPrinted(modes[1..]);
      ReadOne(modes[0], Printed(modes[1..]));
      assert modes == [modes[0]] + modes[1..];
    }
  }

  /** Any list of modes below 2^31, the empty one included, survives being written and read. */
  lemma ModesRoundTrip(modes: seq<nat>)
    requires Small(modes)
    ensures ParseModes(ModesText(modes)) == modes
  {
    PiecesOfText(modes);
    ReadPrinted(modes);
  }

  // ---------------------------------------------------------------- records

  function Text(s: string): Slot {
    Some(Str(s))
  }

  function Number(n: int): Slot {
    Some(Num(n))
  }

  function Flag(b: bool): Slot {
    Some(Bool(b))
  }

  /** ParseToJsonStr: absent optional parts leave no member behind. */
  function ToJson(r: Record): Json {
    TaskObj(Text(r.app.bundleName), Text(r.app.abilityName), Number(r.app.userId), Number(r.app.uid), Number(r.app.pid),
            Number(r.work.modeId), Flag(r.app.newApi), Flag(r.app.inner), Flag(r.app.innerNotify), Text(r.notice.text),
            Number(r.notice.id), Flag(r.work.batchApi), Text(ModesText(r.work.modes)), Text(ModesText(r.work.subModes)),
            Flag(r.app.system),
            if r.work.want.Some? then
              var w := r.work.want.value;
              Some(WantObj(Text(w.bundleName), Text(w.abilityName)))
            else None,
            Number(r.app.taskId), Number(r.app.abilityId), Flag(r.phase.suspended), Number(r.phase.suspendReason),
            Flag(r.app.combined), Number(r.work.mergeTaskId), Flag(r.app.byRequest), Text(r.notice.subText),
            Number(r.notice.subId), Number(r.app.appIndex), Number(r.phase.cancelDetail), Flag(r.phase.standby),
            Flag(r.phase.audioPlaying), Flag(r.phase.standbySuspended),
            if r.work.progress.Some? then
              var p := r.work.progress.value;
              Some(ProgressObj(Text(p.title), Text(p.fileName), Number(p.value), Flag(p.mute)))
            else None,
            Flag(r.app.fromComponent))
  }

  /** CheckJsonValue and CheckContinuousRecod: the members that must be there, with their types. */
  predicate WellTyped(j: Json) {
    && j.TaskObj?
    && IsStr(j.bundleName) && IsStr(j.abilityName) && IsNum(j.userId) && IsNum(j.uid) && IsNum(j.pid)
    && IsNum(j.bgModeId) && IsBool(j.isNewApi) && IsBool(j.isFromWebview) && IsBool(j.needNotification)
    && IsStr(j.notificationLabel) && IsBool(j.isSystem) && IsNum(j.continuousTaskId) && IsNum(j.abilityId)
    && IsBool(j.suspendState) && IsNum(j.suspendReason) && IsBool(j.isCombined) && IsNum(j.combinedTaskId)
    && IsBool(j.isByRequestObject) && IsStr(j.subNotificationLabel) && IsNum(j.subNotificationId)
    && IsNum(j.appIndex) && IsNum(j.detailedCancelReason) && IsBool(j.audioPlayState) && IsBool(j.isStandby)
    && IsBool(j.isStandbySuspend) && IsBool(j.isFromComponent)
  }

  function ReadProgress(v: Slot): Option<ProgressInfo> {
    if v.Some? && v.value.ProgressObj? && IsStr(v.value.title) && IsStr(v.value.fileName) then
      var p := v.value;
      Some(ProgressInfo(p.title.value.s, p.fileName.value.s,
                        if IsNum(p.progressValue) then p.progressValue.value.n else 0,
                        if IsBool(p.isMute) then p.isMute.value.b else false))
    else None
  }

  function ReadWant(j: Json): Option<WantAgentInfo> {
    if j.WantObj? && IsStr(j.wantBundle) && IsStr(j.wantAbility)
    then Some(WantAgentInfo(j.wantBundle.value.s, j.wantAbility.value.s))
    else None
  }

  /** SetRecordValue and the optional parts of ParseFromJson, on a record that has its initial values. */
  function ReadFields(j: Json): Record
    requires WellTyped(j)
  {
    Record(
      App(j.bundleName.value.s, j.abilityName.value.s, j.userId.value.n, j.uid.value.n, j.pid.value.n,
          j.abilityId.value.n, j.appIndex.value.n, j.continuousTaskId.value.n, j.isNewApi.value.b,
          j.isFromWebview.value.b, j.needNotification.value.b, j.isFromComponent.value.b, j.isSystem.value.b,
          j.isByRequestObject.value.b, j.isCombined.value.b),
      Work(AsUint32(j.bgModeId.value.n), if IsBool(j.isBatchApi) then j.isBatchApi.value.b else BLANK.work.batchApi,
           if IsStr(j.bgModeIds) then ParseModes(j.bgModeIds.value.s) else BLANK.work.modes,
           if IsStr(j.bgSubModeIds) then ParseModes(j.bgSubModeIds.value.s) else BLANK.work.subModes,
           j.combinedTaskId.value.n, if j.wantAgentInfo.Some? then ReadWant(j.wantAgentInfo.value) else None,
           ReadProgress(j.progressInfo)),
      Notice(j.notificationLabel.value.s, if IsNum(j.notificationId) then j.notificationId.value.n else BLANK.notice.id,
             j.subNotificationLabel.value.s, j.subNotificationId.value.n),
      Phase(j.suspendState.value.b, j.suspendReason.value.n, j.isStandby.value.b, j.isStandbySuspend.value.b,
            j.detailedCancelReason.value.n, j.audioPlayState.value.b,
            BLANK.phase.reason, BLANK.phase.audioSuspends, BLANK.phase.audioDetected))
  }

  /** ParseFromJson: a malformed want-agent part rejects the record, a malformed progress part does not. */
  function FromJson(j: Json): Option<Record> {
    if !WellTyped(j) || (j.wantAgentInfo.Some? && ReadWant(j.wantAgentInfo.value).None?) then None
    else Some(ReadFields(j))
  }

  /** The part of the phase that is written. */
  function RestoredPhase(p: Phase): Phase {
    p.(reason := BLANK.phase.reason, audioSuspends := BLANK.phase.audioSuspends,
       audioDetected := BLANK.phase.audioDetected)
  }

  /** What is left of a record after a restart: the fields held in memory only are lost. */
  function Restored(r: Record): Record {
    r.(work := r.work.(modeId := AsUint32(r.work.modeId), modes := ParseModes(ModesText(r.work.modes)),
                       subModes := ParseModes(ModesText(r.work.subModes))),
       phase := RestoredPhase(r.phase))
  }

  /** Every record that is written can be read again. */
  lemma ReadBack(r: Record)
    ensures FromJson(ToJson(r)) == Some(Restored(r))
  {
    hide ParseModes, ModesText;
    var j := ToJson(r);
    var back := ReadFields(j);
    assert back.app == r.app && back.notice == r.notice;
    assert back.work == Restored(r).work;
  }

  /** Task record round trip: every persisted field comes back, whatever optional parts are present. */
  lemma RecordRoundTrip(r: Record)
    requires Small(r.work.modes) && Small(r.work.subModes) && r.work.modeId < 0x1_0000_0000
    ensures FromJson(ToJson(r)) == Some(r.(phase := r.phase.(reason := 0, audioSuspends := 0, audioDetected := true)))
  {
    hide ParseModes, ModesText, FromJson, ToJson;
    ReadBack(r);
    ModesRoundTrip(r.work.modes);
    ModesRoundTrip(r.work.subModes);
    assert AsUint32(r.work.modeId) == r.work.modeId;
  }

  /** Each member of the written object holds what its name says. */
  lemma MembersHold(r: Record)
    ensures var j := ToJson(r);
            && j.bundleName == Text(r.app.bundleName) && j.abilityName == Text(r.app.abilityName)
            && j.userId == Number(r.app.userId) && j.uid == Number(r.app.uid) && j.pid == Number(r.app.pid)
            && j.abilityId == Number(r.app.abilityId) && j.appIndex == Number(r.app.appIndex)
            && j.continuousTaskId == Number(r.app.taskId) && j.isNewApi == Flag(r.app.newApi)
            && j.isFromWebview == Flag(r.app.inner) && j.needNotification == Flag(r.app.innerNotify)
            && j.isFromComponent == Flag(r.app.fromComponent) && j.isSystem == Flag(r.app.system)
            && j.isByRequestObject == Flag(r.app.byRequest) && j.isCombined == Flag(r.app.combined)
    ensures var j := ToJson(r);
            && j.bgModeId == Number(r.work.modeId) && j.isBatchApi == Flag(r.work.batchApi)
            && j.bgModeIds == Text(ModesText(r.work.modes)) && j.bgSubModeIds == Text(ModesText(r.work.subModes))
            && j.combinedTaskId == Number(r.work.mergeTaskId) && (j.wantAgentInfo.Some? <==> r.work.want.Some?)
            && (j.progressInfo.Some? <==> r.work.progress.Some?)
            && j.notificationLabel == Text(r.notice.text) && j.notificationId == Number(r.notice.id)
            && j.subNotificationLabel == Text(r.notice.subText) && j.subNotificationId == Number(r.notice.subId)
            && j.suspendState == Flag(r.phase.suspended) && j.suspendReason == Number(r.phase.suspendReason)
            && j.isStandby == Flag(r.phase.standby) && j.isStandbySuspend == Flag(r.phase.standbySuspended)
            && j.detailedCancelReason == Number(r.phase.cancelDetail) && j.audioPlayState == Flag(r.phase.audioPlaying)
  {
  }

  // ---------------------------------------------------------------- the table file

  /** RefreshTaskRecord: a JSON root that never received a member is null. */
  function WriteTable(tasks: map<string, Record>): Json {
    if tasks == map[] then Null else Dict(map k | k in tasks :: ToJson(tasks[k]))
  }

  lemma EmptyIsNull()
    ensures WriteTable(map[]) == Null
  {
  }

  /** RestoreTaskRecord into an empty table: entries that do not parse are skipped. */
  function ReadTable(file: Json): map<string, Record> {
    if file.Dict? then map k | k in file.members && FromJson(file.members[k]).Some? :: FromJson(file.members[k]).value
    else map[]
  }

  /** The table read after a write has the same keys, each with its restored record. */
  lemma TableRoundTrip(tasks: map<string, Record>)
    ensures ReadTable(WriteTable(tasks)) == map k | k in tasks :: Restored(tasks[k])
  {
    hide ToJson, FromJson, Restored;
    forall k | k in tasks
      ensures FromJson(ToJson(tasks[k])) == Some(Restored(tasks[k]))
    {
      ReadBack(tasks[k]);
    }
  }
}
