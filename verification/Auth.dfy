/** User authorization of special-scenario tasks: the record table, the pending callbacks and the file
    (bg_continuous_task_mgr.cpp, banner_notification_record.cpp, data_storage_helper.cpp). */
module Auth {
  import opened Wrappers
  import opened Json
  import L = Labels

  const NOT_SUPPORTED: int := 0
  const NOT_DETERMINED: int := 1
  const DENIED: int := 2
  const GRANTED_ONCE: int := 3
  const GRANTED_ALWAYS: int := 4
  const RESULT_END: int := 5

  const REQUEST_BY_BANNER: int := 22
  const REQUEST_BY_DIALOG: int := 26
  const BUTTON_ALLOW_TIME: int := 0
  const BUTTON_ALLOW_ALWAYS: int := 1

  datatype AuthRecord = AuthRecord(bundleName: string, uid: int, noteId: int, noteLabel: string, appName: string,
                                   result: int, userId: int, appIndex: int)

  type Records = map<string, AuthRecord>

  /** A callback object waiting under a key, and the number of its registration. */
  datatype Pending = Pending(remote: int, reg: nat)

  /** A registration ends when its callback is answered or dropped. A request may also be answered at
      once, without a registration. */
  datatype Event = Answered(reg: nat, remote: int,
                            result: int) | Dropped(reg: nat) | Immediate(remote: int, result: int)

  /** `floor` is the number of the first registration of the running process. */
  datatype State = State(records: Records, callbacks: map<string, Pending>, nextReg: nat, floor: nat, disk: Json,
                         log: seq<Event>)

  const INIT: State := State(map[], map[], 0, 0, Null, [])

  datatype Status = AuthOk | CallbackExists | NotDeployed | Triggered | BannerExistsOrAuthorized | BannerFailed

  datatype Reply = Reply(s: State, status: Status)

  function LabelOf(r: AuthRecord): string {
    L.BannerLabel(r.bundleName, r.userId, r.appIndex)
  }

  predicate Granted(result: int) {
    result == GRANTED_ONCE || result == GRANTED_ALWAYS
  }

  // ---------------------------------------------------------------- codec

  function ToJson(r: AuthRecord): Json {
    AuthObj(Some(Str(r.bundleName)), Some(Num(r.uid)), Some(Num(r.noteId)), Some(Str(r.noteLabel)),
            Some(Str(r.appName)),
            Some(Num(r.result)), Some(Num(r.userId)), Some(Num(r.appIndex)))
  }

  /** ParseFromJson: all members, each with its type. */
  function FromJson(j: Json): Option<AuthRecord> {
    if j.AuthObj? && IsStr(j.authBundle) && IsNum(j.authUid) && IsNum(j.authNoteId) && IsStr(j.authNoteLabel)
       && IsStr(j.authAppName) && IsNum(j.authResult) && IsNum(j.authUserId) && IsNum(j.authAppIndex)
    then Some(AuthRecord(j.authBundle.value.s, j.authUid.value.n, j.authNoteId.value.n, j.authNoteLabel.value.s,
                         j.authAppName.value.s, j.authResult.value.n, j.authUserId.value.n, j.authAppIndex.value.n))
    else None
  }

  lemma AuthRoundTrip(r: AuthRecord)
    ensures FromJson(ToJson(r)) == Some(r)
  {
  }

  /** RefreshAuthRecord. */
  function Write(records: Records): Json {
    if records == map[] then Null else Dict(map k | k in records :: ToJson(records[k]))
  }

  /** The entries of a file that can be read. */
  function Entries(file: Json): Records {
    if file.Dict? then map k | k in file.members && FromJson(file.members[k]).Some? :: FromJson(file.members[k]).value
    else map[]
  }

  lemma WrittenEntries(records: Records)
    ensures Entries(Write(records)) == records
  {
    hide ToJson, FromJson;
    forall k | k in records ensures FromJson(ToJson(records[k])) == Some(records[k]) {
      AuthRoundTrip(records[k]);
    }
  }

  /** A table without records is written as null. */
  lemma EmptyIsNull()
    ensures Write(map[]) == Null
  {
  }

  function Save(s: State): State {
    s.(disk := Write(s.records))
  }

  // ---------------------------------------------------------------- lookups

  predicate IsFor(r: AuthRecord, bundleName: string, userId: int, appIndex: int) {
    r.bundleName == bundleName && r.userId == userId && r.appIndex == appIndex
  }

  /** find_if over the records. */
  function Scan(records: Records, order: seq<string>, bundleName: string, userId: int, appIndex: int): Option<string> {
    if order == [] then None
    else if order[0] in records && IsFor(records[order[0]], bundleName, userId, appIndex) then Some(order[0])
    else Scan(records, order[1..], bundleName, userId, appIndex)
  }

  /** find_if over the pending callbacks. */
  function ScanRemote(callbacks: map<string, Pending>, order: seq<string>, remote: int): Option<string> {
    if order == [] then None
    else if order[0] in callbacks && callbacks[order[0]].remote == remote then Some(order[0])
    else ScanRemote(callbacks, order[1..], remote)
  }

  // ---------------------------------------------------------------- steps

  /** OnExpiredAuth for the callback under this key, which then leaves the table. */
  function Answer(s: State, key: string, result: int): State {
    if key !in s.callbacks then s
    else s.(callbacks := s.callbacks - {key},
            log := s.log + [Answered(s.callbacks[key].reg, s.callbacks[key].remote, result)])
  }

  function Drop(s: State, key: string): State {
    if key !in s.callbacks then s
    else s.(callbacks := s.callbacks - {key}, log := s.log + [Dropped(s.callbacks[key].reg)])
  }

  /** The end of RequestAuthFromUserInner: a callback that still waits under the key is overwritten, a
      record that is already there stays. */
  function Register(s: State, r: AuthRecord, remote: int): State {
    var key, d := LabelOf(r), Drop(s, LabelOf(r));
    Save(d.(callbacks := d.callbacks[key := Pending(remote, d.nextReg)], nextReg := d.nextReg + 1,
            records := if key in d.records then d.records else d.records[key := r]))
  }

  /** A request, with what the bundle manager and the notification service answer. */
  datatype Ask = Ask(bundleName: string, uid: int, userId: int, appIndex: int, apiVersion: int, remote: int,
                     appName: string, deployed: bool, composed: bool, published: Option<int>)

  function NewRecord(a: Ask): AuthRecord {
    if a.apiVersion == REQUEST_BY_DIALOG || a.published.None? then
      AuthRecord(a.bundleName, a.uid, -1, "", "", NOT_DETERMINED, a.userId, a.appIndex)
    else
      AuthRecord(a.bundleName, a.uid, a.published.value, L.BannerLabel(a.bundleName, a.userId, a.appIndex),
                 if a.apiVersion == REQUEST_BY_BANNER then a.appName else "", NOT_DETERMINED, a.userId, a.appIndex)
  }

  /** RequestAuthFromUserInner with CheckAuthParam. */
  function Request(s: State, a: Ask, order: seq<string>, pendingOrder: seq<string>): Reply {
    if ScanRemote(s.callbacks, pendingOrder, a.remote).Some? then Reply(s, CallbackExists)
    else
      var found := Scan(s.records, order, a.bundleName, a.userId, a.appIndex);
      if found.Some? && found.value in s.records then
        var result := s.records[found.value].result;
        if result == NOT_SUPPORTED then Reply(s, NotDeployed)
        else if Granted(result) || (a.apiVersion == REQUEST_BY_DIALOG && result == DENIED) then
          Reply(s.(log := s.log + [Immediate(a.remote, result)]), Triggered)
        else Reply(s, BannerExistsOrAuthorized)
      else if a.apiVersion == REQUEST_BY_BANNER && a.appName == "" then Reply(s, BannerFailed)
      else if a.apiVersion == REQUEST_BY_DIALOG then
        if a.deployed then Reply(Register(s, NewRecord(a), a.remote), AuthOk)
        else Reply(s.(log := s.log + [Immediate(a.remote, NOT_SUPPORTED)]), NotDeployed)
      else if !a.composed || a.published.None? then Reply(s, BannerFailed)
      else Reply(Register(s, NewRecord(a), a.remote), AuthOk)
  }

  function SetResult(s: State, key: string, result: int): State
    requires key in s.records
  {
    Save(s.(records := s.records[key := s.records[key].(result := result)]))
  }

  /** OnPermissionDialogButtonClickInner. */
  function DialogClick(s: State, result: int, bundleName: string, userId: int, appIndex: int): State {
    var key := L.BannerLabel(bundleName, userId, appIndex);
    if result < DENIED || result >= RESULT_END || key !in s.records then s
    else Answer(SetResult(s, key, result), key, result)
  }

  function ButtonResult(button: int): Option<int> {
    if button == BUTTON_ALLOW_TIME then Some(GRANTED_ONCE)
    else if button == BUTTON_ALLOW_ALWAYS then Some(GRANTED_ALWAYS) else None
  }

  /** OnBannerNotificationActionButtonClickInner: the callback is looked up under the label in the record. */
  function BannerClick(s: State, button: int, key: string): State {
    if key !in s.records || ButtonResult(button).None? then s
    else Answer(SetResult(s, key, ButtonResult(button).value), s.records[key].noteLabel, ButtonResult(button).value)
  }

  /** SetBackgroundTaskState. */
  function SetState(s: State, bundleName: string, userId: int, appIndex: int, result: int, order: seq<string>): State {
    if userId == -1 || appIndex == -1 || bundleName == "" || result >= RESULT_END || result < NOT_SUPPORTED then s
    else
      var found, key := Scan(s.records, order, bundleName, userId,
                             appIndex), L.BannerLabel(bundleName, userId, appIndex);
      if found.Some? && found.value in s.records then SetResult(s, found.value, result)
      else if key in s.records then Save(s)
      else Save(s.(records := s.records[key := AuthRecord(bundleName, 0, -1, "", "", result, userId, appIndex)]))
  }

  function Erase(s: State, key: string): State {
    if key in s.records then Save(s.(records := s.records - {key})) else s
  }

  /** RemoveAuthRecordInner. */
  function Remove(s: State, bundleName: string, userId: int, appIndex: int): State {
    var key := L.BannerLabel(bundleName, userId, appIndex);
    Drop(Erase(s, key), key)
  }

  /** HandleAuthExpiredCallbackDeathInner. */
  function Death(s: State, remote: int, pendingOrder: seq<string>): State {
    var found := ScanRemote(s.callbacks, pendingOrder, remote);
    if found.None? then s else Erase(Drop(s, found.value), found.value)
  }

  /** StopBannerContinuousTaskByUserInner: dismissing the banner withdraws a request that was not granted. */
  function Dismiss(s: State, key: string): State {
    if key in s.records && !Granted(s.records[key].result) then Erase(s, key) else s
  }

  datatype Sweep =
    | AppStopped(bundleName: string, appIndex: int)
    | BundleChanged(bundleName: string, userId: int, appIndex: int)

  predicate Swept(w: Sweep, r: AuthRecord) {
    match w
    case AppStopped(bundleName, appIndex) =>
      r.bundleName == bundleName && r.appIndex == appIndex && r.result == GRANTED_ONCE
    case BundleChanged(bundleName, userId, appIndex) => IsFor(r, bundleName, userId, appIndex)
  }

  /** The loops of OnAppStopped and OnBundleInfoChanged. */
  function SweepAll(s: State, w: Sweep, order: seq<string>): State {
    if order == [] then s
    else
      var before, k := SweepAll(s, w, order[..|order| - 1]), order[|order| - 1];
      if k in before.records && Swept(w, before.records[k]) then Erase(before, k) else before
  }

  /** The names of applications, by bundle and user, in the language of the moment. */
  type Names = map<(string, int), string>

  function Named(r: AuthRecord, names: Names): AuthRecord {
    r.(appName := if (r.bundleName, r.userId) in names then names[(r.bundleName, r.userId)] else "")
  }

  /** The banner part of OnBundleResourcesChangedInner: every record gets the name of its application, and the
      file is not written. */
  function Rename(s: State, names: Names): State {
    s.(records := map k | k in s.records :: Named(s.records[k], names))
  }

  // ---------------------------------------------------------------- restore

  predicate HasTriple(records: Records, r: AuthRecord) {
    exists k :: k in records && IsFor(records[k], r.bundleName, r.userId, r.appIndex)
  }

  /** One entry of the file: skipped when its triple is known, and without effect when its key is taken. */
  function Adopt(records: Records, name: string, r: AuthRecord): Records {
    if HasTriple(records, r) || name in records then records else records[name := r]
  }

  function AdoptAll(records: Records, entries: Records, names: seq<string>): Records {
    if names == [] then records
    else
      var before, name := AdoptAll(records, entries, names[..|names| - 1]), names[|names| - 1];
      if name in entries then Adopt(before, name, entries[name]) else before
  }

  /** RestoreAuthRecord: what is not a JSON object is refused. */
  function Restore(s: State, names: seq<string>): State {
    if !s.disk.Dict? then s else Save(s.(records := AdoptAll(s.records, Entries(s.disk), names)))
  }

  /** OnRestore: the file is replaced by a backup and read into the running table. */
  function RestoreBackup(s: State, file: Json, names: seq<string>): State {
    Restore(s.(disk := file), names)
  }

  /** A new process. Without a process list the authorization file is not read. */
  function Restart(s: State, names: seq<string>, readable: bool): State {
    var s0 := s.(records := map[], callbacks := map[], floor := s.nextReg);
    if readable then Save(Restore(s0, names)) else s0
  }

  // ---------------------------------------------------------------- runs

  datatype Step =
    | RequestStep(a: Ask, order: seq<string>, pendingOrder: seq<string>)
    | DialogClickStep(result: int, bundleName: string, userId: int, appIndex: int)
    | BannerClickStep(button: int, key: string)
    | SetStateStep(bundleName: string, userId: int, appIndex: int, result: int, order: seq<string>)
    | RemoveStep(bundleName: string, userId: int, appIndex: int)
    | DeathStep(remote: int, pendingOrder: seq<string>)
    | DismissStep(key: string)
    | SweepStep(w: Sweep, order: seq<string>)
    | RenameStep(names: Names)
    | RestoreStep(file: Json, entries: seq<string>)
    | RestartStep(entries: seq<string>, readable: bool)

  function Apply(s: State, step: Step): State {
    match step
    case RequestStep(a, order, pendingOrder) => Request(s, a, order, pendingOrder).s
    case DialogClickStep(result, bundleName, userId, appIndex) => DialogClick(s, result, bundleName, userId, appIndex)
    case BannerClickStep(button, key) => BannerClick(s, button, key)
    case SetStateStep(bundleName, userId, appIndex, result, order) =>
      SetState(s, bundleName, userId, appIndex, result, order)
    case RemoveStep(bundleName, userId, appIndex) => Remove(s, bundleName, userId, appIndex)
    case DeathStep(remote, pendingOrder) => Death(s, remote, pendingOrder)
    case DismissStep(key) => Dismiss(s, key)
    case SweepStep(w, order) => SweepAll(s, w, order)
    case RenameStep(names) => Rename(s, names)
    case RestoreStep(file, entries) => RestoreBackup(s, file, entries)
    case RestartStep(entries, readable) => Restart(s, entries, readable)
  }

  function Run(s: State, steps: seq<Step>): State {
    if steps == [] then s else Apply(Run(s, steps[..|steps| - 1]), steps[|steps| - 1])
  }
}
