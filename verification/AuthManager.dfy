/** The authorization part of the manager as the object it is: two maps and a file that its handlers
    update in place. Registrations are numbered by ghost fields. */
module AuthManager {
  import opened Wrappers
  import opened Json
  import opened Auth
  import L = Labels

  class AuthTable {
    var records: Records
    /** Label to callback object. */
    var callbacks: map<string, int>
    var disk: Json
    ghost var regs: map<string, nat>
    ghost var nextReg: nat
    ghost var floor: nat
    ghost var log: seq<Event>

    ghost predicate Valid()
      reads this
    {
      regs.Keys == callbacks.Keys
    }

    ghost function Waiting(): map<string, Pending>
      reads this
      requires Valid()
    {
      map k | k in callbacks :: Pending(callbacks[k], regs[k])
    }

    ghost function Abs(): State
      reads this
      requires Valid()
    {
      State(records, Waiting(), nextReg, floor, disk, log)
    }

    constructor ()
      ensures Valid() && Abs() == INIT
    {
      records, callbacks, disk := map[], map[], Null;
      regs, nextReg, floor, log := map[], 0, 0, [];
    }

    // -------------------------------------------------------------- lookups

    method FindRecord(order: seq<string>, bundleName: string, userId: int,
                      appIndex: int) returns (found: Option<string>)
      ensures found == Scan(records, order, bundleName, userId, appIndex)
    {
      var i := 0;
      while i < |order|
        invariant 0 <= i <= |order|
        invariant Scan(records, order, bundleName, userId, appIndex)
               == Scan(records, order[i..], bundleName, userId, appIndex)
      {
        assert order[i..][1..] == order[i + 1..];
        if order[i] in records && IsFor(records[order[i]], bundleName, userId, appIndex) {
          return Some(order[i]);
        }
        i := i + 1;
      }
      return None;
    }

    method FindCallback(order: seq<string>, remote: int) returns (found: Option<string>)
      requires Valid()
      ensures found == ScanRemote(Waiting(), order, remote)
    {
      var i := 0;
      while i < |order|
        invariant 0 <= i <= |order|
        invariant ScanRemote(Waiting(), order, remote) == ScanRemote(Waiting(), order[i..], remote)
      {
        assert order[i..][1..] == order[i + 1..];
        if order[i] in callbacks && callbacks[order[i]] == remote {
          return Some(order[i]);
        }
        i := i + 1;
      }
      return None;
    }

    method RefreshAuthRecord()
      modifies this`disk
      ensures disk == Write(records)
    {
      disk := Write(records);
    }

    // -------------------------------------------------------------- callbacks

    method TriggerCallback(key: string, result: int)
      requires Valid()
      modifies this`callbacks, this`regs, this`log
      ensures Valid() && Abs() == Answer(old(Abs()), key, result)
    {
      if key in callbacks {
        log := log + [Answered(regs[key], callbacks[key], result)];
        callbacks := callbacks - {key};
        regs := regs - {key};
        assert Waiting() == old(Waiting()) - {key};
      }
    }

    method ForgetCallback(key: string)
      requires Valid()
      modifies this`callbacks, this`regs, this`log
      ensures Valid() && Abs() == Drop(old(Abs()), key)
    {
      if key in callbacks {
        log := log + [Dropped(regs[key])];
        callbacks := callbacks - {key};
        regs := regs - {key};
        assert Waiting() == old(Waiting()) - {key};
      }
    }

    /** The callback waits under the key, as a new registration. */
    method AwaitCallback(key: string, remote: int)
      requires Valid()
      modifies this`callbacks, this`regs, this`nextReg
      ensures Valid()
      ensures Abs()
           == old(Abs()).(callbacks := old(Waiting())[key := Pending(remote, old(nextReg))],
                          nextReg := old(nextReg) + 1)
    {
      callbacks := callbacks[key := remote];
      regs := regs[key := nextReg];
      nextReg := nextReg + 1;
      assert Waiting() == old(Waiting())[key := Pending(remote, old(nextReg))];
    }

    // -------------------------------------------------------------- handlers

    /** RequestAuthFromUserInner. */
    method RequestAuthFromUser(a: Ask, order: seq<string>, pendingOrder: seq<string>) returns (status: Status)
      requires Valid()
      modifies this
      ensures Valid() && Reply(Abs(), status) == Request(old(Abs()), a, order, pendingOrder)
    {
      hide Scan, ScanRemote, Register, NewRecord;
      var waiting := FindCallback(pendingOrder, a.remote);
      if waiting.Some? {
        return CallbackExists;
      }
      var found := FindRecord(order, a.bundleName, a.userId, a.appIndex);
      if found.Some? && found.value in records {
        var result := records[found.value].result;
        if result == NOT_SUPPORTED {
          return NotDeployed;
        }
        if Granted(result) || (a.apiVersion == REQUEST_BY_DIALOG && result == DENIED) {
          log := log + [Immediate(a.remote, result)];
          return Triggered;
        }
        return BannerExistsOrAuthorized;
      }
      if a.apiVersion == REQUEST_BY_BANNER && a.appName == "" {
        return BannerFailed;
      }
      if a.apiVersion == REQUEST_BY_DIALOG {
        if !a.deployed {
          log := log + [Immediate(a.remote, NOT_SUPPORTED)];
          return NotDeployed;
        }
      } else if !a.composed || a.published.None? {
        return BannerFailed;
      }
      RegisterRequest(NewRecord(a), a.remote);
      return AuthOk;
    }

    /** Its end: the callback is stored under the label, over one that may still wait there. */
    method RegisterRequest(r: AuthRecord, remote: int)
      requires Valid()
      modifies this
      ensures Valid() && Abs() == Register(old(Abs()), r, remote)
    {
      hide LabelOf, Write, Drop;
      var key := LabelOf(r);
      ForgetCallback(key);
      ghost var d := Abs();
      AwaitCallback(key, remote);
      if key !in records {
        records := records[key := r];
      }
      RefreshAuthRecord();
      assert Abs() == Save(d.(callbacks := d.callbacks[key := Pending(remote, d.nextReg)], nextReg := d.nextReg + 1,
                              records := if key in d.records then d.records else d.records[key := r]));
    }

    /** OnPermissionDialogButtonClickInner. */
    method OnPermissionDialogButtonClick(result: int, bundleName: string, userId: int, appIndex: int)
      requires Valid()
      modifies this
      ensures Valid() && Abs() == DialogClick(old(Abs()), result, bundleName, userId, appIndex)
    {
      hide Write, L.BannerLabel;
      if result < DENIED || result >= RESULT_END {
        return;
      }
      var key := L.BannerLabel(bundleName, userId, appIndex);
      if key !in records {
        return;
      }
      records := records[key := records[key].(result := result)];
      RefreshAuthRecord();
      TriggerCallback(key, result);
    }

    /** OnBannerNotificationActionButtonClickInner. */
    method OnBannerNotificationActionButtonClick(button: int, key: string)
      requires Valid()
      modifies this
      ensures Valid() && Abs() == BannerClick(old(Abs()), button, key)
    {
      hide Write;
      if key !in records {
        return;
      }
      if button == BUTTON_ALLOW_TIME {
        records := records[key := records[key].(result := GRANTED_ONCE)];
      } else if button == BUTTON_ALLOW_ALWAYS {
        records := records[key := records[key].(result := GRANTED_ALWAYS)];
      } else {
        return;
      }
      RefreshAuthRecord();
      TriggerCallback(records[key].noteLabel, records[key].result);
    }

    /** SetBackgroundTaskState. */
    method SetBackgroundTaskState(bundleName: string, userId: int, appIndex: int, result: int, order: seq<string>)
      requires Valid()
      modifies this
      ensures Valid() && Abs() == SetState(old(Abs()), bundleName, userId, appIndex, result, order)
    {
      hide Scan, Write, L.BannerLabel;
      if userId == -1 || appIndex == -1 || bundleName == "" || result >= RESULT_END || result < NOT_SUPPORTED {
        return;
      }
      var found := FindRecord(order, bundleName, userId, appIndex);
      if found.Some? && found.value in records {
        records := records[found.value := records[found.value].(result := result)];
      } else {
        var key := L.BannerLabel(bundleName, userId, appIndex);
        if key !in records {
          records := records[key := AuthRecord(bundleName, 0, -1, "", "", result, userId, appIndex)];
        }
      }
      RefreshAuthRecord();
    }

    /** RemoveAuthRecordInner. */
    method RemoveAuthRecord(bundleName: string, userId: int, appIndex: int)
      requires Valid()
      modifies this
      ensures Valid() && Abs() == Remove(old(Abs()), bundleName, userId, appIndex)
    {
      hide Write, L.BannerLabel;
      var key := L.BannerLabel(bundleName, userId, appIndex);
      if key in records {
        records := records - {key};
        RefreshAuthRecord();
      }
      ForgetCallback(key);
    }

    /** HandleAuthExpiredCallbackDeathInner. */
    method HandleAuthExpiredCallbackDeath(remote: int, pendingOrder: seq<string>)
      requires Valid()
      modifies this
      ensures Valid() && Abs() == Death(old(Abs()), remote, pendingOrder)
    {
      hide ScanRemote, Write;
      var found := FindCallback(pendingOrder, remote);
      if found.None? {
        return;
      }
      ForgetCallback(found.value);
      if found.value in records {
        records := records - {found.value};
        RefreshAuthRecord();
      }
    }

    /** StopBannerContinuousTaskByUserInner. */
    method StopBannerContinuousTaskByUser(key: string)
      requires Valid()
      modifies this`records, this`disk
      ensures Valid() && Abs() == Dismiss(old(Abs()), key)
    {
      if key in records && !Granted(records[key].result) {
        records := records - {key};
        RefreshAuthRecord();
      }
    }

    /** The loops of OnAppStopped and OnBundleInfoChanged. */
    method RemoveMatching(w: Sweep, order: seq<string>)
      requires Valid()
      modifies this`records, this`disk
      ensures Valid() && Abs() == SweepAll(old(Abs()), w, order)
    {
      hide Write, Swept;
      var i := 0;
      while i < |order|
        invariant 0 <= i <= |order|
        invariant Valid() && Abs() == SweepAll(old(Abs()), w, order[..i])
      {
        assert order[..i + 1][..i] == order[..i];
        if order[i] in records && Swept(w, records[order[i]]) {
          records := records - {order[i]};
          RefreshAuthRecord();
        }
        i := i + 1;
      }
      assert order[..|order|] == order;
    }

    /** The banner part of OnBundleResourcesChangedInner. */
    method OnBundleResourcesChanged(names: Names, order: seq<string>)
      requires Valid() && forall k :: k in records ==> k in order
      modifies this`records
      ensures Valid() && Abs() == Rename(old(Abs()), names)
    {
      hide Named;
      NamedTwice();
      var i := 0;
      while i < |order|
        invariant 0 <= i <= |order| && records.Keys == old(records).Keys
        invariant forall k :: k in records ==>
                    records[k] == if k in order[..i] then Named(old(records)[k], names) else old(records)[k]
      {
        assert order[..i + 1] == order[..i] + [order[i]];
        if order[i] in records {
          records := records[order[i] := Named(records[order[i]], names)];
        }
        i := i + 1;
      }
      assert order[..|order|] == order;
      assert records == map k | k in old(records) :: Named(old(records)[k], names);
    }

    /** RestoreAuthRecord: entries that do not parse, and entries whose triple is known, are skipped. */
    method RestoreAuthRecord(names: seq<string>)
      requires Valid()
      modifies this`records, this`disk
      ensures Valid() && Abs() == Restore(old(Abs()), names)
    {
      hide Write, FromJson, HasTriple;
      if !disk.Dict? {
        return;
      }
      var i := 0;
      while i < |names|
        invariant 0 <= i <= |names|
        invariant records == AdoptAll(old(records), Entries(disk), names[..i]) && disk == old(disk)
      {
        assert names[..i + 1][..i] == names[..i];
        var parsed := if names[i] in disk.members then FromJson(disk.members[names[i]]) else None;
        if parsed.Some? && !HasTriple(records, parsed.value) && names[i] !in records {
          records := records[names[i] := parsed.value];
        }
        i := i + 1;
      }
      assert names[..|names|] == names;
      RefreshAuthRecord();
    }

    /** OnRestore: a backup takes the place of the file. */
    method OnRestore(file: Json, names: seq<string>)
      requires Valid()
      modifies this`records, this`disk
      ensures Valid() && Abs() == RestoreBackup(old(Abs()), file, names)
    {
      hide Restore;
      disk := file;
      RestoreAuthRecord(names);
    }

    /** The authorization part of HandlePersistenceData, in a new process. */
    method HandlePersistenceData(names: seq<string>, readable: bool)
      requires Valid()
      modifies this
      ensures Valid() && Abs() == Restart(old(Abs()), names, readable)
    {
      hide Restore, Write;
      records, callbacks := map[], map[];
      regs, floor := map[], nextReg;
      assert Waiting() == map[];
      if readable {
        RestoreAuthRecord(names);
        RefreshAuthRecord();
      }
    }
  }

  lemma NamedTwice()
    ensures forall r, names :: Named(Named(r, names), names) == Named(r, names)
  {
  }
}
