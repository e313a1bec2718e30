/** What the authorization handlers answer and store, in the fields of records, requests and callbacks. Results are
    written as the numbers of the interface: 0 not supported, 1 not determined, 2 denied, 3 granted once, 4 granted
    always. */
module AuthOutcomes {
  import opened Wrappers
  import opened Json
  import opened Auth
  import opened AuthProofs
  import L = Labels

  /** The same record with another result. */
  function WithResult(r: AuthRecord, result: int): AuthRecord {
    AuthRecord(r.bundleName, r.uid, r.noteId, r.noteLabel, r.appName, result, r.userId, r.appIndex)
  }

  /** The record under `key` has this result and is otherwise unchanged, the file is written, and the callback that
      waits under `waiting`, if any, is answered once with the result and waits no longer. */
  ghost predicate IsDecided(s: State, s': State, key: string, waiting: string, result: int) {
    && key in s.records && s'.records == s.records[key := WithResult(s.records[key], result)]
    && s'.disk == Write(s'.records) && s'.nextReg == s.nextReg && s'.floor == s.floor
    && if waiting in s.callbacks then
         var p := s.callbacks[waiting];
         s'.callbacks == s.callbacks - {waiting} && s'.log == s.log + [Answered(p.reg, p.remote, result)]
       else s'.callbacks == s.callbacks && s'.log == s.log
  }

  /** The banner's first button grants once, its second always; no other button does anything. */
  lemma BannerClickOutcome(s: State, button: int, key: string)
    ensures var s' := BannerClick(s, button, key);
            if key in s.records && button == 0 then IsDecided(s, s', key, s.records[key].noteLabel, 3)
            else if key in s.records && button == 1 then IsDecided(s, s', key, s.records[key].noteLabel, 4)
            else s' == s
  {
    hide Write;
  }

  /** The dialog decides with its own result: denied, granted once or granted always. */
  lemma DialogClickOutcome(s: State, result: int, bundleName: string, userId: int, appIndex: int)
    ensures var key, s' := L.BannerLabel(bundleName, userId, appIndex),
                           DialogClick(s, result, bundleName, userId, appIndex);
            if key in s.records && (result == 2 || result == 3 || result == 4) then IsDecided(s, s', key, key, result)
            else s' == s
  {
    hide Write, L.BannerLabel;
  }

  // ---------------------------------------------------------------- requests

  /** The callback object already waits. */
  ghost predicate AlreadyWaits(s: State, remote: int) {
    exists k :: k in s.callbacks && s.callbacks[k].remote == remote
  }

  /** What a request for an application with a record is answered: granted, and for the dialog denied, at once. */
  ghost predicate IsKnown(s: State, reply: Reply, a: Ask, result: int) {
    if result == 0 then reply == Reply(s, NotDeployed)
    else if result == 3 || result == 4 || (a.apiVersion == 26 && result == 2) then
      reply == Reply(s.(log := s.log + [Immediate(a.remote, result)]), Triggered)
    else reply == Reply(s, BannerExistsOrAuthorized)
  }

  /** A new record, not determined, and the callback waiting under its label; what waited there is dropped. */
  ghost predicate IsRegistered(s: State, s': State, a: Ask) {
    var key := L.BannerLabel(a.bundleName, a.userId, a.appIndex);
    && s'.nextReg == s.nextReg + 1 && s'.floor == s.floor && s'.disk == Write(s'.records)
    && s'.callbacks == s.callbacks[key := Pending(a.remote, s.nextReg)]
    && s'.log == s.log + (if key in s.callbacks then [Dropped(s.callbacks[key].reg)] else [])
    && key in s'.records && s'.records - {key} == s.records - {key}
    && var r := s'.records[key];
       && r.bundleName == a.bundleName && r.uid == a.uid && r.userId == a.userId && r.appIndex == a.appIndex
       && r.result == 1
       && if a.apiVersion == 26 then r.noteId == -1 && r.noteLabel == "" && r.appName == ""
          else && a.published.Some? && r.noteId == a.published.value && r.noteLabel == key
               && r.appName == if a.apiVersion == 22 then a.appName else ""
  }

  /** What a request for an application without a record is answered. */
  ghost predicate IsNew(s: State, reply: Reply, a: Ask) {
    if a.apiVersion == 26 then
      if a.deployed then reply.status == AuthOk && IsRegistered(s, reply.s, a)
      else reply == Reply(s.(log := s.log + [Immediate(a.remote, 0)]), NotDeployed)
    else if (a.apiVersion == 22 && a.appName == "") || !a.composed || a.published.None? then
      reply == Reply(s, BannerFailed)
    else reply.status == AuthOk && IsRegistered(s, reply.s, a)
  }

  lemma RegisterIs(s: State, a: Ask)
    requires L.BannerLabel(a.bundleName, a.userId, a.appIndex) !in s.records
    requires a.apiVersion == 26 || a.published.Some?
    ensures IsRegistered(s, Register(s, NewRecord(a), a.remote), a)
  {
    hide Write, L.BannerLabel;
    var key := L.BannerLabel(a.bundleName, a.userId, a.appIndex);
    assert LabelOf(NewRecord(a)) == key;
    if key in s.callbacks {
      assert (s.callbacks - {key})[key := Pending(a.remote, s.nextReg)]
             == s.callbacks[key := Pending(a.remote, s.nextReg)];
    }
    assert s.log + [] == s.log;
  }

  /** The whole answer of a request, over a table whose records sit under their own labels. */
  lemma RequestOutcome(s: State, a: Ask, order: seq<string>, pendingOrder: seq<string>)
    requires Indexed(s.records) && Covers(order, s.records) && Covers(pendingOrder, s.callbacks)
    ensures var key, reply := L.BannerLabel(a.bundleName, a.userId, a.appIndex), Request(s, a, order, pendingOrder);
            if AlreadyWaits(s, a.remote) then reply == Reply(s, CallbackExists)
            else if key in s.records then IsKnown(s, reply, a, s.records[key].result)
            else IsNew(s, reply, a)
  {
    hide Scan, ScanRemote, L.BannerLabel, Register, IsRegistered, NewRecord;
    var key := L.BannerLabel(a.bundleName, a.userId, a.appIndex);
    ScanIsKey(s.records, order, a.bundleName, a.userId, a.appIndex);
    ScanRemoteFinds(s.callbacks, pendingOrder, a.remote);
    if key !in s.records && (a.apiVersion == 26 || a.published.Some?) {
      RegisterIs(s, a);
    }
  }

  // ---------------------------------------------------------------- settings, removals, deaths

  /** The system setting: an invalid one changes nothing, a known application gets the result, an unknown one a record
      without a banner. */
  lemma SetStateOutcome(s: State, bundleName: string, userId: int, appIndex: int, result: int, order: seq<string>)
    requires Indexed(s.records) && Covers(order, s.records)
    ensures var key, s' := L.BannerLabel(bundleName, userId, appIndex),
                           SetState(s, bundleName, userId, appIndex, result, order);
            if userId == -1 || appIndex == -1 || bundleName == "" || result < 0 || result > 4 then s' == s
            else
              && s'.callbacks == s.callbacks && s'.log == s.log && s'.disk == Write(s'.records)
              && s'.records == s.records[key := if key in s.records then WithResult(s.records[key], result)
                                                else AuthRecord(bundleName, 0, -1, "", "", result, userId, appIndex)]
  {
    hide Scan, Write, L.BannerLabel;
    ScanIsKey(s.records, order, bundleName, userId, appIndex);
  }

  /** Nothing is left under the key, the file is written if there was a record, and a waiting callback is dropped. */
  ghost predicate IsForgotten(s: State, s': State, key: string) {
    && s'.records == s.records - {key} && s'.callbacks == s.callbacks - {key}
    && s'.disk == (if key in s.records then Write(s'.records) else s.disk)
    && s'.log == s.log + if key in s.callbacks then [Dropped(s.callbacks[key].reg)] else []
  }

  lemma RemoveOutcome(s: State, bundleName: string, userId: int, appIndex: int)
    ensures IsForgotten(s, Remove(s, bundleName, userId, appIndex), L.BannerLabel(bundleName, userId, appIndex))
  {
    hide Write, L.BannerLabel;
    var key := L.BannerLabel(bundleName, userId, appIndex);
    assert key !in s.records ==> s.records - {key} == s.records;
    assert key !in s.callbacks ==> s.callbacks - {key} == s.callbacks;
    assert s.log + [] == s.log;
  }

  /** The death of a waiting callback object takes the callback and the record under the same key. */
  lemma DeathOutcome(s: State, remote: int, pendingOrder: seq<string>, key: string)
    requires Apart(s.callbacks) && Covers(pendingOrder, s.callbacks)
    requires key in s.callbacks && s.callbacks[key].remote == remote
    ensures IsForgotten(s, Death(s, remote, pendingOrder), key)
  {
    hide Write, ScanRemote;
    ScanRemoteFinds(s.callbacks, pendingOrder, remote);
    assert key !in s.records ==> s.records - {key} == s.records;
  }

  lemma DeathUnheard(s: State, remote: int, pendingOrder: seq<string>)
    requires !AlreadyWaits(s, remote)
    ensures Death(s, remote, pendingOrder) == s
  {
    hide ScanRemote;
    ScanRemoteFinds(s.callbacks, pendingOrder, remote);
  }

  /** Dismissing a banner withdraws a request unless it has been granted. */
  lemma DismissOutcome(s: State, key: string)
    ensures var s' := Dismiss(s, key);
            if key in s.records && s.records[key].result != 3 && s.records[key].result != 4 then
              s' == s.(records := s.records - {key}, disk := Write(s.records - {key}))
            else s' == s
  {
    hide Write;
  }

  // ---------------------------------------------------------------- sweeps

  /** Records that the event ends: when an application stops, those granted once to it; when a bundle changes, its
      own. */
  predicate IsEnded(w: Sweep, r: AuthRecord) {
    match w
    case AppStopped(bundleName, appIndex) => r.bundleName == bundleName && r.appIndex == appIndex && r.result == 3
    case BundleChanged(bundleName, userId, appIndex) =>
      r.bundleName == bundleName && r.userId == userId && r.appIndex == appIndex
  }

  lemma {:induction false} SweepTable(s: State, w: Sweep, order: seq<string>)
    ensures var s' := SweepAll(s, w, order);
            && s'.callbacks == s.callbacks && s'.log == s.log
            && (forall k :: k in s'.records <==> k in s.records && !(k in order && IsEnded(w, s.records[k])))
            && (forall k :: k in s'.records ==> s'.records[k] == s.records[k])
            && s'.disk == if s'.records == s.records then s.disk else Write(s'.records)
  {
    hide Write;
    if order != [] {
      var n := |order| - 1;
      SweepTable(s, w, order[..n]);
      assert order == order[..n] + [order[n]];
      var before, k := SweepAll(s, w, order[..n]), order[n];
      if k in before.records && IsEnded(w, before.records[k]) {
        assert k in s.records;
        assert SweepAll(s, w, order).records == before.records - {k};
      }
    }
  }

  /** The loops end exactly the records they should, in any order, and write when they have ended one. */
  lemma SweepOutcome(s: State, w: Sweep, order: seq<string>, k: string)
    requires Covers(order, s.records)
    ensures var s' := SweepAll(s, w, order);
            && (k in s'.records <==> k in s.records && !IsEnded(w, s.records[k]))
            && (k in s'.records ==> s'.records[k] == s.records[k])
            && s'.callbacks == s.callbacks && s'.log == s.log
            && s'.disk == if s'.records == s.records then s.disk else Write(s'.records)
  {
    hide SweepAll, IsEnded, Write;
    SweepTable(s, w, order);
  }

  /** "Allow this time" ends with the application, "always allow" does not. */
  lemma GrantUntilStopped(s: State, key: string, order: seq<string>)
    requires key in s.records && Covers(order, s.records)
    ensures var r := s.records[key];
            var stopped := AppStopped(r.bundleName, r.appIndex);
            && key !in SweepAll(BannerClick(s, 0, key), stopped, order).records
            && key in SweepAll(BannerClick(s, 1, key), stopped, order).records
            && SweepAll(BannerClick(s, 1, key), stopped, order).records[key] == WithResult(r, 4)
  {
    hide BannerClick, SweepAll, Write;
    var stopped := AppStopped(s.records[key].bundleName, s.records[key].appIndex);
    BannerClickOutcome(s, 0, key);
    BannerClickOutcome(s, 1, key);
    SweepOutcome(BannerClick(s, 0, key), stopped, order, key);
    SweepOutcome(BannerClick(s, 1, key), stopped, order, key);
  }

  /** A change of language gives every record its application's name, or none, and touches nothing else. */
  lemma RenameOutcome(s: State, names: Names, k: string)
    ensures var s' := Rename(s, names);
            && s'.disk == s.disk && s'.callbacks == s.callbacks && s'.log == s.log
            && (k in s'.records <==> k in s.records)
            && (k in s.records ==>
                  var r, r' := s.records[k], s'.records[k];
                  && r'.(appName := "") == r.(appName := "")
                  && r'.appName == if (r.bundleName, r.userId) in names then names[(r.bundleName, r.userId)] else "")
  {
  }

  // ---------------------------------------------------------------- reading the file

  /** What reading a tidy file makes of a table: what is there stays, and a well-placed entry of the file is added when
      its key is free; then the file is written. What is no JSON object is not read. */
  lemma RestoreOutcome(s: State, names: seq<string>, k: string)
    requires Indexed(s.records) && Tidy(s.records, Entries(s.disk), names) && Covers(names, Entries(s.disk))
    ensures var file, s' := Entries(s.disk), Restore(s, names);
            if !s.disk.Dict? then s' == s
            else
              && s'.callbacks == s.callbacks && s'.log == s.log && s'.disk == Write(s'.records)
              && (k in s'.records <==> k in s.records || (k in file && k == LabelOf(file[k])))
              && (k in s'.records ==> s'.records[k] == if k in s.records then s.records[k] else file[k])
  {
    hide Write, Entries, LabelOf, Tidy, AdoptAll;
    AdoptTidy(s.records, Entries(s.disk), names);
  }
}
