/** What holds of the authorization tables in every reachable state. */
module AuthProofs {
  import opened Wrappers
  import opened Json
  import opened Auth
  import L = Labels

  // ---------------------------------------------------------------- the index

  /** Every record sits under its own label. */
  ghost predicate Indexed(records: Records) {
    forall k :: k in records ==> k == LabelOf(records[k])
  }

  /** A record's banner, if it has one, carries the record's own label. */
  ghost predicate OwnNotes(records: Records) {
    forall k :: k in records ==> records[k].noteLabel == "" || records[k].noteLabel == LabelOf(records[k])
  }

  lemma SameTriple(r: AuthRecord, bundleName: string, userId: int, appIndex: int)
    ensures LabelOf(r) == L.BannerLabel(bundleName, userId, appIndex) <==> IsFor(r, bundleName, userId, appIndex)
  {
    hide L.BannerLabel;
    if LabelOf(r) == L.BannerLabel(bundleName, userId, appIndex) {
      L.BannerLabelInjective(r.bundleName, r.userId, r.appIndex, bundleName, userId, appIndex);
    }
  }

  lemma {:induction false} ScanFinds(records: Records, order: seq<string>, bundleName: string, userId: int,
                                     appIndex: int)
    ensures var k := Scan(records, order, bundleName, userId, appIndex);
            k.Some? ==> k.value in records && IsFor(records[k.value], bundleName, userId, appIndex)
  {
    if order != [] {
      ScanFinds(records, order[1..], bundleName, userId, appIndex);
    }
  }

  lemma {:induction false} ScanFound(records: Records, order: seq<string>, bundleName: string, userId: int,
                                     appIndex: int, k: string)
    requires k in order && k in records && IsFor(records[k], bundleName, userId, appIndex)
    ensures Scan(records, order, bundleName, userId, appIndex).Some?
  {
    if order[0] != k {
      ScanFound(records, order[1..], bundleName, userId, appIndex, k);
    }
  }

  /** A walk visits every key. */
  ghost predicate Covers<V>(order: seq<string>, m: map<string, V>) {
    forall k :: k in m ==> k in order
  }

  /** Auth index agreement: whatever the order of the map, a search for a triple finds exactly what a
      lookup under the label of that triple finds. */
  lemma ScanIsKey(records: Records, order: seq<string>, bundleName: string, userId: int, appIndex: int)
    requires Indexed(records) && Covers(order, records)
    ensures var key := L.BannerLabel(bundleName, userId, appIndex);
            Scan(records, order, bundleName, userId, appIndex) == if key in records then Some(key) else None
  {
    hide L.BannerLabel, Scan;
    var key := L.BannerLabel(bundleName, userId, appIndex);
    var k := Scan(records, order, bundleName, userId, appIndex);
    ScanFinds(records, order, bundleName, userId, appIndex);
    if k.Some? {
      SameTriple(records[k.value], bundleName, userId, appIndex);
    }
    if key in records {
      SameTriple(records[key], bundleName, userId, appIndex);
      ScanFound(records, order, bundleName, userId, appIndex, key);
    }
  }

  /** At most one record per triple. */
  lemma OneRecordPerTriple(records: Records, j: string, k: string)
    requires Indexed(records) && j in records && k in records
    requires IsFor(records[j], records[k].bundleName, records[k].userId, records[k].appIndex)
    ensures j == k
  {
  }

  lemma HasTripleIsKey(records: Records, r: AuthRecord)
    requires Indexed(records)
    ensures HasTriple(records, r) <==> LabelOf(r) in records
  {
    hide L.BannerLabel;
    if HasTriple(records, r) {
      var k :| k in records && IsFor(records[k], r.bundleName, r.userId, r.appIndex);
      SameTriple(records[k], r.bundleName, r.userId, r.appIndex);
    }
    if LabelOf(r) in records {
      SameTriple(records[LabelOf(r)], r.bundleName, r.userId, r.appIndex);
    }
  }

  // ---------------------------------------------------------------- restore

  predicate WellPlaced(entries: Records, name: string) {
    name in entries && name == LabelOf(entries[name])
  }

  /** An entry under a foreign key does no harm when its triple or its key is already in the table, or
      an earlier entry of the file supplies the record for its triple. */
  ghost predicate Harmless(records: Records, entries: Records, names: seq<string>, i: nat)
    requires i < |names| && names[i] in entries
  {
    var own := LabelOf(entries[names[i]]);
    own in records || names[i] in records || (own in names[..i] && WellPlaced(entries, own))
  }

  ghost predicate Tidy(records: Records, entries: Records, names: seq<string>) {
    forall i :: 0 <= i < |names| && names[i] in entries && !WellPlaced(entries, names[i]) ==>
      Harmless(records, entries, names, i)
  }

  ghost predicate NoRepeats(names: seq<string>) {
    forall i, j :: 0 <= i < j < |names| ==> names[i] != names[j]
  }

  lemma TidyPrefix(records: Records, entries: Records, names: seq<string>)
    requires names != []
    ensures var n := |names| - 1;
            Tidy(records, entries, names)
            <==> (Tidy(records, entries, names[..n])
                  && (names[n] in entries && !WellPlaced(entries, names[n]) ==> Harmless(records, entries, names, n)))
  {
    hide WellPlaced, LabelOf;
    var n := |names| - 1;
    assert forall i :: 0 <= i < n ==> names[..n][i] == names[i] && names[..n][..i] == names[..i];
    if Tidy(records, entries, names[..n])
       && (names[n] in entries && !WellPlaced(entries, names[n]) ==> Harmless(records, entries, names, n)) {
      forall i | 0 <= i < |names| && names[i] in entries && !WellPlaced(entries, names[i])
        ensures Harmless(records, entries, names, i)
      {
        if i < n {
          assert names[..n][i] == names[i];
          assert Harmless(records, entries, names[..n], i);
        }
      }
    }
    if Tidy(records, entries, names) {
      forall i | 0 <= i < n && names[..n][i] in entries && !WellPlaced(entries, names[..n][i])
        ensures Harmless(records, entries, names[..n], i)
      {
        assert names[i] in entries && Harmless(records, entries, names, i);
      }
    }
  }

  /** What reading the entries makes of the table, when the file is tidy. */
  ghost predicate Adopted(records: Records, entries: Records, names: seq<string>, result: Records) {
    && Indexed(result)
    && (forall k :: k in result <==> k in records || (k in names && WellPlaced(entries, k)))
    && (forall k :: k in result ==> result[k] == if k in records then records[k] else entries[k])
  }

  /** One more entry, which is well placed or harmless. */
  lemma AdoptOne(records: Records, entries: Records, names: seq<string>, before: Records)
    requires names != [] && Adopted(records, entries, names[..|names| - 1], before) && names[|names| - 1] in entries
    requires WellPlaced(entries, names[|names| - 1]) || Harmless(records, entries, names, |names| - 1)
    ensures var name := names[|names| - 1]; Adopted(records, entries, names, Adopt(before, name, entries[name]))
  {
    hide LabelOf, HasTriple;
    var n, name := |names| - 1, names[|names| - 1];
    assert names == names[..n] + [name];
    HasTripleIsKey(before, entries[name]);
    if WellPlaced(entries, name) {
      if name in before {
      } else {
      }
    } else {
      assert Adopt(before, name, entries[name]) == before;
    }
  }

  lemma {:induction false} AdoptTidy(records: Records, entries: Records, names: seq<string>)
    requires Indexed(records) && Tidy(records, entries, names)
    ensures Adopted(records, entries, names, AdoptAll(records, entries, names))
  {
    if names != [] {
      hide LabelOf, Tidy, Adopt;
      var n := |names| - 1;
      TidyPrefix(records, entries, names);
      AdoptTidy(records, entries, names[..n]);
      if names[n] in entries {
        hide Adopted;
        AdoptOne(records, entries, names, AdoptAll(records, entries, names[..n]));
      } else {
        assert names == names[..n] + [names[n]];
      }
    }
  }

  lemma {:induction false} AdoptKeeps(records: Records, entries: Records, names: seq<string>)
    ensures forall k :: k in records ==>
              k in AdoptAll(records, entries, names) && AdoptAll(records, entries, names)[k] == records[k]
  {
    hide HasTriple;
    if names != [] {
      AdoptKeeps(records, entries, names[..|names| - 1]);
    }
  }

  lemma {:induction false} AdoptUntidy(records: Records, entries: Records, names: seq<string>)
    requires Indexed(records) && NoRepeats(names) && !Tidy(records, entries, names)
    ensures !Indexed(AdoptAll(records, entries, names))
  {
    hide LabelOf, Tidy, HasTriple;
    if names == [] {
      TidyNothing(records, entries);
    } else {
      var n, before := |names| - 1, AdoptAll(records, entries, names[..|names| - 1]);
      TidyPrefix(records, entries, names);
      if Tidy(records, entries, names[..n]) {
        AdoptTidy(records, entries, names[..n]);
        HasTripleIsKey(before, entries[names[n]]);
        assert names[n] !in names[..n];
        assert names[n] in AdoptAll(records, entries, names);
      } else {
        AdoptUntidy(records, entries, names[..n]);
        var bad :| bad in before && bad != LabelOf(before[bad]);
        var after := AdoptAll(records, entries, names);
        assert bad in after && after[bad] == before[bad];
      }
    }
  }

  lemma TidyNothing(records: Records, entries: Records)
    ensures Tidy(records, entries, [])
  {
  }

  /** Reading a file, in whatever order its entries come, keeps every record under its own label
      exactly when the file is tidy. */
  lemma RestoreExact(records: Records, entries: Records, names: seq<string>)
    requires Indexed(records) && NoRepeats(names)
    ensures Indexed(AdoptAll(records, entries, names)) <==> Tidy(records, entries, names)
  {
    hide AdoptAll, Tidy, Indexed;
    if Tidy(records, entries, names) {
      AdoptTidy(records, entries, names);
      AdoptedIsIndexed(records, entries, names);
    } else {
      AdoptUntidy(records, entries, names);
    }
  }

  lemma AdoptedIsIndexed(records: Records, entries: Records, names: seq<string>)
    requires Adopted(records, entries, names, AdoptAll(records, entries, names))
    ensures Indexed(AdoptAll(records, entries, names))
  {
  }

  /** A backup with one entry under a key of its own choosing breaks the agreement: the search finds the
      record, the lookup under the label does not. */
  lemma ForeignKeyBreaks(r: AuthRecord, name: string)
    requires name != LabelOf(r)
    ensures var records := AdoptAll(map[], map[name := r], [name]);
            && Scan(records, [name], r.bundleName, r.userId, r.appIndex) == Some(name)
            && LabelOf(r) !in records
  {
    assert [name][..0] == [];
    assert !HasTriple(map[], r);
    assert AdoptAll(map[], map[name := r], [name]) == map[name := r];
  }

  lemma EntriesTidy(records: Records, entries: Records, names: seq<string>)
    requires Indexed(entries)
    ensures Tidy(records, entries, names)
  {
  }

  // ---------------------------------------------------------------- registrations

  predicate EndsReg(e: Event, reg: nat) {
    (e.Answered? || e.Dropped?) && e.reg == reg
  }

  /** How often a registration has been answered or dropped. */
  function Ends(log: seq<Event>, reg: nat): nat {
    if log == [] then 0
    else Ends(log[..|log| - 1], reg) + if EndsReg(log[|log| - 1], reg) then 1 else 0
  }

  lemma EndsSnoc(log: seq<Event>, e: Event, reg: nat)
    ensures Ends(log + [e], reg) == Ends(log, reg) + if EndsReg(e, reg) then 1 else 0
  {
    assert (log + [e])[..|log|] == log;
  }

  predicate Waiting(callbacks: map<string, Pending>, reg: nat) {
    exists k :: k in callbacks && callbacks[k].reg == reg
  }

  /** No callback object waits under two keys, and no registration under two keys. */
  ghost predicate Apart(callbacks: map<string, Pending>) {
    && (forall j, k :: j in callbacks && k in callbacks && callbacks[j].remote == callbacks[k].remote ==> j == k)
    && (forall j, k :: j in callbacks && k in callbacks && callbacks[j].reg == callbacks[k].reg ==> j == k)
    && (forall k :: k in callbacks ==> k != "")
  }

  /** Each registration of this process either waits and has not ended, or has ended exactly once. */
  ghost predicate Balanced(s: State) {
    && s.floor <= s.nextReg
    && (forall reg: nat :: Waiting(s.callbacks, reg) ==> s.floor <= reg < s.nextReg)
    && (forall reg: nat :: s.floor <= reg < s.nextReg ==>
          Ends(s.log, reg) == if Waiting(s.callbacks, reg) then 0 else 1)
    && (forall reg: nat :: reg < s.floor ==> Ends(s.log, reg) <= 1)
    && (forall reg: nat :: reg >= s.nextReg ==> Ends(s.log, reg) == 0)
  }

  ghost predicate Ledger(s: State) {
    Apart(s.callbacks) && Balanced(s)
  }

  lemma Waits(callbacks: map<string, Pending>, k: string)
    requires k in callbacks
    ensures Waiting(callbacks, callbacks[k].reg)
  {
  }

  lemma StopsWaiting(callbacks: map<string, Pending>, key: string, reg: nat)
    requires Apart(callbacks) && key in callbacks
    ensures Waiting(callbacks - {key}, reg) <==> Waiting(callbacks, reg) && reg != callbacks[key].reg
  {
    if Waiting(callbacks - {key}, reg) {
      var k :| k in callbacks - {key} && (callbacks - {key})[k].reg == reg;
      assert k in callbacks && callbacks[k].reg == reg;
    }
    if Waiting(callbacks, reg) && reg != callbacks[key].reg {
      var k :| k in callbacks && callbacks[k].reg == reg;
      assert k in callbacks - {key};
    }
  }

  /** A waiting registration ends. */
  lemma EndLedger(s: State, key: string, e: Event, s': State)
    requires Ledger(s) && key in s.callbacks && (e.Answered? || e.Dropped?) && e.reg == s.callbacks[key].reg
    requires s' == s.(callbacks := s.callbacks - {key}, log := s.log + [e])
    ensures Ledger(s')
  {
    hide Waiting, Ends;
    Waits(s.callbacks, key);
    forall reg: nat ensures Waiting(s'.callbacks, reg) <==> Waiting(s.callbacks, reg) && reg != e.reg
    {
      StopsWaiting(s.callbacks, key, reg);
    }
    forall reg: nat ensures Ends(s'.log, reg) == Ends(s.log, reg) + if reg == e.reg then 1 else 0 {
      EndsSnoc(s.log, e, reg);
    }
  }

  lemma AnswerLedger(s: State, key: string, result: int)
    requires Ledger(s)
    ensures Ledger(Answer(s, key, result)) && Ledger(Drop(s, key)) && key !in Drop(s, key).callbacks
  {
    hide Ledger;
    if key in s.callbacks {
      EndLedger(s, key, Answered(s.callbacks[key].reg, s.callbacks[key].remote, result), Answer(s, key, result));
      EndLedger(s, key, Dropped(s.callbacks[key].reg), Drop(s, key));
    }
  }

  lemma StartsWaiting(callbacks: map<string, Pending>, key: string, p: Pending, reg: nat)
    requires key !in callbacks
    ensures Waiting(callbacks[key := p], reg) <==> Waiting(callbacks, reg) || reg == p.reg
  {
    var after := callbacks[key := p];
    if Waiting(callbacks, reg) {
      var k :| k in callbacks && callbacks[k].reg == reg;
      assert k in after && after[k].reg == reg;
    }
    assert key in after && after[key] == p;
  }

  /** A new registration under a free key, with an object that waits nowhere. */
  lemma NewLedger(s: State, key: string, remote: int, s': State)
    requires Ledger(s) && key !in s.callbacks && key != "" && forall k :: k in s.callbacks ==>
               s.callbacks[k].remote != remote
    requires s'.callbacks == s.callbacks[key := Pending(remote, s.nextReg)] && s'.nextReg == s.nextReg + 1
    requires s'.floor == s.floor && s'.log == s.log
    ensures Ledger(s')
  {
    hide Waiting, Ends;
    forall k | k in s.callbacks ensures s.callbacks[k].reg < s.nextReg {
      Waits(s.callbacks, k);
    }
    forall reg: nat ensures Waiting(s'.callbacks, reg) <==> Waiting(s.callbacks, reg) || reg == s.nextReg {
      StartsWaiting(s.callbacks, key, Pending(remote, s.nextReg), reg);
    }
  }

  /** Only the records changed, or an immediate answer was given. */
  lemma SameLedger(s: State, s': State)
    requires Ledger(s) && s'.callbacks == s.callbacks && s'.nextReg == s.nextReg && s'.floor == s.floor
    requires s'.log == s.log || exists remote, result :: s'.log == s.log + [Immediate(remote, result)]
    ensures Ledger(s')
  {
    hide Waiting, Ends, Apart;
    if s'.log != s.log {
      var remote, result :| s'.log == s.log + [Immediate(remote, result)];
      forall reg: nat ensures Ends(s'.log, reg) == Ends(s.log, reg) {
        EndsSnoc(s.log, Immediate(remote, result), reg);
      }
    }
  }

  lemma {:induction false} ScanRemoteFinds(callbacks: map<string, Pending>, order: seq<string>, remote: int)
    ensures var k := ScanRemote(callbacks, order, remote);
            k.Some? ==> k.value in callbacks && callbacks[k.value].remote == remote
    ensures ScanRemote(callbacks, order, remote).None? ==> forall k :: k in order && k in callbacks ==>
              callbacks[k].remote != remote
  {
    if order != [] {
      ScanRemoteFinds(callbacks, order[1..], remote);
    }
  }

  lemma LabelsAreNotEmpty(r: AuthRecord)
    ensures LabelOf(r) != ""
  {
  }

  lemma RegisterLedger(s: State, r: AuthRecord, remote: int)
    requires Ledger(s) && forall k :: k in s.callbacks ==> s.callbacks[k].remote != remote
    ensures Ledger(Register(s, r, remote))
  {
    hide Ledger, LabelOf, Write;
    LabelsAreNotEmpty(r);
    AnswerLedger(s, LabelOf(r), 0);
    var d := Drop(s, LabelOf(r));
    NewLedger(d, LabelOf(r), remote, Register(s, r, remote));
  }

  lemma RequestLedger(s: State, a: Ask, order: seq<string>, pendingOrder: seq<string>)
    requires Ledger(s) && Covers(pendingOrder, s.callbacks)
    ensures Ledger(Request(s, a, order, pendingOrder).s)
  {
    hide Ledger, Scan, ScanRemote, Register, NewRecord;
    ScanRemoteFinds(s.callbacks, pendingOrder, a.remote);
    var found := Scan(s.records, order, a.bundleName, a.userId, a.appIndex);
    if ScanRemote(s.callbacks, pendingOrder, a.remote).None? {
      RegisterLedger(s, NewRecord(a), a.remote);
      SameLedger(s, s.(log := s.log + [Immediate(a.remote, NOT_SUPPORTED)]));
      if found.Some? && found.value in s.records {
        SameLedger(s, s.(log := s.log + [Immediate(a.remote, s.records[found.value].result)]));
      }
    }
  }

  lemma {:induction false} SweepLedger(s: State, w: Sweep, order: seq<string>)
    ensures var s' := SweepAll(s, w, order);
            s'.callbacks == s.callbacks && s'.nextReg == s.nextReg && s'.floor == s.floor && s'.log == s.log
  {
    hide Write;
    if order != [] {
      SweepLedger(s, w, order[..|order| - 1]);
    }
  }

  lemma RestartLedger(s: State, names: seq<string>, readable: bool)
    requires Ledger(s)
    ensures Ledger(Restart(s, names, readable))
  {
    hide Ends, Write, AdoptAll, Entries;
    assert forall reg: nat :: !Waiting(map[], reg);
  }

  /** A request finds out whether its callback already waits by walking all pending ones. */
  ghost predicate Walked(s: State, step: Step) {
    step.RequestStep? ==> Covers(step.pendingOrder, s.callbacks)
  }

  lemma StepLedger(s: State, step: Step)
    requires Ledger(s) && Walked(s, step)
    ensures Ledger(Apply(s, step))
  {
    hide Ledger, Covers, Scan, ScanRemote, Register, Write, AdoptAll, Entries, L.BannerLabel;
    match step
    case RequestStep(a, order, pendingOrder) => RequestLedger(s, a, order, pendingOrder);
    case DialogClickStep(result, bundleName, userId, appIndex) =>
      var key := L.BannerLabel(bundleName, userId, appIndex);
      if key in s.records {
        SameLedger(s, SetResult(s, key, result));
        AnswerLedger(SetResult(s, key, result), key, result);
      }
    case BannerClickStep(button, key) =>
      if key in s.records && ButtonResult(button).Some? {
        SameLedger(s, SetResult(s, key, ButtonResult(button).value));
        AnswerLedger(SetResult(s, key, ButtonResult(button).value), s.records[key].noteLabel,
                     ButtonResult(button).value);
      }
    case SetStateStep(bundleName, userId, appIndex, result, order) => SameLedger(s, Apply(s, step));
    case RemoveStep(bundleName, userId, appIndex) =>
      var key := L.BannerLabel(bundleName, userId, appIndex);
      SameLedger(s, Erase(s, key));
      AnswerLedger(Erase(s, key), key, 0);
    case DeathStep(remote, pendingOrder) =>
      var found := ScanRemote(s.callbacks, pendingOrder, remote);
      if found.Some? {
        AnswerLedger(s, found.value, 0);
        SameLedger(Drop(s, found.value), Erase(Drop(s, found.value), found.value));
      }
    case DismissStep(key) => SameLedger(s, Apply(s, step));
    case SweepStep(w, order) =>
      SweepLedger(s, w, order);
      SameLedger(s, SweepAll(s, w, order));
    case RenameStep(names) => SameLedger(s, Rename(s, names));
    case RestoreStep(file, names) => SameLedger(s, Apply(s, step));
    case RestartStep(names, readable) => RestartLedger(s, names, readable);
  }

  ghost predicate WalkedRun(s: State, steps: seq<Step>) {
    if steps == [] then true
    else WalkedRun(s, steps[..|steps| - 1]) && Walked(Run(s, steps[..|steps| - 1]), steps[|steps| - 1])
  }

  lemma InitLedger()
    ensures Ledger(INIT)
  {
    assert forall reg: nat :: !Waiting(map[], reg);
  }

  lemma {:induction false} RunLedger(steps: seq<Step>)
    requires WalkedRun(INIT, steps)
    ensures Ledger(Run(INIT, steps))
  {
    hide Ledger, Apply, Walked;
    if steps == [] {
      InitLedger();
    } else {
      RunLedger(steps[..|steps| - 1]);
      StepLedger(Run(INIT, steps[..|steps| - 1]), steps[|steps| - 1]);
    }
  }

  /** Auth callbacks over whole runs: no callback object waits under two keys, every registration is
      answered or dropped at most once, and one that still waits has been neither. */
  lemma RunCallbacks(steps: seq<Step>, j: string, k: string, reg: nat)
    requires WalkedRun(INIT, steps)
    ensures var s := Run(INIT, steps);
            && (j in s.callbacks && k in s.callbacks && s.callbacks[j].remote == s.callbacks[k].remote ==> j == k)
            && Ends(s.log, reg) <= 1
            && (k in s.callbacks ==> Ends(s.log, s.callbacks[k].reg) == 0)
  {
    hide Ends, WalkedRun, Run;
    RunLedger(steps);
    var s := Run(INIT, steps);
    if k in s.callbacks {
      Waits(s.callbacks, k);
    }
    assert reg < s.floor || s.floor <= reg < s.nextReg || reg >= s.nextReg;
  }

  // ---------------------------------------------------------------- the index over whole runs

  /** Every record sits under its own label and, where `notes` asks for it, carries its own banner label. */
  ghost predicate Sound(records: Records, notes: bool) {
    Indexed(records) && (notes ==> OwnNotes(records))
  }

  ghost predicate IndexInv(s: State, notes: bool) {
    Sound(s.records, notes) && Sound(Entries(s.disk), notes)
  }

  lemma SavedIndex(s: State, notes: bool)
    requires Sound(s.records, notes)
    ensures IndexInv(Save(s), notes)
  {
    hide Sound, Entries, Write;
    WrittenEntries(s.records);
  }

  /** Only callbacks and log changed. */
  lemma SameIndex(s: State, s': State, notes: bool)
    requires IndexInv(s, notes) && s'.records == s.records && s'.disk == s.disk
    ensures IndexInv(s', notes)
  {
  }

  lemma NewRecordPlaced(a: Ask)
    ensures var r := NewRecord(a); r.noteLabel == "" || r.noteLabel == LabelOf(r)
  {
    hide L.BannerLabel;
  }

  lemma PutSound(records: Records, r: AuthRecord, notes: bool)
    requires Sound(records, notes) && (r.noteLabel == "" || r.noteLabel == LabelOf(r))
    ensures Sound(records[LabelOf(r) := r], notes)
  {
    hide L.BannerLabel;
  }

  lemma RequestIndex(s: State, a: Ask, order: seq<string>, pendingOrder: seq<string>, notes: bool)
    requires IndexInv(s, notes)
    ensures IndexInv(Request(s, a, order, pendingOrder).s, notes)
  {
    hide Sound, Scan, ScanRemote, NewRecord, LabelOf, Write, Entries;
    var r := NewRecord(a);
    NewRecordPlaced(a);
    PutSound(s.records, r, notes);
    SavedIndex(Register(s, r, a.remote), notes);
    assert Save(Register(s, r, a.remote)) == Register(s, r, a.remote);
  }

  lemma SetResultIndex(s: State, key: string, result: int, notes: bool)
    requires IndexInv(s, notes) && key in s.records
    ensures IndexInv(SetResult(s, key, result), notes)
  {
    hide L.BannerLabel, Write, Entries;
    var s1 := s.(records := s.records[key := s.records[key].(result := result)]);
    SavedIndex(s1, notes);
  }

  lemma AnswerIndex(s: State, key: string, result: int, notes: bool)
    requires IndexInv(s, notes)
    ensures IndexInv(Answer(s, key, result), notes) && IndexInv(Drop(s, key), notes)
  {
    hide IndexInv;
    SameIndex(s, Answer(s, key, result), notes);
    SameIndex(s, Drop(s, key), notes);
  }

  lemma EraseIndex(s: State, key: string, notes: bool)
    requires IndexInv(s, notes)
    ensures IndexInv(Erase(s, key), notes)
  {
    hide L.BannerLabel, Write, Entries;
    if key in s.records {
      SavedIndex(s.(records := s.records - {key}), notes);
    }
  }

  lemma SetStateIndex(s: State, bundleName: string, userId: int, appIndex: int, result: int, order: seq<string>,
                      notes: bool)
    requires IndexInv(s, notes)
    ensures IndexInv(SetState(s, bundleName, userId, appIndex, result, order), notes)
  {
    hide Sound, Scan, L.BannerLabel, Write, Entries;
    var found := Scan(s.records, order, bundleName, userId, appIndex);
    if found.Some? && found.value in s.records {
      SetResultIndex(s, found.value, result, notes);
    }
    SavedIndex(s, notes);
    var r := AuthRecord(bundleName, 0, -1, "", "", result, userId, appIndex);
    PutSound(s.records, r, notes);
    SavedIndex(s.(records := s.records[LabelOf(r) := r]), notes);
  }

  lemma {:induction false} SweepIndex(s: State, w: Sweep, order: seq<string>, notes: bool)
    requires IndexInv(s, notes)
    ensures IndexInv(SweepAll(s, w, order), notes)
  {
    hide IndexInv, Erase;
    if order != [] {
      SweepIndex(s, w, order[..|order| - 1], notes);
      EraseIndex(SweepAll(s, w, order[..|order| - 1]), order[|order| - 1], notes);
    }
  }

  lemma RenameIndex(s: State, names: Names, notes: bool)
    requires IndexInv(s, notes)
    ensures IndexInv(Rename(s, names), notes)
  {
    hide L.BannerLabel, Entries;
  }

  lemma AdoptSound(records: Records, entries: Records, names: seq<string>, notes: bool)
    requires Sound(records, notes) && Tidy(records, entries, names) && (notes ==> OwnNotes(entries))
    ensures Sound(AdoptAll(records, entries, names), notes)
  {
    hide LabelOf, Tidy, AdoptAll;
    AdoptTidy(records, entries, names);
  }

  lemma RestoreIndex(s: State, names: seq<string>, notes: bool)
    requires Sound(s.records, notes) && Tidy(s.records, Entries(s.disk), names)
    requires notes ==> OwnNotes(Entries(s.disk))
    ensures IndexInv(Restore(s, names), notes)
  {
    if s.disk.Dict? {
      hide Sound, Write, AdoptAll, Entries, OwnNotes, Tidy;
      AdoptSound(s.records, Entries(s.disk), names, notes);
      SavedIndex(s.(records := AdoptAll(s.records, Entries(s.disk), names)), notes);
    }
  }

  lemma RestartIndex(s: State, names: seq<string>, readable: bool, notes: bool)
    requires IndexInv(s, notes)
    ensures IndexInv(Restart(s, names, readable), notes)
  {
    hide LabelOf, Write, AdoptAll, Entries, Tidy;
    var s0 := s.(records := map[], callbacks := map[], floor := s.nextReg);
    EntriesTidy(map[], Entries(s.disk), names);
    RestoreIndex(s0, names, notes);
    SavedIndex(Restore(s0, names), notes);
  }

  /** A restored backup is tidy and, where `notes` asks for it, its banners carry their records' own labels. */
  ghost predicate TidyBackup(s: State, step: Step, notes: bool) {
    step.RestoreStep? ==>
      Tidy(s.records, Entries(step.file), step.entries) && (notes ==> OwnNotes(Entries(step.file)))
  }

  lemma StepIndex(s: State, step: Step, notes: bool)
    requires IndexInv(s, notes) && TidyBackup(s, step, notes)
    ensures IndexInv(Apply(s, step), notes)
  {
    hide IndexInv, Tidy, OwnNotes, Scan, ScanRemote, Request, SetState, SweepAll, Restore, Restart, Erase,
      L.BannerLabel;
    match step
    case RequestStep(a, order, pendingOrder) => RequestIndex(s, a, order, pendingOrder, notes);
    case DialogClickStep(result, bundleName, userId, appIndex) =>
      var key := L.BannerLabel(bundleName, userId, appIndex);
      if key in s.records {
        SetResultIndex(s, key, result, notes);
        AnswerIndex(SetResult(s, key, result), key, result, notes);
      }
    case BannerClickStep(button, key) =>
      if key in s.records && ButtonResult(button).Some? {
        SetResultIndex(s, key, ButtonResult(button).value, notes);
        AnswerIndex(SetResult(s, key, ButtonResult(button).value), s.records[key].noteLabel,
                    ButtonResult(button).value, notes);
      }
    case SetStateStep(bundleName, userId, appIndex, result, order) =>
      SetStateIndex(s, bundleName, userId, appIndex, result, order, notes);
    case RemoveStep(bundleName, userId, appIndex) =>
      var key := L.BannerLabel(bundleName, userId, appIndex);
      EraseIndex(s, key, notes);
      AnswerIndex(Erase(s, key), key, 0, notes);
    case DeathStep(remote, pendingOrder) =>
      var found := ScanRemote(s.callbacks, pendingOrder, remote);
      if found.Some? {
        AnswerIndex(s, found.value, 0, notes);
        EraseIndex(Drop(s, found.value), found.value, notes);
      }
    case DismissStep(key) => EraseIndex(s, key, notes);
    case SweepStep(w, order) => SweepIndex(s, w, order, notes);
    case RenameStep(names) => RenameIndex(s, names, notes);
    case RestoreStep(file, names) => BackupIndex(s, file, names, notes);
    case RestartStep(names, readable) => RestartIndex(s, names, readable, notes);
  }

  lemma BackupIndex(s: State, file: Json, names: seq<string>, notes: bool)
    requires IndexInv(s, notes) && Tidy(s.records, Entries(file), names) && (notes ==> OwnNotes(Entries(file)))
    ensures IndexInv(RestoreBackup(s, file, names), notes)
  {
    hide Restore, Tidy, OwnNotes, Entries;
    RestoreIndex(s.(disk := file), names, notes);
  }

  ghost predicate TidyRun(s: State, steps: seq<Step>, notes: bool) {
    if steps == [] then true
    else TidyRun(s, steps[..|steps| - 1], notes) && TidyBackup(Run(s, steps[..|steps| - 1]), steps[|steps| - 1], notes)
  }

  lemma {:induction false} RunIndex(steps: seq<Step>, notes: bool)
    requires TidyRun(INIT, steps, notes)
    ensures IndexInv(Run(INIT, steps), notes)
  {
    hide Apply, TidyBackup;
    if steps != [] {
      hide IndexInv;
      RunIndex(steps[..|steps| - 1], notes);
      StepIndex(Run(INIT, steps[..|steps| - 1]), steps[|steps| - 1], notes);
    }
  }

  /** Auth index agreement over whole runs, restores of tidy backups included. */
  lemma RunAgreement(steps: seq<Step>, order: seq<string>, bundleName: string, userId: int, appIndex: int)
    requires TidyRun(INIT, steps, false) && Covers(order, Run(INIT, steps).records)
    ensures var records, key := Run(INIT, steps).records, L.BannerLabel(bundleName, userId, appIndex);
            Scan(records, order, bundleName, userId, appIndex) == if key in records then Some(key) else None
  {
    hide TidyRun, Run, LabelOf, Scan, Entries;
    RunIndex(steps, false);
    ScanIsKey(Run(INIT, steps).records, order, bundleName, userId, appIndex);
  }

  // ---------------------------------------------------------------- what a request and a click do

  /** A request is registered only when neither its callback waits nor its triple has a record; then both
      are there, the record undetermined, the callback under the same key. */
  lemma RequestRegisters(s: State, a: Ask, order: seq<string>, pendingOrder: seq<string>)
    requires Indexed(s.records) && Covers(order, s.records) && Covers(pendingOrder, s.callbacks)
    requires Request(s, a, order, pendingOrder).status == AuthOk
    ensures var key, s' := L.BannerLabel(a.bundleName, a.userId, a.appIndex), Request(s, a, order, pendingOrder).s;
            && key !in s.records && (forall k :: k in s.callbacks ==> s.callbacks[k].remote != a.remote)
            && s'.records == s.records[key := NewRecord(a)] && NewRecord(a).result == NOT_DETERMINED
            && s'.callbacks == s.callbacks[key := Pending(a.remote, s.nextReg)]
  {
    hide Scan, ScanRemote, L.BannerLabel, Write, Entries, OwnNotes;
    var key := L.BannerLabel(a.bundleName, a.userId, a.appIndex);
    ScanIsKey(s.records, order, a.bundleName, a.userId, a.appIndex);
    ScanRemoteFinds(s.callbacks, pendingOrder, a.remote);
    assert LabelOf(NewRecord(a)) == key;
    if key in s.callbacks {
      assert (s.callbacks - {key})[key := Pending(a.remote, s.nextReg)]
             == s.callbacks[key := Pending(a.remote, s.nextReg)];
    }
  }

  /** A click on a banner never answers, and never loses, a callback that waits under another label. */
  lemma ClickAnswersOwn(s: State, button: int, key: string, other: string)
    requires Sound(s.records, true) && Ledger(s) && other in s.callbacks && other != key
    ensures var s' := BannerClick(s, button, key);
            && other in s'.callbacks && s'.callbacks[other] == s.callbacks[other]
            && Ends(s'.log, s.callbacks[other].reg) == 0
  {
    hide Write, Entries, L.BannerLabel, Ends, Waiting;
    Waits(s.callbacks, other);
    if key in s.records && ButtonResult(button).Some? {
      var text := s.records[key].noteLabel;
      if text in s.callbacks {
        EndsSnoc(s.log, Answered(s.callbacks[text].reg, s.callbacks[text].remote, ButtonResult(button).value),
                 s.callbacks[other].reg);
      }
    }
  }

  // ---------------------------------------------------------------- the file

  /** The file holds the table. */
  ghost predicate Synced(s: State) {
    Entries(s.disk) == s.records
  }

  /** The application names stay what they are. */
  predicate SameNames(records: Records, names: Names) {
    forall k :: k in records ==> Named(records[k], names) == records[k]
  }

  /** The file can be read, and so can the process list. */
  predicate Readable(step: Step) {
    (step.RestoreStep? ==> step.file.Dict?) && (step.RestartStep? ==> step.readable)
  }

  lemma RenameSyncedExact(s: State, names: Names)
    requires Synced(s)
    ensures Synced(Rename(s, names)) <==> SameNames(s.records, names)
  {
    hide Entries;
    var s' := Rename(s, names);
    if SameNames(s.records, names) {
      assert s'.records == s.records;
    } else {
      var k :| k in s.records && Named(s.records[k], names) != s.records[k];
      assert s'.records[k] != s.records[k];
    }
  }

  /** What leaves the file in step with the table: a change of language that changes no application name; a
      backup that is a JSON object, and a restart with a process list, unless there is nothing to lose; every
      other step. */
  predicate Keeps(s: State, step: Step) {
    match step
    case RenameStep(names) => SameNames(s.records, names)
    case RestoreStep(file, _) => file.Dict? || s.records == map[]
    case RestartStep(_, readable) => readable || s.records == map[]
    case _ => true
  }

  lemma StepSyncedExact(s: State, step: Step)
    requires Synced(s)
    ensures Synced(Apply(s, step)) <==> Keeps(s, step)
  {
    if step.RenameStep? {
      RenameSyncedExact(s, step.names);
    } else if step.SweepStep? {
      SweepSynced(s, step.w, step.order);
    } else if Readable(step) {
      hide Apply, Entries, Write;
      WritesOrLeaves(s, step);
      WrittenEntries(Apply(s, step).records);
    } else {
      hide FromJson;
    }
  }

  lemma {:induction false} SweepSynced(s: State, w: Sweep, order: seq<string>)
    requires Synced(s)
    ensures Synced(SweepAll(s, w, order))
  {
    hide Entries, Write;
    if order != [] {
      var before, k := SweepAll(s, w, order[..|order| - 1]), order[|order| - 1];
      SweepSynced(s, w, order[..|order| - 1]);
      WrittenEntries(before.records - {k});
    }
  }

  /** Two tables that differ in application names only. */
  ghost predicate SameButNames(a: Records, b: Records) {
    a.Keys == b.Keys && forall k :: k in a ==> a[k].(appName := "") == b[k].(appName := "")
  }

  /** The file holds the table up to application names. */
  ghost predicate Kept(s: State) {
    SameButNames(Entries(s.disk), s.records)
  }

  lemma WrittenKept(s: State)
    requires s.disk == Write(s.records)
    ensures Kept(s)
  {
    hide Entries, Write;
    WrittenEntries(s.records);
  }

  lemma RenameKept(s: State, names: Names)
    requires Kept(s)
    ensures Kept(Rename(s, names))
  {
    hide Entries;
  }

  lemma {:induction false} SweepKept(s: State, w: Sweep, order: seq<string>)
    requires Kept(s)
    ensures Kept(SweepAll(s, w, order))
  {
    hide Kept, Write;
    if order != [] {
      var before, k := SweepAll(s, w, order[..|order| - 1]), order[|order| - 1];
      SweepKept(s, w, order[..|order| - 1]);
      if k in before.records {
        WrittenKept(Erase(before, k));
      }
    }
  }

  /** What a step does to table and file, unless it renames or sweeps: it writes, or leaves both alone. */
  lemma WritesOrLeaves(s: State, step: Step)
    requires Readable(step) && !step.RenameStep? && !step.SweepStep?
    ensures var s' := Apply(s, step); s'.disk == Write(s'.records) || (s'.disk == s.disk && s'.records == s.records)
  {
    hide Write, Scan, ScanRemote, L.BannerLabel, AdoptAll, Entries, Granted;
    match step
    case RequestStep(a, order, pendingOrder) => RequestWrites(s, a, order, pendingOrder);
    case DialogClickStep(_, _, _, _) =>
    case BannerClickStep(_, _) =>
    case SetStateStep(_, _, _, _, _) =>
    case RemoveStep(_, _, _) =>
    case DeathStep(_, _) =>
    case DismissStep(_) =>
    case RestoreStep(_, _) =>
    case RestartStep(_, _) =>
  }

  lemma RequestWrites(s: State, a: Ask, order: seq<string>, pendingOrder: seq<string>)
    ensures var s' := Request(s, a, order, pendingOrder).s;
            s'.disk == Write(s'.records) || (s'.disk == s.disk && s'.records == s.records)
  {
    hide Write, Scan, ScanRemote, LabelOf, NewRecord, Granted, Drop;
  }

  /** Every step keeps the file equal to the table up to application names. */
  lemma StepKept(s: State, step: Step)
    requires Kept(s) && Readable(step)
    ensures Kept(Apply(s, step))
  {
    if step.RenameStep? {
      RenameKept(s, step.names);
    } else if step.SweepStep? {
      SweepKept(s, step.w, step.order);
    } else {
      hide Apply, Entries, Write;
      WritesOrLeaves(s, step);
      var s' := Apply(s, step);
      if s'.disk == Write(s'.records) {
        WrittenKept(s');
      }
    }
  }

  ghost predicate ReadableRun(steps: seq<Step>) {
    forall i :: 0 <= i < |steps| ==> Readable(steps[i])
  }

  lemma {:induction false} RunKept(steps: seq<Step>)
    requires ReadableRun(steps)
    ensures Kept(Run(INIT, steps))
  {
    hide Apply, Readable;
    if steps != [] {
      hide Kept;
      RunKept(steps[..|steps| - 1]);
      StepKept(Run(INIT, steps[..|steps| - 1]), steps[|steps| - 1]);
    }
  }

  lemma RestartReads(s: State, entries: seq<string>)
    requires Indexed(Entries(s.disk)) && Covers(entries, Entries(s.disk))
    ensures Restart(s, entries, true).records == Entries(s.disk)
  {
    hide LabelOf, Write, Tidy, AdoptAll, FromJson;
    if s.disk.Dict? {
      EntriesTidy(map[], Entries(s.disk), entries);
      AdoptTidy(map[], Entries(s.disk), entries);
      assert AdoptAll(map[], Entries(s.disk), entries) == Entries(s.disk);
    }
  }

  /** A restart brings the authorization table back, up to application names, exactly when the process list can be
      read or nothing was there. */
  lemma RestartRecoversAuth(s: State, entries: seq<string>, readable: bool)
    requires Indexed(Entries(s.disk)) && Kept(s) && Covers(entries, Entries(s.disk))
    ensures SameButNames(Restart(s, entries, readable).records, s.records) <==> readable || s.records == map[]
  {
    hide LabelOf, Write, AdoptAll, Entries;
    if readable {
      RestartReads(s, entries);
    } else if s.records != map[] {
      assert s.records.Keys != {};
    }
  }

  /** ... in every reachable state. */
  lemma RunRecoversAuth(steps: seq<Step>, entries: seq<string>, readable: bool)
    requires TidyRun(INIT, steps, false) && ReadableRun(steps) && Covers(entries, Entries(Run(INIT, steps).disk))
    ensures var s := Run(INIT, steps);
            SameButNames(Restart(s, entries, readable).records, s.records) <==> readable || s.records == map[]
  {
    hide TidyRun, ReadableRun, Run, Restart, Indexed, Kept, Entries, SameButNames;
    RunIndex(steps, false);
    RunKept(steps);
    RestartRecoversAuth(Run(INIT, steps), entries, readable);
  }

  // ---------------------------------------------------------------- runs that fail

  /** Application "b" asks by a banner, which is shown under its name of the moment. */
  const FIRST_ASK: Ask := Ask("b", 1, 0, 0, REQUEST_BY_BANNER, 1, "Name", true, true, Some(0))
  const FIRST_STEP: Step := RequestStep(FIRST_ASK, [], [])

  lemma FirstRequest() returns (key: string)
    ensures Request(INIT, FIRST_ASK, [], []).status == AuthOk
    ensures var s := Run(INIT, [FIRST_STEP]); Synced(s) && s.records == map[key := NewRecord(FIRST_ASK)]
  {
    hide Write, Entries, L.BannerLabel;
    key := L.BannerLabel("b", 0, 0);
    assert [FIRST_STEP][..0] == [];
    var s := Run(INIT, [FIRST_STEP]);
    assert s.disk == Write(s.records);
    WrittenEntries(s.records);
  }

  /** A change of language after the request: the file keeps the old name. */
  lemma RenameBreaks() returns (steps: seq<Step>)
    ensures steps == [FIRST_STEP] + [RenameStep(map[("b", 0) := "Nom"])]
    ensures Request(INIT, FIRST_ASK, [], []).status == AuthOk && !Synced(Run(INIT, steps))
  {
    hide Synced, Rename, Request, L.BannerLabel;
    var key := FirstRequest();
    var s := Run(INIT, [FIRST_STEP]);
    steps := [FIRST_STEP] + [RenameStep(map[("b", 0) := "Nom"])];
    assert steps[..1] == [FIRST_STEP];
    assert Named(s.records[key], map[("b", 0) := "Nom"]).appName != s.records[key].appName;
    RenameSyncedExact(s, map[("b", 0) := "Nom"]);
  }

  /** A restart without a process list after the request: the record is in the file and not in the table. */
  lemma UnreadableRestartForgets() returns (steps: seq<Step>, key: string)
    ensures steps == [FIRST_STEP] && Request(INIT, FIRST_ASK, [], []).status == AuthOk
    ensures var s, s' := Run(INIT, steps), Apply(Run(INIT, steps), RestartStep([key], false));
            key in s.records && key !in s'.records && key in Entries(s'.disk)
  {
    hide Run, Request, Entries;
    key := FirstRequest();
    steps := [FIRST_STEP];
  }
}
