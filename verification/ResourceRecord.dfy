/** Efficiency-resource records and the file that holds the two maps of them
    (resource_application_record.cpp, data_storage_helper.cpp). */
module ResourceRecord {
  import opened Wrappers
  import opened Decimal
  import opened Json
  import TR = TaskRecord

  const DEFAULT_CPU_LEVEL: int := -1

  datatype PersistTime = PersistTime(resourceIndex: nat, isPersist: bool, endTime: int, reason: string, timeOut: int)

  /** The value of a record object. */
  datatype Resource = Resource(uid: int, pid: int, resourceNumber: nat, cpuLevel: int, bundleName: string,
                               units: seq<PersistTime>)

  const EMPTY: Resource := Resource(0, 0, 0, DEFAULT_CPU_LEVEL, "", [])

  /** Reading a JSON integer into an `int32_t` or an `int64_t`. */
  function AsInt32(n: int): (r: int)
    ensures INT32_MIN <= n <= INT32_MAX ==> r == n
  {
    (n - INT32_MIN) % 0x1_0000_0000 + INT32_MIN
  }

  function AsInt64(n: int): (r: int)
    ensures -0x8000_0000_0000_0000 <= n < 0x8000_0000_0000_0000 ==> r == n
  {
    (n + 0x8000_0000_0000_0000) % 0x1_0000_0000_0000_0000 - 0x8000_0000_0000_0000
  }

  predicate IsInt32(n: int) {
    INT32_MIN <= n <= INT32_MAX
  }

  predicate IsInt64(n: int) {
    -0x8000_0000_0000_0000 <= n < 0x8000_0000_0000_0000
  }

  predicate IsUint32(n: int) {
    0 <= n < 0x1_0000_0000
  }

  /** The fields hold values of their C++ types. */
  predicate UnitFits(u: PersistTime) {
    IsUint32(u.resourceIndex) && IsInt64(u.endTime) && IsInt64(u.timeOut)
  }

  predicate Fits(r: Resource) {
    && IsInt32(r.uid) && IsInt32(r.pid) && IsUint32(r.resourceNumber) && IsInt32(r.cpuLevel)
    && forall i :: 0 <= i < |r.units| ==> UnitFits(r.units[i])
  }

  // ---------------------------------------------------------------- units

  function UnitToJson(u: PersistTime): Json {
    UnitObj(Some(Num(u.resourceIndex)), Some(Bool(u.isPersist)), Some(Num(u.endTime)), Some(Str(u.reason)),
            Some(Num(u.timeOut)))
  }

  predicate IsUnit(j: Json) {
    && j.UnitObj? && IsNum(j.resourceIndex) && IsBool(j.isPersist)
    && IsNum(j.endTime) && IsStr(j.reason) && IsNum(j.timeOut)
  }

  function UnitFromJson(j: Json): PersistTime
    requires IsUnit(j)
  {
    PersistTime(TR.AsUint32(j.resourceIndex.value.n), j.isPersist.value.b, AsInt64(j.endTime.value.n), j.reason.value.s,
                AsInt64(j.timeOut.value.n))
  }

  function UnitsToJson(units: seq<PersistTime>): seq<Json> {
    if units == [] then [] else [UnitToJson(units[0])] + UnitsToJson(units[1..])
  }

  /** Items that are not units are skipped. */
  function UnitsFromJson(items: seq<Json>): seq<PersistTime> {
    if items == [] then []
    else (if IsUnit(items[0]) then [UnitFromJson(items[0])] else []) + UnitsFromJson(items[1..])
  }

  lemma {:induction false} UnitsRoundTrip(units: seq<PersistTime>)
    requires forall i :: 0 <= i < |units| ==> UnitFits(units[i])
    ensures UnitsFromJson(UnitsToJson(units)) == units
  {
    if units != [] {
      UnitsRoundTrip(units[1..]);
      assert UnitFits(units[0]);
      var js := [UnitToJson(units[0])] + UnitsToJson(units[1..]);
      assert js[1..] == UnitsToJson(units[1..]);
      assert UnitFromJson(js[0]) == units[0];
    }
  }

  // ---------------------------------------------------------------- records

  /** An empty list of units leaves no member behind. */
  function ToJson(r: Resource): Json {
    ResourceObj(Some(Str(r.bundleName)), Some(Num(r.uid)), Some(Num(r.pid)), Some(Num(r.resourceNumber)),
                Some(Num(r.cpuLevel)),
                if r.units == [] then None else Some(Arr(UnitsToJson(r.units))))
  }

  predicate Readable(j: Json) {
    j.ResourceObj? && IsNum(j.resUid) && IsNum(j.resPid) && IsStr(j.resBundle) && IsNum(j.resourceNumber)
  }

  /** What reading makes of a record; the units are appended to those it already has. */
  function ReadInto(r: Resource, j: Json): Resource {
    if !Readable(j) then r
    else
      Resource(AsInt32(j.resUid.value.n), AsInt32(j.resPid.value.n), TR.AsUint32(j.resourceNumber.value.n),
               if IsNum(j.cpuLevel) then AsInt32(j.cpuLevel.value.n) else r.cpuLevel, j.resBundle.value.s,
               r.units + if j.unitList.Some? && j.unitList.value.Arr? then UnitsFromJson(j.unitList.value.items)
                         else [])
  }

  lemma NoUnits()
    ensures UnitsFromJson([]) == [] && UnitsToJson([]) == []
  {
  }

  /** A record read into a fresh object is the one written. */
  lemma ResourceRoundTrip(r: Resource)
    requires Fits(r)
    ensures Readable(ToJson(r)) && ReadInto(EMPTY, ToJson(r)) == r
  {
    hide UnitsToJson, UnitsFromJson;
    NoUnits();
    UnitsRoundTrip(r.units);
  }

  class ResourceApplicationRecord {
    var uid: int
    var pid: int
    var resourceNumber: nat
    var cpuLevel: int
    var bundleName: string
    var units: seq<PersistTime>

    function Value(): Resource
      reads this
    {
      Resource(uid, pid, resourceNumber, cpuLevel, bundleName, units)
    }

    constructor ()
      ensures Value() == EMPTY
    {
      uid, pid, resourceNumber, cpuLevel, bundleName, units := 0, 0, 0, DEFAULT_CPU_LEVEL, "", [];
    }

    method ParseToJson() returns (root: Json)
      ensures root == ToJson(Value())
    {
      root := ResourceObj(Some(Str(bundleName)), Some(Num(uid)), Some(Num(pid)), Some(Num(resourceNumber)),
                          Some(Num(cpuLevel)), None);
      if units != [] {
        var resource: seq<Json> := [];
        var i := 0;
        while i < |units|
          invariant 0 <= i <= |units|
          invariant resource + UnitsToJson(units[i..]) == UnitsToJson(units)
        {
          assert units[i..][1..] == units[i + 1..];
          resource := resource + [UnitToJson(units[i])];
          i := i + 1;
        }
        assert resource == UnitsToJson(units);
        root := root.(unitList := Some(Arr(resource)));
      }
    }

    method ParseFromJson(value: Json) returns (ok: bool)
      modifies this
      ensures ok <==> Readable(value)
      ensures Value() == ReadInto(old(Value()), value)
    {
      hide UnitFromJson, AsInt32, TR.AsUint32;
      if !Readable(value) {
        return false;
      }
      if IsNum(value.cpuLevel) {
        cpuLevel := AsInt32(value.cpuLevel.value.n);
      }
      uid := AsInt32(value.resUid.value.n);
      pid := AsInt32(value.resPid.value.n);
      bundleName := value.resBundle.value.s;
      resourceNumber := TR.AsUint32(value.resourceNumber.value.n);
      if !(value.unitList.Some? && value.unitList.value.Arr?) {
        return true;
      }
      var items := value.unitList.value.items;
      var i := 0;
      while i < |items|
        invariant 0 <= i <= |items|
        invariant units + UnitsFromJson(items[i..]) == old(units) + UnitsFromJson(items)
        invariant Value().(units := []) == ReadInto(old(Value()), value).(units := [])
      {
        assert items[i..][1..] == items[i + 1..];
        if IsUnit(items[i]) {
          units := units + [UnitFromJson(items[i])];
        }
        i := i + 1;
      }
      return true;
    }
  }

  // ---------------------------------------------------------------- maps

  type Resources = map<int, Resource>

  /** The object written for a map, with the first keys of a walk over it; null before the first key. */
  function MapToJson(records: Resources, keys: seq<int>): Json
    requires forall k :: k in keys ==> k in records
  {
    if keys == [] then Null
    else
      var n := |keys| - 1;
      var before := MapToJson(records, keys[..n]);
      var members := if before.Dict? then before.members else map[];
      Dict(members[ToString(keys[n]) := ToJson(records[keys[n]])])
  }

  /** A key read back: `atoi`, then to `uint32_t`, then into an `int32_t`. */
  function KeyFromText(text: string): int {
    AsInt32(TR.AsUint32(Atoi(text)))
  }

  /** Reading the members in this order; the first of two members with the same number wins. */
  function MapFromJson(members: map<string, Json>, names: seq<string>): Resources
    requires forall k :: k in names ==> k in members
  {
    if names == [] then map[]
    else
      var n := |names| - 1;
      var before := MapFromJson(members, names[..n]);
      var key := KeyFromText(names[n]);
      if key in before then before else before[key := ReadInto(EMPTY, members[names[n]])]
  }

  /** A walk over the keys of a map. */
  ghost predicate Walks<K(!new), V>(keys: seq<K>, m: map<K, V>) {
    && (forall k :: k in keys <==> k in m)
    && (forall i, j :: 0 <= i < j < |keys| ==> keys[i] != keys[j])
  }

  ghost predicate AllFit(records: Resources) {
    forall k :: k in records ==> IsInt32(k) && Fits(records[k])
  }

  /** ConvertMapToJson. */
  method ConvertMapToJson(records: Resources, keys: seq<int>) returns (root: Json)
    requires forall k :: k in keys ==> k in records
    ensures root == MapToJson(records, keys)
  {
    root := Null;
    var i := 0;
    while i < |keys|
      invariant 0 <= i <= |keys|
      invariant root == MapToJson(records, keys[..i]) && (root.Null? || root.Dict?)
    {
      assert keys[..i + 1][..i] == keys[..i];
      var members := if root.Dict? then root.members else map[];
      root := Dict(members[ToString(keys[i]) := ToJson(records[keys[i]])]);
      i := i + 1;
    }
    assert keys[..|keys|] == keys;
  }

  /** ConvertJsonToMap: a record that cannot be read is stored with its initial values. */
  method ConvertJsonToMap(members: map<string, Json>, names: seq<string>) returns (records: Resources)
    requires forall k :: k in names ==> k in members
    ensures records == MapFromJson(members, names)
  {
    records := map[];
    var i := 0;
    while i < |names|
      invariant 0 <= i <= |names|
      invariant records == MapFromJson(members, names[..i])
    {
      assert names[..i + 1][..i] == names[..i];
      var record := new ResourceApplicationRecord();
      var _ := record.ParseFromJson(members[names[i]]);
      var key := KeyFromText(names[i]);
      if key !in records {
        records := records[key := record.Value()];
      }
      i := i + 1;
    }
    assert names[..|names|] == names;
  }

  lemma KeyRoundTrip(key: int)
    requires IsInt32(key)
    ensures KeyFromText(ToString(key)) == key
  {
    hide Atoi, ToString, AsInt32, TR.AsUint32;
    AtoiOfToString(key);
    CastBack(key);
  }

  /** From `int32_t` to `uint32_t` and back. */
  lemma CastBack(key: int)
    requires IsInt32(key)
    ensures AsInt32(TR.AsUint32(key)) == key
  {
    if key >= 0 {
      assert TR.AsUint32(key) == key;
    } else {
      assert TR.AsUint32(key) == key + 0x1_0000_0000;
      assert (key + 0x1_0000_0000 - INT32_MIN) % 0x1_0000_0000 == key - INT32_MIN;
    }
  }

  lemma {:induction false} WrittenMembers(records: Resources, keys: seq<int>)
    requires forall k :: k in keys ==> k in records
    ensures var j := MapToJson(records, keys);
            if keys == [] then j == Null
            else
              && j.Dict?
              && (forall name :: name in j.members <==> exists k :: k in keys && name == ToString(k))
              && (forall k :: k in keys ==> j.members[ToString(k)] == ToJson(records[k]))
  {
    if keys != [] {
      hide ToJson, ToString;
      var n := |keys| - 1;
      WrittenMembers(records, keys[..n]);
      assert keys == keys[..n] + [keys[n]];
      var j := MapToJson(records, keys);
      forall k | k in keys ensures ToString(k) in j.members && j.members[ToString(k)] == ToJson(records[k]) {
        if ToString(k) == ToString(keys[n]) {
          ToStringInjective(k, keys[n]);
        }
      }
    }
  }

  ghost predicate WrittenFrom(records: Resources, members: map<string, Json>, name: string) {
    name in members && exists k :: k in records && name == ToString(k) && members[name] == ToJson(records[k])
  }

  lemma KeyOfMember(records: Resources, members: map<string, Json>, name: string) returns (key: int)
    requires WrittenFrom(records, members, name)
    ensures name in members && key in records && name == ToString(key) && members[name] == ToJson(records[key])
  {
    key :| key in records && name == ToString(key) && members[name] == ToJson(records[key]);
  }

  /** Any part of the members read back is the corresponding part of the map. */
  lemma {:induction false} ReadMembers(records: Resources, members: map<string, Json>, names: seq<string>)
    requires AllFit(records)
    requires forall name :: name in names ==> name in members
    requires forall name :: name in names ==> WrittenFrom(records, members, name)
    ensures var m := MapFromJson(members, names);
            && (forall k :: k in m ==> k in records && m[k] == records[k])
            && (forall k :: k in records && ToString(k) in names ==> k in m)
  {
    if names != [] {
      hide ReadInto, ToJson, ToString, KeyFromText, Fits, WrittenFrom;
      var n := |names| - 1;
      assert names == names[..n] + [names[n]];
      ReadMembers(records, members, names[..n]);
      assert names[n] in names;
      var key := KeyOfMember(records, members, names[n]);
      KeyRoundTrip(key);
      ResourceRoundTrip(records[key]);
      forall k | k in records && ToString(k) in names ensures k in MapFromJson(members, names) {
        if ToString(k) == names[n] {
          ToStringInjective(k, key);
        }
      }
    }
  }

  lemma ReadWritten(records: Resources, keys: seq<int>, names: seq<string>)
    requires AllFit(records) && Walks(keys, records) && keys != []
    ensures var j := MapToJson(records, keys);
            j.Dict? && (Walks(names, j.members) ==> MapFromJson(j.members, names) == records)
  {
    hide ToJson, MapToJson, MapFromJson, AllFit;
    WrittenMembers(records, keys);
    var j := MapToJson(records, keys);
    if Walks(names, j.members) {
      assert forall name :: name in names ==> name in j.members;
      ReadMembers(records, j.members, names);
      var m := MapFromJson(j.members, names);
      forall k | k in records ensures k in m {
        assert k in keys && ToString(k) in j.members;
        assert ToString(k) in names;
      }
      assert forall k :: k in m ==> k in records;
      assert m.Keys <= records.Keys;
      assert records.Keys <= m.Keys;
      assert forall k :: k in m ==> m[k] == records[k];
    }
  }

  /** One map, written in any order and read in any order, is the same map. */
  lemma MapRoundTrip(records: Resources, keys: seq<int>, names: seq<string>)
    requires AllFit(records) && Walks(keys, records)
    ensures var j := MapToJson(records, keys);
            && (records == map[] ==> j == Null)
            && (records != map[] ==> j.Dict? && (Walks(names, j.members) ==> MapFromJson(j.members, names) == records))
  {
    if keys == [] {
      assert records == map[];
    } else {
      hide MapToJson, MapFromJson, AllFit, Walks;
      NonEmptyWalk(records, keys);
      ReadWritten(records, keys, names);
    }
  }

  lemma NonEmptyWalk(records: Resources, keys: seq<int>)
    requires Walks(keys, records) && keys != []
    ensures records != map[]
  {
    assert keys[0] in keys;
  }

  // ---------------------------------------------------------------- the file

  datatype Both = Both(app: Resources, process: Resources)

  /** ConvertMapToString, without the text. */
  method ConvertMaps(app: Resources, process: Resources, appKeys: seq<int>, processKeys: seq<int>) returns (root: Json)
    requires Walks(appKeys, app) && Walks(processKeys, process)
    ensures root == ResourceFile(Some(MapToJson(app, appKeys)), Some(MapToJson(process, processKeys)))
  {
    var appValue := ConvertMapToJson(app, appKeys);
    var processValue := ConvertMapToJson(process, processKeys);
    root := ResourceFile(Some(appValue), Some(processValue));
  }

  /** The part of the file a map is read from: absent and null both leave the map empty. */
  function ReadPart(part: Slot, names: seq<string>): Resources {
    if part.Some? && part.value.Dict? && (forall k :: k in names ==> k in part.value.members) then
      MapFromJson(part.value.members, names)
    else map[]
  }

  /** The members of a part, in some order. */
  ghost predicate WalksPart(names: seq<string>, part: Slot) {
    part.Some? && part.value.Dict? ==> Walks(names, part.value.members)
  }

  /** DivideJsonToMap. */
  method DivideJsonToMap(root: Json, appNames: seq<string>, processNames: seq<string>) returns (both: Both)
    requires root.ResourceFile? ==> WalksPart(appNames, root.appRecords) && WalksPart(processNames, root.processRecords)
    ensures root.ResourceFile? ==>
              both == Both(ReadPart(root.appRecords, appNames), ReadPart(root.processRecords, processNames))
    ensures !root.ResourceFile? ==> both == Both(map[], map[])
  {
    var app, process: Resources := map[], map[];
    if root.ResourceFile? && root.appRecords.Some? && root.appRecords.value.Dict? {
      app := ConvertJsonToMap(root.appRecords.value.members, appNames);
    }
    if root.ResourceFile? && root.processRecords.Some? && root.processRecords.value.Dict? {
      process := ConvertJsonToMap(root.processRecords.value.members, processNames);
    }
    both := Both(app, process);
  }

  /** Resource map round trip: both maps come back, for every 32-bit key, negative ones included, and
      whether or not a map or a list of units is empty. */
  lemma ResourceFileRoundTrip(app: Resources, process: Resources, appKeys: seq<int>, processKeys: seq<int>,
                              appNames: seq<string>, processNames: seq<string>)
    requires AllFit(app) && AllFit(process) && Walks(appKeys, app) && Walks(processKeys, process)
    requires WalksPart(appNames, Some(MapToJson(app, appKeys)))
    requires WalksPart(processNames, Some(MapToJson(process, processKeys)))
    ensures ReadPart(Some(MapToJson(app, appKeys)), appNames) == app
    ensures ReadPart(Some(MapToJson(process, processKeys)), processNames) == process
  {
    hide MapToJson, MapFromJson, Fits;
    MapRoundTrip(app, appKeys, appNames);
    MapRoundTrip(process, processKeys, processNames);
  }

  /** Writing the two maps and reading the file, as the two callers do. */
  method RefreshThenRestore(app: Resources, process: Resources, appKeys: seq<int>, processKeys: seq<int>,
                            appNames: seq<string>, processNames: seq<string>) returns (both: Both)
    requires AllFit(app) && AllFit(process) && Walks(appKeys, app) && Walks(processKeys, process)
    requires WalksPart(appNames, Some(MapToJson(app, appKeys)))
    requires WalksPart(processNames, Some(MapToJson(process, processKeys)))
    ensures both == Both(app, process)
  {
    var root := ConvertMaps(app, process, appKeys, processKeys);
    both := DivideJsonToMap(root, appNames, processNames);
    ResourceFileRoundTrip(app, process, appKeys, processKeys, appNames, processNames);
  }
}
