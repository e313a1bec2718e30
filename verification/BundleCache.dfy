/** What the manager knows of the modes a bundle declares: the cache of bundle information, what fills and drops it,
    and which modes tasks can hold because of it. A bundle that declares nothing can have audio playback cached. */
module BundleCache {
  import opened Wrappers
  import opened TaskRecord
  import opened Subscribers
  import opened TaskTable
  import opened ModeChecks
  import opened Invariants
  import opened Reachability
  import opened Rules
  import opened Admission
  import opened StartOutcomes
  import D = Decimal

  /** An ability of a bundle, with the modes it declares. */
  datatype Ability = Ability(name: string, modes: set<nat>)

  /** The abilities of each application's bundle. */
  type Bundles = map<int, seq<Ability>>

  /** The cached modes, by ability. */
  type Modes = map<string, set<nat>>

  /** The cached modes of applications. */
  type Cache = map<int, Modes>

  // ---------------------------------------------------------------- the cache

  /** The abilities that declare a mode; of two with one name the first counts. */
  function Collected(abilities: seq<Ability>): Modes {
    if abilities == [] then map[]
    else
      var before, a := Collected(abilities[..|abilities| - 1]), abilities[|abilities| - 1];
      if a.modes == {} || a.name in before then before else before[a.name := a.modes]
  }

  /** AddAbilityBgModeInfos: a component's request for audio is granted that mode when the bundle declares none. */
  function ModeInfos(abilities: seq<Ability>, app: App): Option<Modes> {
    var declared := Collected(abilities);
    if declared != map[] then Some(declared)
    else if OfComponent(app) then Some(map[app.abilityName := {AUDIO_PLAYBACK}])
    else None
  }

  /** SetCachedBundleInfo, with what the bundle manager answers. */
  function Remember(c: Cache, info: Option<seq<Ability>>, app: App): Cache {
    if app.uid in c || info.None? then c
    else
      var modes := ModeInfos(info.value, app);
      if modes.None? then c else c[app.uid := modes.value]
  }

  /** GetBackgroundModeInfo. */
  function Lookup(c: Cache, uid: int, abilityName: string): set<nat> {
    if uid in c && abilityName in c[uid] then c[uid][abilityName] else {}
  }

  /** The same as the source keeps it, a dictionary updated in place. */
  class CachedBundleInfos {
    var infos: Cache

    constructor ()
      ensures infos == map[]
    {
      infos := map[];
    }

    method AddAbilityBgModeInfos(abilities: seq<Ability>, app: App) returns (modes: Modes, ok: bool)
      ensures ok <==> ModeInfos(abilities, app).Some?
      ensures ok ==> Some(modes) == ModeInfos(abilities, app)
    {
      modes := map[];
      for i := 0 to |abilities|
        invariant modes == Collected(abilities[..i])
      {
        assert abilities[..i + 1][..i] == abilities[..i];
        if abilities[i].modes != {} && abilities[i].name !in modes {
          modes := modes[abilities[i].name := abilities[i].modes];
        }
      }
      assert abilities[..|abilities|] == abilities;
      ok := true;
      if modes == map[] {
        if app.innerNotify && app.fromComponent {
          modes := map[app.abilityName := {AUDIO_PLAYBACK}];
        } else {
          ok := false;
        }
      }
    }

    method SetCachedBundleInfo(info: Option<seq<Ability>>, app: App) returns (ok: bool)
      modifies this
      ensures infos == Remember(old(infos), info, app)
      ensures ok <==> app.uid in infos
    {
      if app.uid in infos {
        return true;
      }
      if info.None? {
        return false;
      }
      var modes, added := AddAbilityBgModeInfos(info.value, app);
      if added {
        infos := infos[app.uid := modes];
      }
      return added;
    }

    method GetBackgroundModeInfo(uid: int, abilityName: string) returns (modes: set<nat>)
      ensures modes == Lookup(infos, uid, abilityName)
    {
      if uid in infos {
        if abilityName in infos[uid] {
          return infos[uid][abilityName];
        }
      }
      return {};
    }
  }

  // ---------------------------------------------------------------- the cache, in the abilities' own terms

  /** The i-th ability is the first of this name that declares a mode. */
  predicate FirstDeclares(abilities: seq<Ability>, i: nat, name: string) {
    && i < |abilities| && abilities[i].name == name && abilities[i].modes != {}
    && forall j :: 0 <= j < i ==> abilities[j].name != name || abilities[j].modes == {}
  }

  /** A name has the modes of the first ability of this name that declares any, and no entry when there is none. */
  lemma {:induction false} CollectedExact(abilities: seq<Ability>, name: string)
    ensures var c := Collected(abilities);
            && (forall i :: 0 <= i < |abilities| && FirstDeclares(abilities, i, name) ==>
                  name in c && c[name] == abilities[i].modes)
            && ((forall i :: 0 <= i < |abilities| ==> abilities[i].name != name || abilities[i].modes == {}) ==>
                  name !in c)
            && (name in c ==> exists i :: 0 <= i < |abilities| && FirstDeclares(abilities, i, name))
  {
    if abilities != [] {
      var n := |abilities| - 1;
      CollectedExact(abilities[..n], name);
      assert forall i :: 0 <= i < n ==> (FirstDeclares(abilities[..n], i, name) <==> FirstDeclares(abilities, i, name));
      assert forall i :: 0 <= i < n ==> abilities[..n][i] == abilities[i];
      if name !in Collected(abilities[..n]) {
        NoneDeclares(abilities[..n], name);
        assert name in Collected(abilities) ==> FirstDeclares(abilities, n, name);
      } else {
        var i :| 0 <= i < n && FirstDeclares(abilities[..n], i, name);
        assert FirstDeclares(abilities, i, name);
      }
    }
  }

  lemma {:induction false} NoneDeclares(abilities: seq<Ability>, name: string)
    requires name !in Collected(abilities)
    ensures forall i :: 0 <= i < |abilities| ==> abilities[i].name != name || abilities[i].modes == {}
  {
    if abilities != [] {
      NoneDeclares(abilities[..|abilities| - 1], name);
    }
  }

  predicate SomeDeclares(abilities: seq<Ability>) {
    exists i :: 0 <= i < |abilities| && abilities[i].modes != {}
  }

  lemma SomeCollected(abilities: seq<Ability>)
    ensures Collected(abilities) != map[] <==> SomeDeclares(abilities)
  {
    hide Collected;
    if SomeDeclares(abilities) {
      var i :| 0 <= i < |abilities| && abilities[i].modes != {};
      if abilities[i].name !in Collected(abilities) {
        NoneDeclares(abilities, abilities[i].name);
      }
    }
    if Collected(abilities) != map[] {
      var name :| name in Collected(abilities);
      CollectedExact(abilities, name);
    }
  }

  /** An entry is made once, from bundle information that could be read: the declared modes, or, when there are none, a
      component's audio playback. Nothing else changes. */
  lemma RememberOutcome(c: Cache, info: Option<seq<Ability>>, app: App)
    ensures var c' := Remember(c, info, app);
            && (forall uid :: uid != app.uid ==> (uid in c' <==> uid in c) && (uid in c ==> c'[uid] == c[uid]))
            && if app.uid in c || info.None? then c' == c
               else if SomeDeclares(info.value) then app.uid in c' && c'[app.uid] == Collected(info.value)
               else if app.innerNotify && app.fromComponent then
                 app.uid in c' && c'[app.uid] == map[app.abilityName := {2}]
               else app.uid !in c'
  {
    hide Collected;
    if info.Some? {
      SomeCollected(info.value);
    }
  }

  // ---------------------------------------------------------------- runs with the cache

  /** What the manager handles: a step, with the applications whose bundle can be read at that moment; a changed
      bundle; a change of language. */
  datatype Event = Handled(step: Step, readable: set<int>) | BundleChanged(uid: int) | ResourcesChanged

  datatype World = World(s: State, cache: Cache)

  function InfoOf(b: Bundles, readable: set<int>, uid: int): Option<seq<Ability>> {
    if uid in readable && uid in b then Some(b[uid]) else None
  }

  /** The start gets as far as asking for bundle information. */
  predicate AsksForInfo(s: State, q: Request, env: StartEnv) {
    var r := NewRecord(q);
    && r.app.uid !in s.disabled && Allowed(s, r, env) == Ok && KeyOf(Candidate(s, q)) !in s.tasks
    && (!r.app.inner || r.app.innerNotify)
  }

  /** The cache after part of a restart: filled for the live records that show a notification. */
  function RestoredCache(b: Bundles, readable: set<int>, s: State, order: seq<string>, alive: set<int>,
                         answers: map<string, Answer>): Cache {
    if order == [] then map[]
    else
      var n := |order| - 1;
      var c, t, k := RestoredCache(b, readable, s, order[..n], alive, answers),
                     RestoreRounds(s, order[..n], alive, answers).tasks, order[n];
      if k in t && t[k].app.pid in alive && t[k].notice.id != NO_ID
      then Remember(c, InfoOf(b, readable, t[k].app.uid), t[k].app) else c
  }

  function CacheAfter(b: Bundles, w: World, step: Step, readable: set<int>): Cache {
    match step
    case StartStep(q, env, _) =>
      if AsksForInfo(w.s, q, env) then Remember(w.cache, InfoOf(b, readable, q.uid), NewRecord(q).app) else w.cache
    case LoopStep(job, _) => if job.Cleared? then w.cache - {job.uid} else w.cache
    case RestartStep(alive, _, order, answers) =>
      if alive.Some? then RestoredCache(b, readable, Fresh(w.s), order, alive.value, answers) else map[]
    case _ => w.cache
  }

  /** Which starts look at the bundle: those that nothing stops before, unless a component wants no notification. */
  lemma StartAsks(b: Bundles, w: World, q: Request, env: StartEnv, order: seq<string>, readable: set<int>)
    ensures var r, asked := Candidate(w.s, q), InfoOf(b, readable, q.uid);
            CacheAfter(b, w, StartStep(q, env, order), readable)
            == if q.uid in w.s.disabled || env.preLaunch
                  || (r.app.byRequest && (Crowded(w.s.tasks, r.app.abilityId) || InBackground(w.s, r, env)))
                  || KeyOf(r) in w.s.tasks || (q.InnerRequest? && !q.innerNotify)
               then w.cache else Remember(w.cache, asked, NewRecord(q).app)
  {
    hide Allowed, Crowded, InBackground, KeyOf, Remember, FirstOtherMode;
    CandidateAllowed(w.s, q, env);
  }

  /** A restart looks at the bundles of the tasks whose process is alive and that show a notification. */
  lemma RestartAsks(b: Bundles, readable: set<int>, s: State, order: seq<string>, alive: set<int>,
                    answers: map<string, Answer>)
    requires order != []
    ensures var n := |order| - 1;
            var c, t, k := RestoredCache(b, readable, s, order[..n], alive, answers),
                           RestoreRounds(s, order[..n], alive, answers).tasks, order[n];
            RestoredCache(b, readable, s, order, alive, answers)
            == if k !in t || t[k].app.pid !in alive || t[k].notice.id == -1 then c
               else Remember(c, InfoOf(b, readable, t[k].app.uid), t[k].app)
  {
    hide RestoreRounds, Remember;
  }

  function Next(b: Bundles, w: World, e: Event): World {
    match e
    case Handled(step, readable) => World(Apply(w.s, step), CacheAfter(b, w, step, readable))
    case BundleChanged(uid) => w.(cache := w.cache - {uid})
    case ResourcesChanged => w.(cache := map[])
  }

  function After(b: Bundles, events: seq<Event>): World {
    if events == [] then World(INIT, map[]) else Next(b, After(b, events[..|events| - 1]), events[|events| - 1])
  }

  /** A changed bundle and cleared data drop the application's entry, a change of language drops all, and a restart
      that cannot read the process list starts with none. */
  lemma EntriesDropped(b: Bundles, w: World, uid: int, u: int, order: seq<string>, readable: set<int>,
                       reported: Option<set<int>>, answers: map<string, Answer>)
    ensures var c := Next(b, w, BundleChanged(uid)).cache; u in c <==> u in w.cache && u != uid
    ensures var c := Next(b, w, Handled(LoopStep(Cleared(uid), order), readable)).cache;
            (u in c <==> u in w.cache && u != uid) && (u in c ==> c[u] == w.cache[u])
    ensures u !in Next(b, w, ResourcesChanged).cache
    ensures u !in Next(b, w, Handled(RestartStep(None, reported, order, answers), readable)).cache
  {
    hide Loop, Restart, Remember, RestoredCache;
  }

  /** The mode checks of the step see what is cached. An update by id looks its caller up. */
  ghost predicate Informed(b: Bundles, w: World, e: Event) {
    match e
    case Handled(step, readable) =>
      (match step
       case StartStep(q, env, _) =>
         env.configured == Lookup(CacheAfter(b, w, step, readable), q.uid, q.abilityName)
       case UpdateByIdStep(caller, p, env, order) =>
         var k := First(w.s.tasks, order, ByIdAndRequest(p.taskId));
         k.Some? && k.value in w.s.tasks ==>
           env.configured == Lookup(w.cache, caller, w.s.tasks[k.value].app.abilityName)
       case UpdateByKeyStep(k, p, env, _) =>
         k in w.s.tasks ==>
           env.configured == Lookup(w.cache, w.s.tasks[k].app.uid, w.s.tasks[k].app.abilityName)
       case _ => true)
    case _ => true
  }

  ghost predicate InformedRun(b: Bundles, events: seq<Event>) {
    if events == [] then true
    else InformedRun(b, events[..|events| - 1]) && Informed(b, After(b, events[..|events| - 1]), events[|events| - 1])
  }

  /** Who updates a task by its id owns it. */
  ghost predicate Owned(s: State, e: Event) {
    e.Handled? && e.step.UpdateByIdStep? ==>
      var k := First(s.tasks, e.step.order, ByIdAndRequest(e.step.p.taskId));
      k.Some? && k.value in s.tasks ==> e.step.caller == s.tasks[k.value].app.uid
  }

  ghost predicate OwnedRun(b: Bundles, events: seq<Event>) {
    if events == [] then true
    else OwnedRun(b, events[..|events| - 1]) && Owned(After(b, events[..|events| - 1]).s, events[|events| - 1])
  }

  /** The steps among the events. */
  function Steps(events: seq<Event>): seq<Step> {
    if events == [] then []
    else
      var before, e := Steps(events[..|events| - 1]), events[|events| - 1];
      if e.Handled? then before + [e.step] else before
  }

  lemma {:induction false} StepsRun(b: Bundles, events: seq<Event>)
    ensures After(b, events).s == Run(INIT, Steps(events))
  {
    hide Apply, CacheAfter;
    if events != [] {
      var before, e := events[..|events| - 1], events[|events| - 1];
      StepsRun(b, before);
      if e.Handled? {
        assert (Steps(before) + [e.step])[..|Steps(before)|] == Steps(before);
      }
    }
  }

  // ---------------------------------------------------------------- what can be cached

  function AbilitiesOf(b: Bundles, uid: int): seq<Ability> {
    if uid in b then b[uid] else []
  }

  predicate DeclaresNothing(b: Bundles, uid: int) {
    Collected(AbilitiesOf(b, uid)) == map[]
  }

  function DeclaredModes(b: Bundles, uid: int, abilityName: string): set<nat> {
    var modes := Collected(AbilitiesOf(b, uid));
    if abilityName in modes then modes[abilityName] else {}
  }

  function Named(b: Bundles): set<(int, string)> {
    set uid, i | uid in b && 0 <= i < |b[uid]| :: (uid, b[uid][i].name)
  }

  /** What the bundles declare. */
  function Declaration(b: Bundles): Config {
    map p | p in Named(b) :: DeclaredModes(b, p.0, p.1)
  }

  /** What may be cached once components have asked for these abilities. */
  function Available(b: Bundles, asked: set<(int, string)>): Config {
    map p | p in Named(b) + asked ::
      if DeclaresNothing(b, p.0) && p in asked then {AUDIO_PLAYBACK} else DeclaredModes(b, p.0, p.1)
  }

  /** What is collected for a name is what an ability of that name declares. */
  lemma {:induction false} CollectedFrom(abilities: seq<Ability>, name: string)
    ensures var c := Collected(abilities);
            name in c ==> exists i :: 0 <= i < |abilities| && abilities[i].name == name && abilities[i].modes == c[name]
  {
    if abilities != [] {
      var n, c := |abilities| - 1, Collected(abilities);
      CollectedFrom(abilities[..n], name);
      if name in Collected(abilities[..n]) {
        var i :| 0 <= i < n && abilities[..n][i].name == name && abilities[..n][i].modes == c[name];
        assert abilities[i].name == name && abilities[i].modes == c[name];
      }
    }
  }

  lemma DeclarationIs(b: Bundles, uid: int, name: string)
    ensures ConfigOf(Declaration(b), uid, name) == DeclaredModes(b, uid, name)
  {
    hide Collected;
    CollectedFrom(AbilitiesOf(b, uid), name);
    if name in Collected(AbilitiesOf(b, uid)) {
      var i :| 0 <= i < |AbilitiesOf(b, uid)| && AbilitiesOf(b, uid)[i].name == name;
      assert (uid, b[uid][i].name) in Named(b);
    }
  }

  lemma AvailableIs(b: Bundles, asked: set<(int, string)>, uid: int, name: string)
    ensures ConfigOf(Available(b, asked), uid, name)
         == if DeclaresNothing(b, uid) && (uid, name) in asked then {AUDIO_PLAYBACK} else DeclaredModes(b, uid, name)
  {
    hide Collected, DeclaresNothing;
    DeclarationIs(b, uid, name);
  }

  /** Every cached entry is what the bundle declares, or, for a bundle that declares nothing, audio playback for an
      ability that a component has asked for. */
  ghost predicate CacheOk(b: Bundles, asked: set<(int, string)>, c: Cache) {
    forall uid :: uid in c ==>
      if DeclaresNothing(b, uid) then exists name :: (uid, name) in asked && c[uid] == map[name := {AUDIO_PLAYBACK}]
      else c[uid] == Collected(AbilitiesOf(b, uid))
  }

  lemma RememberOk(b: Bundles, asked: set<(int, string)>, c: Cache, readable: set<int>, app: App)
    requires CacheOk(b, asked, c) && (OfComponent(app) ==> (app.uid, app.abilityName) in asked)
    ensures CacheOk(b, asked, Remember(c, InfoOf(b, readable, app.uid), app))
  {
    hide Collected, OfComponent;
  }

  lemma {:induction false} RestoredCacheOk(b: Bundles, asked: set<(int, string)>, readable: set<int>, s: State,
                                           order: seq<string>, alive: set<int>, answers: map<string, Answer>)
    requires AllObey(ByComponents(asked), s.tasks)
    ensures CacheOk(b, asked, RestoredCache(b, readable, s, order, alive, answers))
  {
    hide Remember, CacheOk, RestoreRounds, OfComponent;
    if order == [] {
      EmptyCacheOk(b, asked);
    } else {
      var n := |order| - 1;
      RestoredCacheOk(b, asked, readable, s, order[..n], alive, answers);
      RestoreRoundsObey(s, order[..n], alive, answers, ByComponents(asked));
      var t, k := RestoreRounds(s, order[..n], alive, answers).tasks, order[n];
      if k in t {
        assert Obeys(ByComponents(asked), t[k]);
        RememberOk(b, asked, RestoredCache(b, readable, s, order[..n], alive, answers), readable, t[k].app);
      }
    }
  }

  lemma EmptyCacheOk(b: Bundles, asked: set<(int, string)>)
    ensures CacheOk(b, asked, map[])
  {
  }

  lemma DroppedOk(b: Bundles, asked: set<(int, string)>, c: Cache, uid: int)
    requires CacheOk(b, asked, c)
    ensures CacheOk(b, asked, c - {uid})
  {
    hide Collected, DeclaresNothing;
  }

  /** What a step may add to the abilities components have asked for. */
  predicate AsksAmong(step: Step, asked: set<(int, string)>) {
    step.StartStep? && OfComponent(NewRecord(step.q).app) ==> (step.q.uid, step.q.abilityName) in asked
  }

  lemma CacheAfterOk(b: Bundles, asked: set<(int, string)>, w: World, step: Step, readable: set<int>)
    requires CacheOk(b, asked, w.cache) && AllObey(ByComponents(asked), ReadTable(w.s.disk)) && AsksAmong(step, asked)
    ensures CacheOk(b, asked, CacheAfter(b, w, step, readable))
  {
    hide Remember, CacheOk, AsksForInfo, RestoredCache, OfComponent, NewRecord, ReadTable;
    match step
    case StartStep(q, env, _) =>
      NewRecordNames(q);
      RememberOk(b, asked, w.cache, readable, NewRecord(q).app);
    case LoopStep(job, _) =>
      if job.Cleared? {
        DroppedOk(b, asked, w.cache, job.uid);
      }
    case RestartStep(alive, _, order, answers) =>
      EmptyCacheOk(b, asked);
      if alive.Some? {
        RestoredCacheOk(b, asked, readable, Fresh(w.s), order, alive.value, answers);
      }
    case _ =>
  }

  lemma LookupBound(b: Bundles, asked: set<(int, string)>, c: Cache, uid: int, name: string)
    requires CacheOk(b, asked, c)
    ensures Lookup(c, uid, name) <= ConfigOf(Available(b, asked), uid, name)
  {
    hide Collected, Available;
    AvailableIs(b, asked, uid, name);
  }

  // ---------------------------------------------------------------- declared modes over whole runs

  /** The abilities components ask for among these events. */
  function Asked(events: seq<Event>): set<(int, string)> {
    set i | 0 <= i < |events| && events[i].Handled? && events[i].step.StartStep?
            && OfComponent(NewRecord(events[i].step.q).app)
      :: (events[i].step.q.uid, events[i].step.q.abilityName)
  }

  ghost predicate AllAskAmong(events: seq<Event>, asked: set<(int, string)>) {
    forall i :: 0 <= i < |events| && events[i].Handled? ==> AsksAmong(events[i].step, asked)
  }

  lemma AskedIsAsked(events: seq<Event>)
    ensures AllAskAmong(events, Asked(events))
  {
    hide OfComponent, NewRecord;
  }

  lemma ComponentDemands(s: State, step: Step, asked: set<(int, string)>)
    requires AsksAmong(step, asked)
    ensures Demands(ByComponents(asked), s, step)
  {
    hide OfComponent, NewRecord, First;
    if step.StartStep? {
      NewRecordNames(step.q);
    }
  }

  /** Over every run: what is cached is declared, or the fallback for a component that has asked for it. */
  lemma {:induction false} RunCached(b: Bundles, events: seq<Event>, asked: set<(int, string)>)
    requires AllAskAmong(events, asked)
    ensures CacheOk(b, asked, After(b, events).cache) && Holds(ByComponents(asked), After(b, events).s)
  {
    hide CacheOk, Holds, Apply, CacheAfter, AsksAmong;
    if events == [] {
      EmptyCacheOk(b, asked);
      InitHolds(ByComponents(asked));
    } else {
      var before, e := events[..|events| - 1], events[|events| - 1];
      RunCached(b, before, asked);
      NextCached(b, After(b, before), e, asked);
    }
  }

  lemma NextCached(b: Bundles, w: World, e: Event, asked: set<(int, string)>)
    requires CacheOk(b, asked, w.cache) && Holds(ByComponents(asked), w.s)
    requires e.Handled? ==> AsksAmong(e.step, asked)
    ensures var w' := Next(b, w, e); CacheOk(b, asked, w'.cache) && Holds(ByComponents(asked), w'.s)
  {
    hide CacheOk, AllObey, Apply, CacheAfter, AsksAmong, Demands, ReadTable;
    match e
    case Handled(step, readable) =>
      ComponentDemands(w.s, step, asked);
      StepHolds(w.s, step, ByComponents(asked));
      CacheAfterOk(b, asked, w, step, readable);
    case BundleChanged(uid) => DroppedOk(b, asked, w.cache, uid);
    case ResourcesChanged => EmptyCacheOk(b, asked);
  }

  /** Modes are bit positions. */
  predicate BitModes(b: Bundles) {
    forall uid, i, m :: uid in b && 0 <= i < |b[uid]| && m in b[uid][i].modes ==> m <= D.INT32_MAX
  }

  lemma DeclaredModesSmall(b: Bundles, uid: int, name: string, m: nat)
    requires BitModes(b) && m in DeclaredModes(b, uid, name)
    ensures m <= D.INT32_MAX
  {
    hide Collected;
    CollectedFrom(AbilitiesOf(b, uid), name);
  }

  lemma AvailableSmall(b: Bundles, asked: set<(int, string)>)
    requires BitModes(b)
    ensures SmallConfig(Available(b, asked)) && SmallConfig(Declaration(b))
  {
    hide DeclaredModes, DeclaresNothing, BitModes;
    forall p, m | p in Available(b, asked) && m in Available(b, asked)[p] ensures m <= D.INT32_MAX {
      if m in DeclaredModes(b, p.0, p.1) {
        DeclaredModesSmall(b, p.0, p.1, m);
      }
    }
    forall p, m | p in Declaration(b) && m in Declaration(b)[p] ensures m <= D.INT32_MAX {
      DeclaredModesSmall(b, p.0, p.1, m);
    }
  }

  /** A step that sees what is cached sees part of what may be cached. */
  lemma InformedDemands(b: Bundles, w: World, e: Event, asked: set<(int, string)>)
    requires CacheOk(b, asked, w.cache) && Holds(ByComponents(asked), w.s) && BitModes(b)
    requires e.Handled? && AsksAmong(e.step, asked) && Informed(b, w, e) && Owned(w.s, e)
    ensures Demands(Declared(Available(b, asked)), w.s, e.step)
  {
    hide CacheOk, AllObey, CacheAfter, AsksAmong, Available, Lookup, SmallConfig, BitModes, First, ReadTable;
    var c' := CacheAfter(b, w, e.step, e.readable);
    CacheAfterOk(b, asked, w, e.step, e.readable);
    AvailableSmall(b, asked);
    match e.step {
      case StartStep(q, _, _) => LookupBound(b, asked, c', q.uid, q.abilityName);
      case UpdateByIdStep(caller, p, _, order) =>
        var k := First(w.s.tasks, order, ByIdAndRequest(p.taskId));
        if k.Some? && k.value in w.s.tasks {
          LookupBound(b, asked, w.cache, caller, w.s.tasks[k.value].app.abilityName);
        }
      case UpdateByKeyStep(k, _, _, _) =>
        if k in w.s.tasks {
          LookupBound(b, asked, w.cache, w.s.tasks[k].app.uid, w.s.tasks[k].app.abilityName);
        }
      case _ =>
    }
  }

  lemma {:induction false} RunAvailable(b: Bundles, events: seq<Event>, asked: set<(int, string)>)
    requires InformedRun(b, events) && OwnedRun(b, events) && BitModes(b) && AllAskAmong(events, asked)
    ensures Holds(Declared(Available(b, asked)), After(b, events).s)
  {
    hide Holds, Apply, CacheAfter, AsksAmong, BitModes, Informed, Owned, Demands, CacheOk, Available;
    if events == [] {
      InitHolds(Declared(Available(b, asked)));
    } else {
      var before, e := events[..|events| - 1], events[|events| - 1];
      RunAvailable(b, before, asked);
      if e.Handled? {
        RunCached(b, before, asked);
        InformedDemands(b, After(b, before), e, asked);
        StepHolds(After(b, before).s, e.step, Declared(Available(b, asked)));
      }
    }
  }

  /** The bundle declares no mode at all, and a component has asked for audio for this ability. */
  ghost predicate Fallback(b: Bundles, events: seq<Event>, uid: int, abilityName: string) {
    DeclaresNothing(b, uid) && (uid, abilityName) in Asked(events)
  }

  lemma AvailableMode(b: Bundles, events: seq<Event>, app: App, mode: nat)
    requires IsDeclared(Available(b, Asked(events)), app, mode)
    ensures || IsDeclared(Declaration(b), app, mode)
            || (mode == AUDIO_PLAYBACK && Fallback(b, events, app.uid, app.abilityName))
  {
    hide Available, Declaration, DeclaredModes, DeclaresNothing, Asked;
    AvailableIs(b, Asked(events), app.uid, app.abilityName);
    DeclarationIs(b, app.uid, app.abilityName);
  }

  /** Declared modes over all runs, with the cache filled and dropped as it happens to be: every mode of every
      new-interface task is declared by its bundle, or covered by the combined audio and recording mode, or is audio
      playback of an ability for which a component has asked while its bundle declares nothing. */
  lemma RunDeclared(b: Bundles, events: seq<Event>, k: string, i: nat)
    requires InformedRun(b, events) && OwnedRun(b, events) && BitModes(b)
    ensures var t := After(b, events).s.tasks;
            k in t && t[k].app.newApi && !t[k].app.inner && i < |t[k].work.modes| ==>
              || IsDeclared(Declaration(b), t[k].app, t[k].work.modes[i])
              || (t[k].work.modes[i] == AUDIO_PLAYBACK && Fallback(b, events, t[k].app.uid, t[k].app.abilityName))
  {
    hide InformedRun, OwnedRun, BitModes, After, IsDeclared, Fallback, ReadTable, Asked, Available, Declaration;
    AskedIsAsked(events);
    RunAvailable(b, events, Asked(events));
    var t := After(b, events).s.tasks;
    if k in t && t[k].app.newApi && !t[k].app.inner && i < |t[k].work.modes| {
      assert Obeys(Declared(Available(b, Asked(events))), t[k]);
      AvailableMode(b, events, t[k].app, t[k].work.modes[i]);
    }
  }

  // ---------------------------------------------------------------- exactly when an undeclared mode gets in

  /** The fallback is cached for this ability. */
  predicate FallbackCached(b: Bundles, c: Cache, uid: int, abilityName: string) {
    DeclaresNothing(b, uid) && uid in c && abilityName in c[uid]
  }

  /** Accepted modes are declared exactly when none was asked for or the cache holds no fallback. */
  lemma CheckedExact(b: Bundles, asked: set<(int, string)>, c: Cache, r: Record, modes: seq<nat>, keeping: bool,
                     special: Status)
    requires CacheOk(b, asked, c)
    requires AllPass(modes, r.app, Lookup(c, r.app.uid, r.app.abilityName), keeping, special)
    ensures AllDeclared(Declaration(b), r.app, modes)
       <==> modes == [] || !FallbackCached(b, c, r.app.uid, r.app.abilityName)
  {
    hide AllPass, Declaration, Collected;
    DeclarationIs(b, r.app.uid, r.app.abilityName);
    if !FallbackCached(b, c, r.app.uid, r.app.abilityName) {
      CheckedDeclared(Declaration(b), Lookup(c, r.app.uid, r.app.abilityName), modes, r, keeping, special);
    } else if modes != [] {
      assert !IsDeclared(Declaration(b), r.app, modes[0]);
    }
  }

  /** A start keeps the rule that modes are declared exactly when a guard stops it, it is not a new-interface
      request, asks for nothing, or the cache, after its own entry, holds no fallback for its ability. */
  lemma StartDeclaredExact(b: Bundles, asked: set<(int, string)>, w: World, q: Request, env: StartEnv,
                           order: seq<string>, readable: set<int>)
    requires FreshIds(w.s.tasks, w.s.nextTask) && IsWalk(order, w.s.tasks) && BitModes(b)
    requires AllObey(Declared(Declaration(b)), w.s.tasks)
    requires var c := CacheAfter(b, w, StartStep(q, env, order), readable);
             CacheOk(b, asked, c) && env.configured == Lookup(c, q.uid, q.abilityName)
    ensures var c := CacheAfter(b, w, StartStep(q, env, order), readable);
            AllObey(Declared(Declaration(b)), Start(w.s, q, env, order).s.tasks)
            <==> || !Accepts(w.s, q, env) || q.InnerRequest? || !q.newApi || NewRecord(q).work.modes == []
                 || !FallbackCached(b, c, q.uid, q.abilityName)
  {
    hide FreshIds, IsWalk, BitModes, AllObey, CacheOk, Start, CacheAfter, Declaration, AllPass, AllDeclared,
      FallbackCached, SmallConfig, Lookup;
    var c, r := CacheAfter(b, w, StartStep(q, env, order), readable), Candidate(w.s, q);
    StartExact(w.s, q, env, order, Declared(Declaration(b)));
    RequestKinds(w.s, q);
    if Accepts(w.s, q, env) && r.app.newApi && !r.app.inner {
      AcceptedModes(w.s, q, env);
      CheckedExact(b, asked, c, r, r.work.modes, env.keeping, env.special);
      if AllDeclared(Declaration(b), r.app, r.work.modes) {
        AvailableSmall(b, asked);
        DeclaredAreSmall(Declaration(b), r.app, r.work.modes);
      }
    }
  }

  lemma RequestKinds(s: State, q: Request)
    ensures var r := Candidate(s, q);
            && r.app.uid == q.uid && r.app.abilityName == q.abilityName && r.work == NewRecord(q).work
            && (r.app.inner <==> q.InnerRequest?) && (q.AppRequest? ==> r.app.newApi == q.newApi)
  {
  }

  lemma AcceptedModes(s: State, q: Request, env: StartEnv)
    requires Accepts(s, q, env) && Candidate(s, q).app.newApi && !Candidate(s, q).app.inner
    ensures var r := Candidate(s, q);
            AllPass(r.work.modes, r.app, env.configured, env.keeping, env.special)
  {
    hide AllPass, KeyOf, MayApply, Mergeable, CanMerge, Publishable, NewRecord, WithTaskId;
  }

  lemma DeclaredAreSmall(config: Config, app: App, modes: seq<nat>)
    requires AllDeclared(config, app, modes) && SmallConfig(config)
    ensures Small(modes)
  {
  }

  /** An update by the owner of the task, likewise: the new modes are declared exactly when there is none or the
      cache holds no fallback for the ability. */
  lemma OwnerUpdateExact(b: Bundles, asked: set<(int, string)>, w: World, p: UpdateParam, env: UpdateEnv, k: string)
    requires CacheOk(b, asked, w.cache) && k in w.s.tasks
    requires var app := w.s.tasks[k].app; env.configured == Lookup(w.cache, app.uid, app.abilityName)
    requires Replaces(w.s, w.s.tasks[k].app.uid, p, env, w.s.tasks[k])
    ensures var app := w.s.tasks[k].app;
            AllDeclared(Declaration(b), app, p.modes)
            <==> p.modes == [] || !FallbackCached(b, w.cache, app.uid, app.abilityName)
  {
    hide CacheOk, AllPass, AllDeclared, FallbackCached, Declaration, Lookup;
    CheckedExact(b, asked, w.cache, w.s.tasks[k], p.modes, env.keeping, env.special);
  }
}
