/** The execution host's view of deployed functions: a registry keyed by topic, fed by snapshots and deltas. */
module HostConfig {
  import opened Basics

  type Topic = string

  datatype AppId = AppId(namespace: string, name: string)

  datatype WorldType = MessageWorld | HttpWorld

  datatype FunctionConfig = FunctionConfig(
    name: string, moduleRef: string, worldType: int, topic: Option<Topic>, sqlUsername: Option<string>)

  datatype ApplicationConfig = ApplicationConfig(
    id: AppId, functions: seq<FunctionConfig>, keyValue: bool, metrics: seq<string>)

  datatype FunctionEntry = FunctionEntry(
    app: AppId, name: string, moduleRef: string, world: WorldType, sqlUsername: Option<string>, kvEnabled: bool,
    metrics: seq<string>)

  type Registry = map<Topic, FunctionEntry>

  datatype ModuleKey = ModuleKey(app: AppId, name: string)

  datatype Load = Load(key: ModuleKey, moduleRef: string)

  /** One element of an incremental batch; a missing configuration is ignored. */
  datatype Update = Update(config: Option<ApplicationConfig>, delete: bool)

  /** The registry, the loads in order, and the evictions of a batch so far. */
  datatype Progress = Progress(entries: Registry, load: seq<Load>, evict: set<ModuleKey>)

  // ------------------------------------------------------------ specification

  function EntryFrom(app: ApplicationConfig, f: FunctionConfig): FunctionEntry {
    FunctionEntry(app.id, f.name, f.moduleRef, if f.worldType == 1 then HttpWorld else MessageWorld,
                  f.sqlUsername, app.keyValue, app.metrics)
  }

  function KeyOf(e: FunctionEntry): ModuleKey {
    ModuleKey(e.app, e.name)
  }

  function LoadOf(e: FunctionEntry): Load {
    Load(KeyOf(e), e.moduleRef)
  }

  function Put(m: Registry, app: ApplicationConfig, fs: seq<FunctionConfig>): Registry {
    if fs == [] then m
    else
      var f := fs[|fs| - 1];
      var before := Put(m, app, fs[..|fs| - 1]);
      if f.topic.Some? then before[f.topic.value := EntryFrom(app, f)] else before
  }

  function Full(apps: seq<ApplicationConfig>): Registry {
    if apps == [] then map[]
    else Put(Full(apps[..|apps| - 1]), apps[|apps| - 1], apps[|apps| - 1].functions)
  }

  function Without(m: Registry, id: AppId): Registry {
    map t | t in m && m[t].app != id :: m[t]
  }

  function KeysOf(m: Registry, id: AppId): set<ModuleKey> {
    set t | t in m && m[t].app == id :: KeyOf(m[t])
  }

  /** Functions of other applications whose topic this one takes. */
  function Stolen(m: Registry, app: ApplicationConfig, fs: seq<FunctionConfig>): set<ModuleKey> {
    if fs == [] then {}
    else
      var f := fs[|fs| - 1];
      Stolen(m, app, fs[..|fs| - 1]) +
      if f.topic.Some? && f.topic.value in m && m[f.topic.value].app != app.id then {KeyOf(m[f.topic.value])} else {}
  }

  function Loads(app: ApplicationConfig, fs: seq<FunctionConfig>): seq<Load> {
    if fs == [] then []
    else
      var f := fs[|fs| - 1];
      Loads(app, fs[..|fs| - 1]) + if f.topic.Some? then [LoadOf(EntryFrom(app, f))] else []
  }

  function Clear(p: Progress, id: AppId): Progress {
    Progress(Without(p.entries, id), p.load, p.evict + KeysOf(p.entries, id))
  }

  function Upsert(p: Progress, app: ApplicationConfig): Progress {
    var c := Clear(p, app.id);
    Progress(Put(c.entries, app, app.functions), c.load + Loads(app, app.functions),
             c.evict + Stolen(c.entries, app, app.functions))
  }

  function Apply(p: Progress, u: Update): Progress {
    if u.config.None? then p
    else if u.delete then Clear(p, u.config.value.id)
    else Upsert(p, u.config.value)
  }

  function ApplyAll(p: Progress, us: seq<Update>): Progress {
    if us == [] then p else Apply(ApplyAll(p, us[..|us| - 1]), us[|us| - 1])
  }

  /** Entries whose topic a snapshot no longer declares. */
  function Gone(m: Registry, incoming: Registry): set<ModuleKey> {
    set t | t in m && t !in incoming :: KeyOf(m[t])
  }

  ghost function Reachable(m: Registry): set<ModuleKey> {
    set t | t in m :: KeyOf(m[t])
  }

  ghost function Loaded(load: seq<Load>): set<ModuleKey> {
    set l | l in load :: l.key
  }

  // ------------------------------------------------------------ what a declaration means

  predicate Declares(f: FunctionConfig, t: Topic) {
    f.topic == Some(t)
  }

  /** An entry that says what the configuration says of the function. */
  predicate Serves(e: FunctionEntry, app: ApplicationConfig, f: FunctionConfig) {
    && e.app == app.id && e.name == f.name && e.moduleRef == f.moduleRef
    && (e.world.HttpWorld? <==> f.worldType == 1)
    && e.sqlUsername == f.sqlUsername && e.kvEnabled == app.keyValue && e.metrics == app.metrics
  }

  /** The request to load the function's module. */
  predicate Requests(l: Load, app: ApplicationConfig, f: FunctionConfig) {
    l.key.app == app.id && l.key.name == f.name && l.moduleRef == f.moduleRef
  }

  ghost predicate Requested(load: seq<Load>, app: ApplicationConfig, f: FunctionConfig) {
    exists l :: l in load && Requests(l, app, f)
  }

  /** The last function of the list to declare this topic. */
  predicate LastOf(fs: seq<FunctionConfig>, i: int, t: Topic) {
    0 <= i < |fs| && Declares(fs[i], t) && forall j :: i < j < |fs| ==> !Declares(fs[j], t)
  }

  predicate Mentions(app: ApplicationConfig, t: Topic) {
    exists f :: 0 <= f < |app.functions| && Declares(app.functions[f], t)
  }

  /** The last function of a snapshot to declare this topic. */
  predicate LastIn(apps: seq<ApplicationConfig>, i: int, f: int, t: Topic) {
    && 0 <= i < |apps| && LastOf(apps[i].functions, f, t)
    && forall j :: i < j < |apps| ==> !Mentions(apps[j], t)
  }

  /** An update that takes the topic away, or replaces or removes the application. */
  predicate Disturbs(u: Update, id: AppId, t: Topic) {
    u.config.Some? && (u.config.value.id == id || (!u.delete && Mentions(u.config.value, t)))
  }

  /** The last word of a batch on this topic. */
  predicate LastWord(us: seq<Update>, i: int, f: int, t: Topic) {
    && 0 <= i < |us| && us[i].config.Some? && !us[i].delete && LastOf(us[i].config.value.functions, f, t)
    && forall j :: i < j < |us| ==> !Disturbs(us[j], us[i].config.value.id, t)
  }

  lemma PutServes(m: Registry, app: ApplicationConfig, fs: seq<FunctionConfig>, t: Topic)
    requires fs != []
    ensures var f, before := fs[|fs| - 1], Put(m, app, fs[..|fs| - 1]); var r := Put(m, app, fs);
      if Declares(f, t) then t in r && Serves(r[t], app, f)
      else (t in r <==> t in before) && (t in r ==> r[t] == before[t])
  {
  }

  lemma LastExtends(fs: seq<FunctionConfig>, i: int, t: Topic)
    requires fs != [] && LastOf(fs, i, t)
    ensures var n := |fs| - 1; if i == n then Declares(fs[n], t) else LastOf(fs[..n], i, t) && !Declares(fs[n], t)
  {
  }

  lemma {:induction false} PutServesAt(m: Registry, app: ApplicationConfig, fs: seq<FunctionConfig>, i: int, t: Topic)
    requires LastOf(fs, i, t)
    ensures t in Put(m, app, fs) && Serves(Put(m, app, fs)[t], app, fs[i])
    decreases |fs|
  {
    LastExtends(fs, i, t);
    PutServes(m, app, fs, t);
    hide Put, Serves, LastOf;
    if i < |fs| - 1 {
      PutServesAt(m, app, fs[..|fs| - 1], i, t);
    }
  }

  lemma {:induction false} PutLeavesRest(m: Registry, app: ApplicationConfig, fs: seq<FunctionConfig>, t: Topic)
    requires forall i :: 0 <= i < |fs| ==> !Declares(fs[i], t)
    ensures (t in Put(m, app, fs) <==> t in m) && (t in m ==> Put(m, app, fs)[t] == m[t])
    decreases |fs|
  {
    if fs != [] {
      PutServes(m, app, fs, t);
      hide Put, Serves, Declares;
      PutLeavesRest(m, app, fs[..|fs| - 1], t);
    }
  }

  /** The last declaration decides; a topic nobody declares keeps its entry. */
  lemma PutServesLast(m: Registry, app: ApplicationConfig, fs: seq<FunctionConfig>, t: Topic)
    ensures forall i :: LastOf(fs, i, t) ==> t in Put(m, app, fs) && Serves(Put(m, app, fs)[t], app, fs[i])
    ensures (forall i :: 0 <= i < |fs| ==> !Declares(fs[i], t)) ==>
      (t in Put(m, app, fs) <==> t in m) && (t in m ==> Put(m, app, fs)[t] == m[t])
  {
    hide Put, Serves, Declares;
    forall i | LastOf(fs, i, t)
      ensures t in Put(m, app, fs) && Serves(Put(m, app, fs)[t], app, fs[i])
    {
      PutServesAt(m, app, fs, i, t);
    }
    if forall i :: 0 <= i < |fs| ==> !Declares(fs[i], t) {
      PutLeavesRest(m, app, fs, t);
    }
  }

  lemma {:induction false} LoadsRequest(app: ApplicationConfig, fs: seq<FunctionConfig>, i: nat)
    requires i < |fs| && fs[i].topic.Some?
    ensures Requested(Loads(app, fs), app, fs[i])
    decreases |fs|
  {
    var n := |fs| - 1;
    if i == n {
      var l := LoadOf(EntryFrom(app, fs[n]));
      assert Loads(app, fs)[|Loads(app, fs[..n])|] == l;
      assert l in Loads(app, fs) && Requests(l, app, fs[i]);
    } else {
      LoadsRequest(app, fs[..n], i);
      var l :| l in Loads(app, fs[..n]) && Requests(l, app, fs[..n][i]);
      assert l in Loads(app, fs);
    }
  }

  /** Among functions of which some declare a topic, one is the last to. */
  lemma {:induction false} LastDeclared(fs: seq<FunctionConfig>, f: int, t: Topic) returns (i: int)
    requires 0 <= f < |fs| && Declares(fs[f], t)
    ensures LastOf(fs, i, t)
    decreases |fs|
  {
    var n := |fs| - 1;
    if Declares(fs[n], t) {
      i := n;
    } else {
      i := LastDeclared(fs[..n], f, t);
      assert forall j :: 0 <= j < n ==> fs[..n][j] == fs[j];
    }
  }

  lemma {:induction false} FullServesAt(apps: seq<ApplicationConfig>, i: int, f: int, t: Topic)
    requires LastIn(apps, i, f, t)
    ensures t in Full(apps) && Serves(Full(apps)[t], apps[i], apps[i].functions[f])
    decreases |apps|
  {
    var n := |apps| - 1;
    PutServesLast(Full(apps[..n]), apps[n], apps[n].functions, t);
    hide Put, Serves, Declares;
    if i < n {
      assert !Mentions(apps[n], t) && LastIn(apps[..n], i, f, t);
      FullServesAt(apps[..n], i, f, t);
    }
  }

  lemma {:induction false} FullServesOnly(apps: seq<ApplicationConfig>, t: Topic) returns (i: int, f: int)
    requires t in Full(apps)
    ensures LastIn(apps, i, f, t)
    decreases |apps|
  {
    var n := |apps| - 1;
    var last := apps[n];
    if Mentions(last, t) {
      var g :| 0 <= g < |last.functions| && Declares(last.functions[g], t);
      i := n;
      f := LastDeclared(last.functions, g, t);
    } else {
      PutServesLast(Full(apps[..n]), last, last.functions, t);
      hide Put, Serves, Declares;
      i, f := FullServesOnly(apps[..n], t);
    }
  }

  /** A snapshot serves each topic by the last function that declares it, and only those topics. */
  lemma FullServesLast(apps: seq<ApplicationConfig>, t: Topic)
    ensures forall i, f :: LastIn(apps, i, f, t) ==>
      t in Full(apps) && Serves(Full(apps)[t], apps[i], apps[i].functions[f])
    ensures t in Full(apps) ==> exists i, f :: LastIn(apps, i, f, t)
  {
    hide Full, Serves;
    forall i, f | LastIn(apps, i, f, t)
      ensures t in Full(apps) && Serves(Full(apps)[t], apps[i], apps[i].functions[f])
    {
      FullServesAt(apps, i, f, t);
    }
    if t in Full(apps) {
      var i, f := FullServesOnly(apps, t);
    }
  }

  lemma UpsertServesLast(p: Progress, app: ApplicationConfig, t: Topic)
    ensures var r := Upsert(p, app);
      && (forall f :: LastOf(app.functions, f, t) ==>
            t in r.entries && Serves(r.entries[t], app, app.functions[f]) && Requested(r.load, app, app.functions[f]))
      && (!Mentions(app, t) ==>
            && (t in r.entries <==> t in p.entries && p.entries[t].app != app.id)
            && (t in r.entries ==> r.entries[t] == p.entries[t]))
  {
    PutServesLast(Without(p.entries, app.id), app, app.functions, t);
    var r := Upsert(p, app);
    forall f | LastOf(app.functions, f, t)
      ensures Requested(r.load, app, app.functions[f])
    {
      LoadsRequest(app, app.functions, f);
      var l :| l in Loads(app, app.functions) && Requests(l, app, app.functions[f]);
      assert l in r.load;
    }
  }

  lemma RequestStays(load: seq<Load>, more: seq<Load>, app: ApplicationConfig, f: FunctionConfig)
    requires Requested(load, app, f)
    ensures Requested(load + more, app, f)
  {
    var l :| l in load && Requests(l, app, f);
    assert l in load + more;
  }

  /** What an update that does not disturb an entry leaves of it. */
  lemma Undisturbed(p: Progress, u: Update, app: ApplicationConfig, f: FunctionConfig, t: Topic)
    requires t in p.entries && Serves(p.entries[t], app, f) && Requested(p.load, app, f) && !Disturbs(u, app.id, t)
    ensures var r := Apply(p, u); t in r.entries && r.entries[t] == p.entries[t] && Requested(r.load, app, f)
  {
    if u.config.Some? && !u.delete {
      UpsertServesLast(p, u.config.value, t);
      RequestStays(p.load, Loads(u.config.value, u.config.value.functions), app, f);
    }
  }

  /** A batch serves each topic by its last word on it, and asks for that module. */
  lemma {:induction false} BatchServesLast(p: Progress, us: seq<Update>, i: int, f: int, t: Topic)
    requires LastWord(us, i, f, t)
    ensures var r := ApplyAll(p, us); var app := us[i].config.value;
      t in r.entries && Serves(r.entries[t], app, app.functions[f]) && Requested(r.load, app, app.functions[f])
    decreases |us|
  {
    var n := |us| - 1;
    if i == n {
      UpsertServesLast(ApplyAll(p, us[..n]), us[n].config.value, t);
    } else {
      assert us[..n][i] == us[i];
      assert LastWord(us[..n], i, f, t);
      BatchServesLast(p, us[..n], i, f, t);
      var app := us[i].config.value;
      hide Apply;
      Undisturbed(ApplyAll(p, us[..n]), us[n], app, app.functions[f], t);
    }
  }

  /** An entry that no update of the batch disturbs. */
  predicate Untouched(m: Registry, us: seq<Update>, t: Topic) {
    t in m && forall j :: 0 <= j < |us| ==> !Disturbs(us[j], m[t].app, t)
  }

  /** Such an entry stays as it was. */
  lemma {:induction false} BatchLeavesRest(p: Progress, us: seq<Update>, t: Topic)
    requires Untouched(p.entries, us, t)
    ensures t in ApplyAll(p, us).entries && ApplyAll(p, us).entries[t] == p.entries[t]
    decreases |us|
  {
    if us != [] {
      var n := |us| - 1;
      assert forall j :: 0 <= j < n ==> us[..n][j] == us[j];
      BatchLeavesRest(p, us[..n], t);
      if us[n].config.Some? && !us[n].delete {
        UpsertServesLast(ApplyAll(p, us[..n]), us[n].config.value, t);
      }
    }
  }

  /** What one update leaves on a topic it does not declare was there, of another application. */
  lemma ApplyLeavesOthers(p: Progress, u: Update, t: Topic)
    requires t in Apply(p, u).entries && !(u.config.Some? && !u.delete && Mentions(u.config.value, t))
    ensures t in p.entries && Apply(p, u).entries[t] == p.entries[t] && !Disturbs(u, p.entries[t].app, t)
  {
    if u.config.Some? && !u.delete {
      UpsertServesLast(p, u.config.value, t);
    }
  }

  /** A batch serves no other topics. */
  lemma {:induction false} BatchServesOnly(p: Progress, us: seq<Update>, t: Topic)
    requires t in ApplyAll(p, us).entries
    ensures (exists i, f :: LastWord(us, i, f, t)) || Untouched(p.entries, us, t)
    decreases |us|
  {
    if us != [] {
      var n := |us| - 1;
      var rest, u := us[..n], us[n];
      assert forall j :: 0 <= j < n ==> rest[j] == us[j];
      if u.config.Some? && !u.delete && Mentions(u.config.value, t) {
        var fs := u.config.value.functions;
        var g :| 0 <= g < |fs| && Declares(fs[g], t);
        var f := LastDeclared(fs, g, t);
        assert LastWord(us, n, f, t);
      } else {
        var q := ApplyAll(p, rest);
        ApplyLeavesOthers(q, u, t);
        hide Apply, Disturbs;
        BatchServesOnly(p, rest, t);
        if Untouched(p.entries, rest, t) {
          BatchLeavesRest(p, rest, t);
          assert Untouched(p.entries, us, t);
        } else {
          var i, f :| LastWord(rest, i, f, t);
          BatchServesLast(p, rest, i, f, t);
          assert LastWord(us, i, f, t);
        }
      }
    }
  }

  // ------------------------------------------------------------ the code

  function Elements<T>(s: seq<T>): set<T> {
    set x | x in s
  }

  lemma ElementsGrow<T>(s: seq<T>, x: T)
    ensures Elements(s + [x]) == Elements(s) + {x}
  {
  }

  lemma LoadsReach(load: seq<Load>, m: Registry)
    requires Elements(load) == set t | t in m :: LoadOf(m[t])
    ensures Loaded(load) == Reachable(m)
  {
    forall t | t in m
      ensures KeyOf(m[t]) in Loaded(load)
    {
      assert LoadOf(m[t]) in Elements(load);
    }
    forall l | l in load
      ensures l.key in Reachable(m)
    {
      assert l in Elements(load);
    }
  }

  lemma SnapshotServes(apps: seq<ApplicationConfig>, load: seq<Load>)
    requires Elements(load) == set t | t in Full(apps) :: LoadOf(Full(apps)[t])
    ensures forall i, f, t :: LastIn(apps, i, f, t) ==>
      && t in Full(apps) && Serves(Full(apps)[t], apps[i], apps[i].functions[f])
      && Requested(load, apps[i], apps[i].functions[f])
    ensures forall t :: t in Full(apps) ==> exists i, f :: LastIn(apps, i, f, t)
  {
    forall i, f, t | LastIn(apps, i, f, t)
      ensures t in Full(apps) && Serves(Full(apps)[t], apps[i], apps[i].functions[f])
      ensures Requested(load, apps[i], apps[i].functions[f])
    {
      FullServesLast(apps, t);
      var l := LoadOf(Full(apps)[t]);
      assert l in Elements(load) && Requests(l, apps[i], apps[i].functions[f]);
    }
    forall t | t in Full(apps)
      ensures exists i, f :: LastIn(apps, i, f, t)
    {
      FullServesLast(apps, t);
    }
  }

  lemma InsertionServes(m: Registry, app: ApplicationConfig, load: seq<Load>)
    ensures forall f, t :: LastOf(app.functions, f, t) ==>
      && t in Put(m, app, app.functions) && Serves(Put(m, app, app.functions)[t], app, app.functions[f])
      && Requested(load + Loads(app, app.functions), app, app.functions[f])
    ensures forall t :: t in m && !Mentions(app, t) ==>
      t in Put(m, app, app.functions) && Put(m, app, app.functions)[t] == m[t]
  {
    forall f, t | LastOf(app.functions, f, t)
      ensures t in Put(m, app, app.functions) && Serves(Put(m, app, app.functions)[t], app, app.functions[f])
      ensures Requested(load + Loads(app, app.functions), app, app.functions[f])
    {
      PutServesLast(m, app, app.functions, t);
      LoadsRequest(app, app.functions, f);
      var l :| l in Loads(app, app.functions) && Requests(l, app, app.functions[f]);
      assert l in load + Loads(app, app.functions);
    }
    forall t | t in m && !Mentions(app, t)
      ensures t in Put(m, app, app.functions) && Put(m, app, app.functions)[t] == m[t]
    {
      PutServesLast(m, app, app.functions, t);
    }
  }

  lemma LastWordIs(us: seq<Update>, i: int, f: int, t: Topic)
    requires LastWord(us, i, f, t)
    ensures 0 <= i < |us| && us[i].config.Some? && 0 <= f < |us[i].config.value.functions|
  {
  }

  lemma BatchServes(p: Progress, us: seq<Update>)
    ensures var r := ApplyAll(p, us);
      forall i, f, t :: LastWord(us, i, f, t) ==>
        var app := us[i].config.value;
        t in r.entries && Serves(r.entries[t], app, app.functions[f]) && Requested(r.load, app, app.functions[f])
    ensures var r := ApplyAll(p, us);
      forall t :: Untouched(p.entries, us, t) ==> t in r.entries && r.entries[t] == p.entries[t]
    ensures forall t :: t in ApplyAll(p, us).entries ==>
      (exists i, f :: LastWord(us, i, f, t)) || Untouched(p.entries, us, t)
  {
    hide ApplyAll, LastWord, Serves, Requested, Disturbs;
    var r := ApplyAll(p, us);
    forall i, f, t | LastWord(us, i, f, t)
      ensures 0 <= i < |us| && us[i].config.Some? && 0 <= f < |us[i].config.value.functions|
      ensures t in r.entries && Serves(r.entries[t], us[i].config.value, us[i].config.value.functions[f])
      ensures Requested(r.load, us[i].config.value, us[i].config.value.functions[f])
    {
      LastWordIs(us, i, f, t);
      BatchServesLast(p, us, i, f, t);
    }
    forall t | Untouched(p.entries, us, t)
      ensures t in r.entries && r.entries[t] == p.entries[t]
    {
      BatchLeavesRest(p, us, t);
    }
    forall t | t in r.entries
      ensures (exists i, f :: LastWord(us, i, f, t)) || Untouched(p.entries, us, t)
    {
      BatchServesOnly(p, us, t);
    }
  }

  class AppRegistry {
    var inner: Registry

    constructor ()
      ensures inner == map[]
    {
      inner := map[];
    }

    /** Replace everything; evictions are decided by topic. */
    method ApplyFullConfig(apps: seq<ApplicationConfig>) returns (load: seq<Load>, evict: seq<ModuleKey>)
      modifies this
      ensures inner == Full(apps)
      ensures Elements(evict) == Gone(old(inner), Full(apps))
      ensures Elements(load) == set t | t in Full(apps) :: LoadOf(Full(apps)[t])
      ensures Loaded(load) == Reachable(inner)
      ensures forall i, f, t :: LastIn(apps, i, f, t) ==>
        && t in inner && Serves(inner[t], apps[i], apps[i].functions[f])
        && Requested(load, apps[i], apps[i].functions[f])
      ensures forall t :: t in inner ==> exists i, f :: LastIn(apps, i, f, t)
    {
      var incoming: Registry := map[];
      var i := 0;
      while i < |apps|
        invariant 0 <= i <= |apps| && incoming == Full(apps[..i]) && inner == old(inner)
      {
        assert apps[..i + 1][..i] == apps[..i];
        incoming := Inserted(incoming, apps[i]);
        i := i + 1;
      }
      assert apps[..i] == apps;
      evict := Evicted(incoming);
      load := [];
      inner := map[];
      var rest := incoming.Keys;
      while rest != {}
        invariant rest <= incoming.Keys && inner == incoming - rest
        invariant Elements(load) == set t | t in incoming && t !in rest :: LoadOf(incoming[t])
        decreases rest
      {
        var t :| t in rest;
        ElementsGrow(load, LoadOf(incoming[t]));
        load := load + [LoadOf(incoming[t])];
        inner := inner[t := incoming[t]];
        rest := rest - {t};
      }
      assert incoming - {} == incoming;
      LoadsReach(load, incoming);
      SnapshotServes(apps, load);
    }

    method Inserted(m: Registry, app: ApplicationConfig) returns (r: Registry)
      ensures r == Put(m, app, app.functions)
    {
      r := m;
      var i := 0;
      while i < |app.functions|
        invariant 0 <= i <= |app.functions| && r == Put(m, app, app.functions[..i])
      {
        assert app.functions[..i + 1][..i] == app.functions[..i];
        if app.functions[i].topic.Some? {
          r := r[app.functions[i].topic.value := EntryFrom(app, app.functions[i])];
        }
        i := i + 1;
      }
      assert app.functions[..i] == app.functions;
    }

    method Evicted(incoming: Registry) returns (evict: seq<ModuleKey>)
      ensures Elements(evict) == Gone(inner, incoming)
    {
      evict := [];
      var rest := inner.Keys;
      while rest != {}
        invariant rest <= inner.Keys
        invariant Elements(evict) == set t | t in inner && t !in rest && t !in incoming :: KeyOf(inner[t])
        decreases rest
      {
        var t :| t in rest;
        if t !in incoming {
          ElementsGrow(evict, KeyOf(inner[t]));
          evict := evict + [KeyOf(inner[t])];
        }
        rest := rest - {t};
      }
    }

    /** Remove an application's entries one topic at a time. */
    method RemoveApp(id: AppId, evict: seq<ModuleKey>) returns (all: seq<ModuleKey>)
      modifies this
      ensures inner == Without(old(inner), id)
      ensures Elements(all) == Elements(evict) + KeysOf(old(inner), id)
    {
      ghost var before := inner;
      all := evict;
      var topics := set t | t in inner && inner[t].app == id;
      while topics != {}
        invariant forall t :: t in topics ==> t in inner && inner[t].app == id
        invariant forall t :: t in inner ==> t in before && inner[t] == before[t]
        invariant forall t :: t in before ==> t in inner || before[t].app == id
        invariant forall t :: t in inner && inner[t].app == id ==> t in topics
        invariant Elements(all) == Elements(evict) + set t | t in before && t !in inner :: KeyOf(before[t])
        decreases topics
      {
        var t :| t in topics;
        ElementsGrow(all, KeyOf(inner[t]));
        all := all + [KeyOf(inner[t])];
        inner := inner - {t};
        topics := topics - {t};
      }
      assert inner == Without(before, id);
    }

    /** Before inserting, evict what other applications run on the topics about to be taken. */
    method Takeover(app: ApplicationConfig, evict: seq<ModuleKey>) returns (all: seq<ModuleKey>)
      ensures Elements(all) == Elements(evict) + Stolen(inner, app, app.functions)
    {
      all := evict;
      var i := 0;
      while i < |app.functions|
        invariant 0 <= i <= |app.functions|
        invariant Elements(all) == Elements(evict) + Stolen(inner, app, app.functions[..i])
      {
        assert app.functions[..i + 1][..i] == app.functions[..i];
        var f := app.functions[i];
        if f.topic.Some? && f.topic.value in inner && inner[f.topic.value].app != app.id {
          ElementsGrow(all, KeyOf(inner[f.topic.value]));
          all := all + [KeyOf(inner[f.topic.value])];
        }
        i := i + 1;
      }
      assert app.functions[..i] == app.functions;
    }

    method InsertApp(app: ApplicationConfig, load: seq<Load>) returns (all: seq<Load>)
      modifies this
      ensures inner == Put(old(inner), app, app.functions) && all == load + Loads(app, app.functions)
      ensures forall f, t :: LastOf(app.functions, f, t) ==>
        t in inner && Serves(inner[t], app, app.functions[f]) && Requested(all, app, app.functions[f])
      ensures forall t :: t in old(inner) && !Mentions(app, t) ==> t in inner && inner[t] == old(inner)[t]
    {
      ghost var before := inner;
      all := load;
      var i := 0;
      while i < |app.functions|
        invariant 0 <= i <= |app.functions|
        invariant inner == Put(before, app, app.functions[..i]) && all == load + Loads(app, app.functions[..i])
      {
        assert app.functions[..i + 1][..i] == app.functions[..i];
        var f := app.functions[i];
        if f.topic.Some? {
          all := all + [LoadOf(EntryFrom(app, f))];
          inner := inner[f.topic.value := EntryFrom(app, f)];
        }
        i := i + 1;
      }
      assert app.functions[..i] == app.functions;
      InsertionServes(before, app, load);
    }

    method ApplyIncremental(updates: seq<Update>) returns (load: seq<Load>, evict: seq<ModuleKey>)
      modifies this
      ensures var p := ApplyAll(Progress(old(inner), [], {}), updates);
        inner == p.entries && load == p.load && Elements(evict) == p.evict
      ensures forall i, f, t :: LastWord(updates, i, f, t) ==>
        var app := updates[i].config.value;
        t in inner && Serves(inner[t], app, app.functions[f]) && Requested(load, app, app.functions[f])
      ensures forall t :: Untouched(old(inner), updates, t) ==> t in inner && inner[t] == old(inner)[t]
      ensures forall t :: t in inner ==>
        (exists i, f :: LastWord(updates, i, f, t)) || Untouched(old(inner), updates, t)
    {
      load, evict := [], [];
      ghost var start := Progress(inner, [], {});
      var i := 0;
      while i < |updates|
        invariant 0 <= i <= |updates|
        invariant ApplyAll(start, updates[..i]) == Progress(inner, load, Elements(evict))
      {
        assert updates[..i + 1][..i] == updates[..i];
        var u := updates[i];
        if u.config.Some? {
          evict := RemoveApp(u.config.value.id, evict);
          if !u.delete {
            evict := Takeover(u.config.value, evict);
            load := InsertApp(u.config.value, load);
          }
        }
        i := i + 1;
      }
      assert updates[..i] == updates;
      BatchServes(start, updates);
    }
  }

  // ------------------------------------------------------------ what a diff does to the loaded modules

  /** Functions of one application have distinct names. */
  ghost predicate DistinctNames(app: ApplicationConfig) {
    forall i, j :: 0 <= i < j < |app.functions| ==> app.functions[i].name != app.functions[j].name
  }

  ghost predicate NamesDistinct(us: seq<Update>) {
    forall i :: 0 <= i < |us| && us[i].config.Some? ==> DistinctNames(us[i].config.value)
  }

  /** No module is reached from two topics. */
  ghost predicate OneTopicEach(m: Registry) {
    forall s, t :: s in m && t in m && s != t ==> KeyOf(m[s]) != KeyOf(m[t])
  }

  /** Evictions first, then loads, as the host applies a diff. */
  ghost function Result(before: set<ModuleKey>, p: Progress): set<ModuleKey> {
    (before - p.evict) + Loaded(p.load)
  }

  /** What Put leaves: the old entry, or that of a declaring function. */
  lemma {:induction false} PutIs(m: Registry, app: ApplicationConfig, fs: seq<FunctionConfig>, t: Topic)
    ensures t in Put(m, app, fs) <==> t in m || exists i :: 0 <= i < |fs| && Declares(fs[i], t)
    ensures (forall i :: 0 <= i < |fs| ==> !Declares(fs[i], t)) && t in m ==> Put(m, app, fs)[t] == m[t]
    ensures (exists i :: 0 <= i < |fs| && Declares(fs[i], t)) ==>
      exists i :: 0 <= i < |fs| && Declares(fs[i], t) && Put(m, app, fs)[t] == EntryFrom(app, fs[i])
    decreases |fs|
  {
    if fs != [] {
      var n := |fs| - 1;
      PutIs(m, app, fs[..n], t);
      if Declares(fs[n], t) {
        assert Put(m, app, fs)[t] == EntryFrom(app, fs[n]);
      } else if exists i :: 0 <= i < n && Declares(fs[..n][i], t) {
        var i :| 0 <= i < n && Declares(fs[..n][i], t) && Put(m, app, fs[..n])[t] == EntryFrom(app, fs[..n][i]);
        assert Declares(fs[i], t) && Put(m, app, fs)[t] == EntryFrom(app, fs[i]);
      } else {
        assert forall i :: 0 <= i < n ==> !Declares(fs[..n][i], t);
        assert forall i :: 0 <= i < n ==> fs[i] == fs[..n][i];
      }
    }
  }

  lemma LoadedJoins(a: seq<Load>, b: seq<Load>)
    ensures Loaded(a + b) == Loaded(a) + Loaded(b)
  {
  }

  lemma {:induction false} LoadsAre(app: ApplicationConfig, fs: seq<FunctionConfig>, k: ModuleKey)
    ensures k in Loaded(Loads(app, fs)) <==>
      exists i :: 0 <= i < |fs| && fs[i].topic.Some? && KeyOf(EntryFrom(app, fs[i])) == k
    decreases |fs|
  {
    if fs != [] {
      var n := |fs| - 1;
      LoadsAre(app, fs[..n], k);
      LoadedJoins(Loads(app, fs[..n]), if fs[n].topic.Some? then [LoadOf(EntryFrom(app, fs[n]))] else []);
      if k in Loaded(Loads(app, fs[..n])) {
        var i :| 0 <= i < n && fs[..n][i].topic.Some? && KeyOf(EntryFrom(app, fs[..n][i])) == k;
        assert fs[i].topic.Some? && KeyOf(EntryFrom(app, fs[i])) == k;
      }
      if i :| 0 <= i < |fs| && fs[i].topic.Some? && KeyOf(EntryFrom(app, fs[i])) == k {
        if i < n {
          assert fs[..n][i].topic.Some? && KeyOf(EntryFrom(app, fs[..n][i])) == k;
        } else {
          assert LoadOf(EntryFrom(app, fs[n])) in [LoadOf(EntryFrom(app, fs[n]))];
        }
      }
    }
  }

  lemma {:induction false} StolenAre(m: Registry, app: ApplicationConfig, fs: seq<FunctionConfig>, k: ModuleKey)
    ensures k in Stolen(m, app, fs) <==>
      exists i :: 0 <= i < |fs| && fs[i].topic.Some? && fs[i].topic.value in m
                  && m[fs[i].topic.value].app != app.id && KeyOf(m[fs[i].topic.value]) == k
    decreases |fs|
  {
    if fs != [] {
      var n := |fs| - 1;
      StolenAre(m, app, fs[..n], k);
      assert forall i :: 0 <= i < n ==> fs[..n][i] == fs[i];
    }
  }

  /** One upsert: the keys it loads all belong to the application, those it evicts are gone from every topic. */
  lemma UpsertKeys(p: Progress, app: ApplicationConfig)
    requires OneTopicEach(p.entries) && DistinctNames(app)
    ensures OneTopicEach(Upsert(p, app).entries)
    ensures forall t :: t in Upsert(p, app).entries ==>
      || KeyOf(Upsert(p, app).entries[t]) in Loaded(Loads(app, app.functions))
      || (t in p.entries && Upsert(p, app).entries[t] == p.entries[t]
          && KeyOf(p.entries[t]) !in KeysOf(p.entries, app.id)
          && KeyOf(p.entries[t]) !in Stolen(Without(p.entries, app.id), app, app.functions))
  {
    var c := Without(p.entries, app.id);
    var m := Put(c, app, app.functions);
    forall t | t in m
      ensures
        || (t in c && m[t] == c[t] && forall i :: 0 <= i < |app.functions| ==> !Declares(app.functions[i], t))
        || exists i :: 0 <= i < |app.functions| && Declares(app.functions[i], t)
             && m[t] == EntryFrom(app, app.functions[i])
    {
      PutIs(c, app, app.functions, t);
    }
    forall t | t in m
      ensures KeyOf(m[t]) in Loaded(Loads(app, app.functions)) ||
        (t in p.entries && m[t] == p.entries[t] && KeyOf(p.entries[t]) !in KeysOf(p.entries, app.id)
         && KeyOf(p.entries[t]) !in Stolen(c, app, app.functions))
    {
      LoadsAre(app, app.functions, KeyOf(m[t]));
      StolenAre(c, app, app.functions, KeyOf(m[t]));
      if i :| 0 <= i < |app.functions| && Declares(app.functions[i], t) && m[t] == EntryFrom(app, app.functions[i]) {
        assert app.functions[i].topic.Some?;
      }
    }
  }

  /** Every reachable module was loaded by the batch, or was there and has not been evicted by it. */
  ghost predicate Covered(m: Registry, p: Progress) {
    && OneTopicEach(p.entries)
    && forall t :: t in p.entries ==>
        || KeyOf(p.entries[t]) in Loaded(p.load)
        || (t in m && p.entries[t] == m[t] && KeyOf(m[t]) !in p.evict)
  }

  lemma ClearCovers(m: Registry, p: Progress, id: AppId)
    requires Covered(m, p)
    ensures Covered(m, Clear(p, id))
  {
  }

  lemma UpsertCovers(m: Registry, p: Progress, app: ApplicationConfig)
    requires Covered(m, p) && DistinctNames(app)
    ensures Covered(m, Upsert(p, app))
  {
    UpsertKeys(p, app);
    LoadedJoins(p.load, Loads(app, app.functions));
  }

  lemma {:induction false} BatchCovers(m: Registry, us: seq<Update>)
    requires OneTopicEach(m) && NamesDistinct(us)
    ensures Covered(m, ApplyAll(Progress(m, [], {}), us))
    decreases |us|
  {
    if us != [] {
      var n := |us| - 1;
      BatchCovers(m, us[..n]);
      hide Covered;
      var p := ApplyAll(Progress(m, [], {}), us[..n]);
      if us[n].config.Some? {
        ClearCovers(m, p, us[n].config.value.id);
        UpsertCovers(m, p, us[n].config.value);
      }
    }
  }

  /** After any batch every function reachable from a topic is loaded or submitted. */
  lemma BatchKeepsReachable(m: Registry, before: set<ModuleKey>, us: seq<Update>)
    requires OneTopicEach(m) && NamesDistinct(us) && Reachable(m) <= before
    ensures var p := ApplyAll(Progress(m, [], {}), us); Reachable(p.entries) <= Result(before, p)
  {
    BatchCovers(m, us);
  }

  lemma {:induction false} FullEntry(apps: seq<ApplicationConfig>, t: Topic)
    ensures t in Full(apps) ==>
      exists i, f :: 0 <= i < |apps| && 0 <= f < |apps[i].functions| && Declares(apps[i].functions[f], t)
                     && Full(apps)[t] == EntryFrom(apps[i], apps[i].functions[f])
    ensures (exists i, f :: 0 <= i < |apps| && 0 <= f < |apps[i].functions| && Declares(apps[i].functions[f], t)) ==>
      t in Full(apps)
    decreases |apps|
  {
    if apps != [] {
      var n := |apps| - 1;
      FullEntry(apps[..n], t);
      PutIs(Full(apps[..n]), apps[n], apps[n].functions, t);
      assert forall i :: 0 <= i < n ==> apps[..n][i] == apps[i];
    }
  }

  /** Applications are listed once each. */
  ghost predicate DistinctApps(apps: seq<ApplicationConfig>) {
    forall i, j :: 0 <= i < j < |apps| ==> apps[i].id != apps[j].id
  }

  /** A snapshot reaches no module from two topics, which is what the diffs rely on. */
  lemma SnapshotReachesOnce(apps: seq<ApplicationConfig>)
    requires DistinctApps(apps) && forall i :: 0 <= i < |apps| ==> DistinctNames(apps[i])
    ensures OneTopicEach(Full(apps))
  {
    forall s, t | s in Full(apps) && t in Full(apps) && s != t
      ensures KeyOf(Full(apps)[s]) != KeyOf(Full(apps)[t])
    {
      FullEntry(apps, s);
      FullEntry(apps, t);
      var i, f :| 0 <= i < |apps| && 0 <= f < |apps[i].functions| && Declares(apps[i].functions[f], s)
                  && Full(apps)[s] == EntryFrom(apps[i], apps[i].functions[f]);
      var j, g :| 0 <= j < |apps| && 0 <= g < |apps[j].functions| && Declares(apps[j].functions[g], t)
                  && Full(apps)[t] == EntryFrom(apps[j], apps[j].functions[g]);
      assert i == j ==> f != g;
    }
  }

  // ------------------------------------------------------------ exactness

  /** No application is named by two updates. */
  ghost predicate NamedOnce(us: seq<Update>) {
    forall i, j :: 0 <= i < j < |us| && us[i].config.Some? && us[j].config.Some? ==>
      us[i].config.value.id != us[j].config.value.id
  }

  /** Update i of the batch declares topic t with function f. */
  ghost predicate Brings(us: seq<Update>, i: int, f: int, t: Topic) {
    && 0 <= i < |us| && us[i].config.Some? && !us[i].delete
    && 0 <= f < |us[i].config.value.functions| && Declares(us[i].config.value.functions[f], t)
  }

  /** No topic is declared twice, within an application or across them. */
  ghost predicate TopicsOnce(us: seq<Update>) {
    forall i, f, j, g, t :: Brings(us, i, f, t) && Brings(us, j, g, t) ==> i == j && f == g
  }

  /** Everything the batch declared so far is in place; what it did not evict is where it was. */
  ghost predicate Exact(m: Registry, us: seq<Update>, p: Progress) {
    && (forall i, f, t :: Brings(us, i, f, t) ==>
          t in p.entries && p.entries[t] == EntryFrom(us[i].config.value, us[i].config.value.functions[f]))
    && (forall t :: t in m ==> KeyOf(m[t]) in p.evict || (t in p.entries && p.entries[t] == m[t]))
    && (forall k :: k in Loaded(p.load) ==> k in Reachable(p.entries))
  }

  lemma PrefixBrings(us: seq<Update>, n: nat, i: int, f: int, t: Topic)
    requires n <= |us|
    ensures Brings(us[..n], i, f, t) <==> i < n && Brings(us, i, f, t)
  {
  }

  lemma PrefixOnce(us: seq<Update>, n: nat)
    requires n <= |us| && NamedOnce(us) && TopicsOnce(us) && NamesDistinct(us)
    ensures NamedOnce(us[..n]) && TopicsOnce(us[..n]) && NamesDistinct(us[..n])
  {
    forall i, f, j, g, t | Brings(us[..n], i, f, t) && Brings(us[..n], j, g, t)
      ensures i == j && f == g
    {
      PrefixBrings(us, n, i, f, t);
      PrefixBrings(us, n, j, g, t);
    }
  }

  /** An entry an upsert does not name survives it, unless its key is evicted. */
  lemma UpsertLeaves(p: Progress, app: ApplicationConfig, t: Topic)
    requires t in p.entries
    ensures
      || KeyOf(p.entries[t]) in Upsert(p, app).evict
      || (t in Upsert(p, app).entries && Upsert(p, app).entries[t] == p.entries[t])
    ensures p.entries[t].app != app.id && (forall i :: 0 <= i < |app.functions| ==> !Declares(app.functions[i], t)) ==>
      t in Upsert(p, app).entries && Upsert(p, app).entries[t] == p.entries[t]
  {
    var c := Without(p.entries, app.id);
    PutIs(c, app, app.functions, t);
    StolenAre(c, app, app.functions, KeyOf(p.entries[t]));
    if p.entries[t].app == app.id {
      assert KeyOf(p.entries[t]) in KeysOf(p.entries, app.id);
    } else if i :| 0 <= i < |app.functions| && Declares(app.functions[i], t) {
      assert app.functions[i].topic.value in c;
    }
  }

  lemma UpsertPlaces(p: Progress, app: ApplicationConfig, i: nat, t: Topic)
    requires i < |app.functions| && Declares(app.functions[i], t)
    requires forall j :: 0 <= j < |app.functions| && Declares(app.functions[j], t) ==> j == i
    ensures t in Upsert(p, app).entries && Upsert(p, app).entries[t] == EntryFrom(app, app.functions[i])
  {
    PutIs(Without(p.entries, app.id), app, app.functions, t);
  }

  lemma ExactUpsertPlaced(m: Registry, us: seq<Update>, p: Progress, i: int, f: int, t: Topic)
    requires us != [] && Exact(m, us[..|us| - 1], p) && NamedOnce(us) && TopicsOnce(us)
    requires us[|us| - 1].config.Some? && !us[|us| - 1].delete && Brings(us, i, f, t)
    ensures var r := Upsert(p, us[|us| - 1].config.value);
      t in r.entries && r.entries[t] == EntryFrom(us[i].config.value, us[i].config.value.functions[f])
  {
    var n := |us| - 1;
    var app := us[n].config.value;
    PrefixBrings(us, n, i, f, t);
    if i == n {
      forall j | 0 <= j < |app.functions| && Declares(app.functions[j], t) ensures j == f {
        assert Brings(us, n, j, t);
      }
      UpsertPlaces(p, app, f, t);
    } else {
      assert us[..n][i] == us[i];
      forall j | 0 <= j < |app.functions| ensures !Declares(app.functions[j], t) {
        if Declares(app.functions[j], t) {
          assert Brings(us, n, j, t);
        }
      }
      UpsertLeaves(p, app, t);
    }
  }

  /** Every load comes from a declaration of the batch. */
  ghost predicate LoadsBrought(us: seq<Update>, load: seq<Load>) {
    forall k :: k in Loaded(load) ==>
      exists i, f, t :: Brings(us, i, f, t)
        && KeyOf(EntryFrom(us[i].config.value, us[i].config.value.functions[f])) == k
  }

  lemma ExactLoads(m: Registry, us: seq<Update>, p: Progress, k: ModuleKey)
    requires us != [] && Exact(m, us[..|us| - 1], p) && NamedOnce(us) && TopicsOnce(us)
    requires us[|us| - 1].config.Some? && !us[|us| - 1].delete
    requires LoadsBrought(us[..|us| - 1], p.load)
    requires k in Loaded(Upsert(p, us[|us| - 1].config.value).load)
    ensures k in Reachable(Upsert(p, us[|us| - 1].config.value).entries)
  {
    var n := |us| - 1;
    var app := us[n].config.value;
    LoadedJoins(p.load, Loads(app, app.functions));
    LoadsAre(app, app.functions, k);
    if k in Loaded(p.load) {
      var i, f, t :| Brings(us[..n], i, f, t)
        && KeyOf(EntryFrom(us[..n][i].config.value, us[..n][i].config.value.functions[f])) == k;
      PrefixBrings(us, n, i, f, t);
      ExactUpsertPlaced(m, us, p, i, f, t);
    } else {
      var i :| 0 <= i < |app.functions| && app.functions[i].topic.Some? && KeyOf(EntryFrom(app, app.functions[i])) == k;
      assert Brings(us, n, i, app.functions[i].topic.value);
      ExactUpsertPlaced(m, us, p, n, i, app.functions[i].topic.value);
    }
  }

  lemma {:induction false} LoadsAreBrought(p: Progress, us: seq<Update>)
    requires p.load == []
    ensures LoadsBrought(us, ApplyAll(p, us).load)
    decreases |us|
  {
    if us != [] {
      var n := |us| - 1;
      LoadsAreBrought(p, us[..n]);
      var q := ApplyAll(p, us[..n]);
      forall k | k in Loaded(ApplyAll(p, us).load)
        ensures exists i, f, t ::
          Brings(us, i, f, t) && KeyOf(EntryFrom(us[i].config.value, us[i].config.value.functions[f])) == k
      {
        if k in Loaded(q.load) {
          var i, f, t :| Brings(us[..n], i, f, t)
            && KeyOf(EntryFrom(us[..n][i].config.value, us[..n][i].config.value.functions[f])) == k;
          assert Brings(us, i, f, t) && us[i] == us[..n][i];
        } else {
          var app := us[n].config.value;
          LoadedJoins(q.load, Loads(app, app.functions));
          LoadsAre(app, app.functions, k);
          var i :| 0 <= i < |app.functions| && app.functions[i].topic.Some?
            && KeyOf(EntryFrom(app, app.functions[i])) == k;
          assert Brings(us, n, i, app.functions[i].topic.value);
        }
      }
    }
  }

  lemma ExactUpsert(m: Registry, us: seq<Update>, p: Progress)
    requires us != [] && Exact(m, us[..|us| - 1], p) && NamedOnce(us) && TopicsOnce(us)
    requires us[|us| - 1].config.Some? && !us[|us| - 1].delete && LoadsBrought(us[..|us| - 1], p.load)
    ensures Exact(m, us, Upsert(p, us[|us| - 1].config.value))
  {
    var app := us[|us| - 1].config.value;
    var r := Upsert(p, app);
    forall i, f, t | Brings(us, i, f, t)
      ensures t in r.entries && r.entries[t] == EntryFrom(us[i].config.value, us[i].config.value.functions[f])
    {
      ExactUpsertPlaced(m, us, p, i, f, t);
    }
    forall t | t in m
      ensures KeyOf(m[t]) in r.evict || (t in r.entries && r.entries[t] == m[t])
    {
      if KeyOf(m[t]) !in p.evict {
        UpsertLeaves(p, app, t);
      }
    }
    forall k | k in Loaded(r.load)
      ensures k in Reachable(r.entries)
    {
      ExactLoads(m, us, p, k);
    }
  }

  lemma ExactClear(m: Registry, us: seq<Update>, p: Progress)
    requires us != [] && Exact(m, us[..|us| - 1], p) && NamedOnce(us)
    requires us[|us| - 1].config.Some? && us[|us| - 1].delete && LoadsBrought(us[..|us| - 1], p.load)
    ensures Exact(m, us, Clear(p, us[|us| - 1].config.value.id))
  {
    var n := |us| - 1;
    var id := us[n].config.value.id;
    var r := Clear(p, id);
    forall i, f, t | Brings(us, i, f, t)
      ensures t in r.entries && r.entries[t] == EntryFrom(us[i].config.value, us[i].config.value.functions[f])
    {
      PrefixBrings(us, n, i, f, t);
      assert us[..n][i] == us[i];
    }
    forall t | t in m
      ensures KeyOf(m[t]) in r.evict || (t in r.entries && r.entries[t] == m[t])
    {
      if t in p.entries && p.entries[t].app == id {
        assert KeyOf(p.entries[t]) in KeysOf(p.entries, id);
      }
    }
    forall k | k in Loaded(r.load)
      ensures k in Reachable(r.entries)
    {
      var i, f, t :| Brings(us[..n], i, f, t)
        && KeyOf(EntryFrom(us[..n][i].config.value, us[..n][i].config.value.functions[f])) == k;
      assert Brings(us, i, f, t) && us[i] == us[..n][i];
    }
  }

  lemma ExactSkip(m: Registry, us: seq<Update>, p: Progress)
    requires us != [] && Exact(m, us[..|us| - 1], p) && us[|us| - 1].config.None?
    ensures Exact(m, us, p)
  {
  }

  lemma {:induction false} BatchIsExact(m: Registry, us: seq<Update>)
    requires NamedOnce(us) && TopicsOnce(us) && NamesDistinct(us)
    ensures Exact(m, us, ApplyAll(Progress(m, [], {}), us))
    decreases |us|
  {
    if us == [] {
      assert Loaded([]) == {};
    } else {
      var n := |us| - 1;
      PrefixOnce(us, n);
      BatchIsExact(m, us[..n]);
      LoadsAreBrought(Progress(m, [], {}), us[..n]);
      hide Exact, NamedOnce, TopicsOnce, NamesDistinct, LoadsBrought;
      var p := ApplyAll(Progress(m, [], {}), us[..n]);
      if us[n].config.None? {
        ExactSkip(m, us, p);
      } else if us[n].delete {
        ExactClear(m, us, p);
      } else {
        ExactUpsert(m, us, p);
      }
    }
  }

  /**
    A batch that names each application once and declares no topic twice leaves loaded exactly what
    the new registry reaches, even where it takes topics from other applications.
   */
  lemma BatchDiffIsExact(m: Registry, us: seq<Update>)
    requires OneTopicEach(m) && NamesDistinct(us) && NamedOnce(us) && TopicsOnce(us)
    ensures var p := ApplyAll(Progress(m, [], {}), us); Result(Reachable(m), p) == Reachable(p.entries)
  {
    BatchCovers(m, us);
    BatchIsExact(m, us);
    var p := ApplyAll(Progress(m, [], {}), us);
    hide ApplyAll, NamesDistinct, NamedOnce, TopicsOnce;
    forall k | k in Result(Reachable(m), p)
      ensures k in Reachable(p.entries)
    {
      if k in Loaded(p.load) {
      } else {
        var t :| t in m && KeyOf(m[t]) == k;
        assert t in p.entries && KeyOf(p.entries[t]) == k;
      }
    }
  }

  /** No topic changes hands for good: what a kept topic served is served somewhere in the snapshot. */
  ghost predicate KeepsServing(m: Registry, incoming: Registry) {
    forall t :: t in m && t in incoming ==> KeyOf(m[t]) in Reachable(incoming)
  }

  /** The modules loaded after a snapshot: what lost its topic goes, everything it declares is loaded. */
  ghost function AfterSnapshot(loaded: set<ModuleKey>, m: Registry, incoming: Registry): set<ModuleKey> {
    loaded - Gone(m, incoming) + Reachable(incoming)
  }

  /** Snapshots evict by topic, so their diff is exact exactly when every kept topic's old function is still served. */
  lemma SnapshotIsExactIff(m: Registry, apps: seq<ApplicationConfig>)
    requires OneTopicEach(m)
    ensures AfterSnapshot(Reachable(m), m, Full(apps)) == Reachable(Full(apps)) <==> KeepsServing(m, Full(apps))
  {
    var incoming := Full(apps);
    hide Full;
    if AfterSnapshot(Reachable(m), m, incoming) == Reachable(incoming) {
      forall t | t in m && t in incoming
        ensures KeyOf(m[t]) in Reachable(incoming)
      {
        assert KeyOf(m[t]) !in Gone(m, incoming);
        assert KeyOf(m[t]) in AfterSnapshot(Reachable(m), m, incoming);
      }
    }
  }

  /** For instance, a function replaced on its topic stays loaded. */
  lemma FullIsNotExact()
    ensures exists m: Registry, apps: seq<ApplicationConfig> ::
      OneTopicEach(m) && AfterSnapshot(Reachable(m), m, Full(apps)) != Reachable(Full(apps))
  {
    var id := AppId("ns", "app");
    var before := ApplicationConfig(id, [FunctionConfig("f", "r", 0, Some("t"), None)], false, []);
    var after := ApplicationConfig(id, [FunctionConfig("g", "r", 0, Some("t"), None)], false, []);
    var e := EntryFrom(before, before.functions[0]);
    var m: Registry := map["t" := e];
    assert Full([after]) == map["t" := EntryFrom(after, after.functions[0])] by {
      assert [after][..0] == [] && after.functions[..0] == [];
      assert Full([after][..0]) == map[];
      assert Put(map[], after, after.functions[..0]) == map[];
      assert Put(map[], after, after.functions) == map["t" := EntryFrom(after, after.functions[0])];
    }
    assert KeyOf(m["t"]) in Reachable(m) && KeyOf(m["t"]) !in Gone(m, Full([after]));
    assert "f" != "g" by { assert "f"[0] == 'f' && "g"[0] == 'g'; }
    assert KeyOf(m["t"]) !in Reachable(Full([after]));
  }

  // ------------------------------------------------------------ a whole session

  /** What a host is sent: snapshots, at each connection, and batches in between. */
  datatype Delivery = FullConfig(apps: seq<ApplicationConfig>) | IncrementalUpdate(updates: seq<Update>)

  /** A delivery as applied: whole, or cut short with only some of its loads submitted. */
  datatype Sync = Sync(delivery: Delivery, submitted: Option<set<ModuleKey>>)

  predicate Complete(s: Sync) {
    s.submitted.None?
  }

  /** The registry and the loaded modules after a whole delivery. */
  ghost function Delivered(m: Registry, loaded: set<ModuleKey>, d: Delivery): (Registry, set<ModuleKey>) {
    match d
    case FullConfig(apps) => (Full(apps), AfterSnapshot(loaded, m, Full(apps)))
    case IncrementalUpdate(updates) =>
      var p := ApplyAll(Progress(m, [], {}), updates);
      (p.entries, Result(loaded, p))
  }

  /** Evictions come first, so one cut short has made them all. */
  ghost function CutShort(m: Registry, loaded: set<ModuleKey>, d: Delivery, some: set<ModuleKey>): set<ModuleKey> {
    match d
    case FullConfig(apps) => loaded - Gone(m, Full(apps)) + Reachable(Full(apps)) * some
    case IncrementalUpdate(updates) =>
      var p := ApplyAll(Progress(m, [], {}), updates);
      (loaded - p.evict) + Loaded(p.load) * some
  }

  ghost function Synced(m: Registry, loaded: set<ModuleKey>, s: Sync): (Registry, set<ModuleKey>) {
    var (r, l) := Delivered(m, loaded, s.delivery);
    (r, match s.submitted case None => l case Some(some) => CutShort(m, loaded, s.delivery, some))
  }

  /** ... and after a sequence of them, over whatever the host held. */
  ghost function Session(m: Registry, loaded: set<ModuleKey>, ss: seq<Sync>): (Registry, set<ModuleKey>) {
    if ss == [] then (m, loaded)
    else
      var (r, l) := Session(m, loaded, ss[..|ss| - 1]);
      Synced(r, l, ss[|ss| - 1])
  }

  /** Applications are listed once and their functions have distinct names. */
  ghost predicate Proper(d: Delivery) {
    match d
    case FullConfig(apps) => DistinctApps(apps) && forall i :: 0 <= i < |apps| ==> DistinctNames(apps[i])
    case IncrementalUpdate(updates) => NamesDistinct(updates)
  }

  /** Nothing is reachable that is not loaded or submitted, and nothing from two topics. */
  ghost predicate Served(m: Registry, loaded: set<ModuleKey>) {
    OneTopicEach(m) && Reachable(m) <= loaded
  }

  /** A snapshot covers whatever it finds: any registry, any modules. */
  lemma SnapshotRestores(m: Registry, loaded: set<ModuleKey>, apps: seq<ApplicationConfig>)
    requires Proper(FullConfig(apps))
    ensures var (r, l) := Delivered(m, loaded, FullConfig(apps)); Served(r, l)
  {
    SnapshotReachesOnce(apps);
    hide Full, OneTopicEach;
  }

  lemma DeliveryKeepsReachable(m: Registry, loaded: set<ModuleKey>, d: Delivery)
    requires Proper(d) && (Served(m, loaded) || d.FullConfig?)
    ensures var (r, l) := Delivered(m, loaded, d); Served(r, l)
  {
    match d
    case FullConfig(apps) => SnapshotRestores(m, loaded, apps);
    case IncrementalUpdate(updates) =>
      BatchCovers(m, updates);
      BatchKeepsReachable(m, loaded, updates);
      hide ApplyAll;
  }

  ghost predicate AllProper(ss: seq<Sync>) {
    forall i :: 0 <= i < |ss| ==> Proper(ss[i].delivery)
  }

  /** A failed load ends the stream, and the next one begins with a snapshot. */
  predicate Resyncs(ss: seq<Sync>) {
    forall i :: 0 <= i < |ss| - 1 && !Complete(ss[i]) ==> ss[i + 1].delivery.FullConfig?
  }

  /**
    Over any sequence of snapshots and batches, some of them cut short, every reachable function is loaded
    or submitted after each whole one. It is enough to start with a snapshot, whatever the host held.
   */
  lemma {:induction false} SessionKeepsReachable(m: Registry, loaded: set<ModuleKey>, ss: seq<Sync>)
    requires AllProper(ss) && Resyncs(ss) && (Served(m, loaded) || (ss != [] && ss[0].delivery.FullConfig?))
    ensures var (r, l) := Session(m, loaded, ss); ss == [] || Complete(ss[|ss| - 1]) ==> Served(r, l)
    decreases |ss|
  {
    hide Delivered, CutShort, Served, Proper;
    if ss != [] && Complete(ss[|ss| - 1]) {
      var rest, last := ss[..|ss| - 1], ss[|ss| - 1];
      var (r, l) := Session(m, loaded, rest);
      if !last.delivery.FullConfig? {
        assert rest != [] ==> rest[|rest| - 1] == ss[|ss| - 2];
        SessionKeepsReachable(m, loaded, rest);
      }
      DeliveryKeepsReachable(r, l, last.delivery);
    }
  }

  /** A batch that names nothing twice, or a snapshot that keeps serving what its topics served. */
  ghost predicate Tidy(m: Registry, d: Delivery) {
    match d
    case FullConfig(apps) => KeepsServing(m, Full(apps))
    case IncrementalUpdate(updates) => NamedOnce(updates) && TopicsOnce(updates)
  }

  lemma DeliveryIsExact(m: Registry, d: Delivery)
    requires OneTopicEach(m) && Proper(d) && Tidy(m, d)
    ensures var (r, l) := Delivered(m, Reachable(m), d); Reachable(r) == l
  {
    match d
    case FullConfig(apps) => SnapshotIsExactIff(m, apps);
    case IncrementalUpdate(updates) => BatchDiffIsExact(m, updates);
  }

  lemma DeliveryKeepsTopics(m: Registry, d: Delivery)
    requires OneTopicEach(m) && Proper(d)
    ensures OneTopicEach(Delivered(m, {}, d).0)
  {
    DeliveryKeepsReachable(m, Reachable(m), d);
    hide Full, ApplyAll, OneTopicEach;
  }

  /** More loaded before is more loaded after, and a delivery cut short loads less. */
  lemma DeliveredIsMonotone(m: Registry, loaded: set<ModuleKey>, more: set<ModuleKey>, s: Sync)
    requires loaded <= more
    ensures Synced(m, loaded, s).1 <= Delivered(m, more, s.delivery).1
    ensures Synced(m, loaded, s).0 == Delivered(m, more, s.delivery).0 == Delivered(m, {}, s.delivery).0
  {
    hide Full, ApplyAll, Gone, Reachable, Loaded;
  }

  /** Each delivery is tidy over the registry it finds. */
  ghost predicate AllTidy(m: Registry, loaded: set<ModuleKey>, ss: seq<Sync>) {
    forall n :: 0 <= n < |ss| ==> Tidy(Session(m, loaded, ss[..n]).0, ss[n].delivery)
  }

  /** A host that has loaded nothing its registry does not reach never has, after any tidy sequence. */
  lemma {:induction false} SessionLoadsNoMore(m: Registry, loaded: set<ModuleKey>, ss: seq<Sync>)
    requires OneTopicEach(m) && loaded <= Reachable(m) && AllProper(ss) && AllTidy(m, loaded, ss)
    ensures var (r, l) := Session(m, loaded, ss); OneTopicEach(r) && l <= Reachable(r)
    decreases |ss|
  {
    if ss != [] {
      var rest, last := ss[..|ss| - 1], ss[|ss| - 1];
      assert forall n :: 0 <= n < |rest| ==> rest[..n] == ss[..n] && rest[n] == ss[n];
      SessionLoadsNoMore(m, loaded, rest);
      var (r, l) := Session(m, loaded, rest);
      hide Synced, Delivered, OneTopicEach, Reachable, Proper, Tidy;
      DeliveredIsMonotone(r, l, Reachable(r), last);
      DeliveryKeepsTopics(r, last.delivery);
      DeliveryIsExact(r, last.delivery);
    }
  }

  /**
    Exactness, for any sequence of tidy snapshots and batches, reconnections included: after each whole one
    the host has loaded exactly what its registry reaches. Deliveries cut short only leave it with less. A
    fresh host, with nothing of either, is where it starts.
   */
  lemma SessionIsExact(m: Registry, loaded: set<ModuleKey>, ss: seq<Sync>)
    requires OneTopicEach(m) && loaded <= Reachable(m) && AllProper(ss) && AllTidy(m, loaded, ss) && Resyncs(ss)
    requires loaded == Reachable(m) || (ss != [] && ss[0].delivery.FullConfig?)
    ensures var (r, l) := Session(m, loaded, ss);
      l <= Reachable(r) && (ss == [] || Complete(ss[|ss| - 1]) ==> l == Reachable(r))
  {
    SessionLoadsNoMore(m, loaded, ss);
    SessionKeepsReachable(m, loaded, ss);
    hide Session, AllTidy, Resyncs, AllProper, OneTopicEach;
  }
}
