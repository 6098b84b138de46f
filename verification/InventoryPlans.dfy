/**
  What one reconcile of the Application controller achieves when nothing interferes: which entries an
  upsert releases, which a removal hands over, and that a resource asked for is journalled, created
  and recorded.
 */
module InventoryPlans {
  import opened Basics
  import opened Inventory
  import opened InventoryProtocol
  import opened InventorySafety
  import opened InventoryTheorems
  import opened InventoryProgress

  // ------------------------------------------------------------ discovery

  /** An entry with the UID of its child recorded. */
  function Noted(b: Binding, uid: Uid): Binding {
    b.(uid := uid, disposition := if b.disposition.Release? then Release else Active)
  }

  /** The entry tells the truth about the child, and knows no other UID. */
  predicate Knows(resources: map<Key, Binding>, children: map<Key, Child>, k: Key) {
    && k in children && k in resources && resources[k].key == k && Describes(resources[k], children[k])
    && (resources[k].uid == NO_UID || resources[k].uid == children[k].uid)
  }

  lemma PersistKnown(spec: Spec, children: map<Key, Child>, k: Key)
    requires Knows(spec.resources, children, k)
    ensures Persist(spec, AsBinding(k, children[k])) ==
      Ok(spec.(resources := spec.resources[k := Noted(spec.resources[k], children[k].uid)]))
  {
    var given := AsBinding(k, children[k]);
    assert SameBinding(spec.resources[k], given);
  }

  ghost predicate AllKnown(resources: map<Key, Binding>, children: map<Key, Child>, found: seq<Binding>) {
    forall i :: 0 <= i < |found| ==>
      Knows(resources, children, found[i].key) && found[i] == AsBinding(found[i].key, children[found[i].key])
  }

  predicate Found(found: seq<Binding>, k: Key) {
    exists i :: 0 <= i < |found| && found[i].key == k
  }

  /** Discovery records the UID of each child it finds, and nothing else. */
  ghost predicate Discovers(before: Spec, after: Spec, children: map<Key, Child>, found: seq<Binding>) {
    && after.releasing == before.releasing && after.resources.Keys == before.resources.Keys
    && forall k :: k in before.resources ==>
         after.resources[k] ==
           if Found(found, k) && k in children then Noted(before.resources[k], children[k].uid)
           else before.resources[k]
  }

  lemma FoundHead(found: seq<Binding>, k: Key)
    requires found != []
    ensures Found(found, k) <==> k == found[0].key || Found(found[1..], k)
  {
    if Found(found, k) {
      var i :| 0 <= i < |found| && found[i].key == k;
      if i > 0 {
        assert found[1..][i - 1].key == k;
      }
    }
    if Found(found[1..], k) {
      var i :| 0 <= i < |found| - 1 && found[1..][i].key == k;
      assert found[i + 1].key == k;
    }
  }

  lemma FoundOnce(found: seq<Binding>)
    requires found != [] && DistinctKeys(found)
    ensures !Found(found[1..], found[0].key)
  {
    assert forall i :: 0 <= i < |found| - 1 ==> found[1..][i] == found[i + 1];
  }

  lemma DiscoversHead(before: Spec, after: Spec, children: map<Key, Child>, found: seq<Binding>)
    requires found != [] && DistinctKeys(found) && AllKnown(before.resources, children, found)
    requires var k := found[0].key;
      Discovers(before.(resources := before.resources[k := Noted(before.resources[k], children[k].uid)]), after,
                children, found[1..])
    ensures Discovers(before, after, children, found)
  {
    FoundOnce(found);
    hide Found;
    forall k | k in before.resources
      ensures Found(found, k) <==> k == found[0].key || Found(found[1..], k)
    {
      FoundHead(found, k);
    }
  }

  lemma KnownTail(spec: Spec, children: map<Key, Child>, found: seq<Binding>)
    requires found != [] && DistinctKeys(found) && AllKnown(spec.resources, children, found)
    ensures var k := found[0].key;
      AllKnown(spec.resources[k := Noted(spec.resources[k], children[k].uid)], children, found[1..])
    ensures DistinctKeys(found[1..])
  {
    assert forall i :: 0 <= i < |found| - 1 ==> found[1..][i] == found[i + 1];
  }

  lemma {:induction false} DiscoverySucceeds(spec: Spec, children: map<Key, Child>, found: seq<Binding>)
    requires DistinctKeys(found) && AllKnown(spec.resources, children, found)
    ensures PersistAll(spec, found).Ok? && Discovers(spec, PersistAll(spec, found).value, children, found)
    decreases |found|
  {
    hide Noted, Persist;
    if found != [] {
      var k := found[0].key;
      assert Knows(spec.resources, children, k) && found[0] == AsBinding(k, children[k]);
      hide Knows;
      PersistKnown(spec, children, k);
      KnownTail(spec, children, found);
      var next := spec.(resources := spec.resources[k := Noted(spec.resources[k], children[k].uid)]);
      hide AllKnown, Discovers, DistinctKeys;
      DiscoverySucceeds(next, children, found[1..]);
      DiscoversHead(spec, PersistAll(next, found[1..]).value, children, found);
    }
  }

  /** The two lists of the current children are known, and complete. */
  lemma ListsAreKnown(w: World, credentials: seq<Binding>, migrations: seq<Binding>)
    requires Invariant(w) && w.inv.Some?
    requires Lists(credentials, w.children, PostgresCredential) && Lists(migrations, w.children, PostgresMigrationSet)
    ensures var found := credentials + migrations;
      && DistinctKeys(found) && AllKnown(w.inv.value.spec.resources, w.children, found)
      && forall k :: k in w.children ==> Found(found, k)
  {
    hide AppView, InvView, Phases, AllReleased;
    var found := credentials + migrations;
    forall k | k in w.children
      ensures Found(found, k)
    {
      if k.kind.PostgresCredential? {
        var i :| 0 <= i < |credentials| && credentials[i].key == k;
        assert found[i].key == k;
      } else {
        assert k.kind.PostgresMigrationSet?;
        var i :| 0 <= i < |migrations| && migrations[i].key == k;
        assert found[|credentials| + i].key == k;
      }
    }
    forall i | 0 <= i < |found|
      ensures Knows(w.inv.value.spec.resources, w.children, found[i].key)
      ensures found[i] == AsBinding(found[i].key, w.children[found[i].key])
    {
      var k := found[i].key;
      assert found[i] == if i < |credentials| then credentials[i] else migrations[i - |credentials|];
      assert k in w.children;
      assert w.inv.value.spec.resources[k].key == k;
    }
  }

  // ------------------------------------------------------------ an upsert

  /** What an upsert makes of an entry: its child's UID, and a release exactly when nobody wants it. */
  function Upserted(b: Binding, k: Key, children: map<Key, Child>, wanted: set<(Kind, string)>): Binding {
    var noted := if k in children then Noted(b, children[k].uid) else b;
    if !b.retained && (k.kind, b.logicalName) !in wanted then noted.(disposition := Release) else noted
  }

  lemma UpsertEntries(
    spec: Spec, mid: Spec, children: map<Key, Child>, found: seq<Binding>, wanted: set<(Kind, string)>)
    requires WellFormed(spec) && Discovers(spec, mid, children, found)
    requires forall k :: k in children ==> Found(found, k)
    ensures var next := MarkUnwanted(mid, wanted);
      && next.releasing == spec.releasing && next.resources.Keys == spec.resources.Keys
      && forall k :: k in spec.resources ==> next.resources[k] == Upserted(spec.resources[k], k, children, wanted)
  {
    hide Found;
  }

  lemma UpsertPlan(w: World, credentials: seq<Binding>, migrations: seq<Binding>, wanted: set<(Kind, string)>)
    requires Invariant(w) && w.inv.Some?
    requires Lists(credentials, w.children, PostgresCredential) && Lists(migrations, w.children, PostgresMigrationSet)
    ensures var spec := w.inv.value.spec; var d := Desired(spec, Upsert, credentials + migrations, wanted);
      && d.Ok? && d.value.releasing == spec.releasing && d.value.resources.Keys == spec.resources.Keys
      && forall k :: k in spec.resources ==>
           d.value.resources[k] == Upserted(spec.resources[k], k, w.children, wanted)
  {
    hide Lists, AllKnown, PersistAll, Discovers, Found, MarkUnwanted, Upserted;
    var spec, found := w.inv.value.spec, credentials + migrations;
    assert WellFormed(spec);
    hide Invariant;
    ListsAreKnown(w, credentials, migrations);
    DiscoverySucceeds(spec, w.children, found);
    UpsertEntries(spec, PersistAll(spec, found).value, w.children, found, wanted);
  }

  /** The steps from the lists to the decision what to do next. */
  lemma PlanIs(w: World, listed: seq<Binding>, wanted: set<(Kind, string)>, needed: bool)
    requires w.a.AListMigrations? && Lists(listed, w.children, PostgresMigrationSet)
    ensures Step(w, ListMigrations(listed, wanted, needed)) == PlanStep(w, w.a.op, w.a.snap, w.a.found + listed, wanted)
  {
    hide InventoryStep, ClusterStep, PlanStep, Lists;
  }

  lemma UpdateIs(w: World)
    requires w.a.AUpdateInventory?
    ensures Step(w, UpdateInventory) == UpdateInventoryStep(w, w.a.op, w.a.snap, w.a.next)
  {
    hide InventoryStep, ClusterStep, UpdateInventoryStep;
  }

  /** Planned over the stored inventory and written to it. */
  ghost predicate PlansFresh(w: World, op: Op) {
    w.a.AListMigrations? && w.a.op == op && w.inv == Some(w.a.snap)
      && Lists(w.a.found, w.children, PostgresCredential)
  }

  lemma PlannedAndWritten(w: World, listed: seq<Binding>, wanted: set<(Kind, string)>, needed: bool)
    requires w.a.AListMigrations? && PlansFresh(w, w.a.op) && Lists(listed, w.children, PostgresMigrationSet)
    requires Desired(w.a.snap.spec, w.a.op, w.a.found + listed, wanted).Ok?
    ensures var r := Step(Step(w, ListMigrations(listed, wanted, needed)), UpdateInventory);
      var next := Desired(w.a.snap.spec, w.a.op, w.a.found + listed, wanted).value;
      && r.inv.Some? && r.inv.value.spec == next && r.inv.value.deleting == w.a.snap.deleting
      && r.a == AfterUpdate(w.a.op, next)
      && r == w.(inv := r.inv, clock := r.clock, a := r.a)
  {
    PlanIs(w, listed, wanted, needed);
    UpdateIs(Step(w, ListMigrations(listed, wanted, needed)));
    hide Step, Desired, Lists, AfterUpdate;
  }

  /** Exactly what is neither retained nor wanted is released, and every child's UID is recorded. */
  ghost predicate ReleasesExactly(before: map<Key, Binding>, after: map<Key, Binding>, children: map<Key, Child>,
                                  wanted: set<(Kind, string)>) {
    && after.Keys == before.Keys
    && forall k :: k in before ==>
         && after[k].retained == before[k].retained && after[k].logicalName == before[k].logicalName
         && (after[k].disposition.Release? <==>
               before[k].disposition.Release?
               || (!before[k].retained && (k.kind, before[k].logicalName) !in wanted))
         && after[k].uid == if k in children then children[k].uid else before[k].uid
  }

  lemma UpsertedExactly(before: map<Key, Binding>, after: map<Key, Binding>, children: map<Key, Child>,
                        wanted: set<(Kind, string)>)
    requires after.Keys == before.Keys
    requires forall k :: k in before ==> after[k] == Upserted(before[k], k, children, wanted)
    ensures ReleasesExactly(before, after, children, wanted)
  {
  }

  lemma UpsertAfter(w: World, listed: seq<Binding>, wanted: set<(Kind, string)>, needed: bool)
    requires Invariant(w) && PlansFresh(w, Upsert) && Lists(listed, w.children, PostgresMigrationSet)
    ensures var r := Step(Step(w, ListMigrations(listed, wanted, needed)), UpdateInventory);
      && r == w.(inv := r.inv, clock := r.clock, a := r.a) && r.inv.Some?
      && r.inv.value.spec.releasing == w.inv.value.spec.releasing && r.inv.value.deleting == w.inv.value.deleting
      && (forall k :: k in TableOf(w.inv) ==>
            k in TableOf(r.inv) && TableOf(r.inv)[k] == Upserted(TableOf(w.inv)[k], k, w.children, wanted))
      && ReleasesExactly(TableOf(w.inv), TableOf(r.inv), w.children, wanted)
      && r.a == if Pending(r.inv.value.spec) then AIdle else AServe
  {
    hide Step, Invariant, Lists, Desired, Upserted, ReleasesExactly, Pending;
    UpsertPlan(w, w.a.found, listed, wanted);
    PlannedAndWritten(w, listed, wanted, needed);
    var r := Step(Step(w, ListMigrations(listed, wanted, needed)), UpdateInventory);
    UpsertedExactly(TableOf(w.inv), TableOf(r.inv), w.children, wanted);
  }

  /**
    In every run, an upsert whose lists are current and that nobody overtakes never fails. It releases
    every entry that is neither retained nor wanted and no other, records the UID of every child, and
    goes on to serve exactly when nothing is left to be released.
   */
  lemma UpsertReleasesExactly(events: seq<Event>, listed: seq<Binding>, wanted: set<(Kind, string)>, needed: bool)
    requires var w := Run(Init(), events); PlansFresh(w, Upsert) && Lists(listed, w.children, PostgresMigrationSet)
    ensures var w := Run(Init(), events);
      var r := Run(Init(), events + [ListMigrations(listed, wanted, needed), UpdateInventory]);
      && r.children == w.children && ReleasesExactly(TableOf(w.inv), TableOf(r.inv), w.children, wanted)
      && var t := TableOf(r.inv);
         r.a == if exists k :: k in t && !t[k].retained && t[k].disposition.Release? then AIdle else AServe
  {
    var w := Run(Init(), events);
    var es := [ListMigrations(listed, wanted, needed), UpdateInventory];
    hide Init, Step, Steps, Invariant, Lists, ReleasesExactly;
    RunKeeps(events);
    RunContinues(events, es);
    TwoSteps(w, es[0], es[1]);
    hide Run;
    UpsertAfter(w, listed, wanted, needed);
  }

  // ------------------------------------------------------------ a removal

  lemma RemovalPlan(w: World, credentials: seq<Binding>, migrations: seq<Binding>, policy: Policy)
    requires Invariant(w) && w.inv.Some?
    requires Lists(credentials, w.children, PostgresCredential) && Lists(migrations, w.children, PostgresMigrationSet)
    ensures forall wanted ::
      var spec := w.inv.value.spec; var d := Desired(spec, Remove(policy), credentials + migrations, wanted);
      && d.Ok? && d.value.releasing && d.value.resources.Keys == spec.resources.Keys
      && forall k :: k in spec.resources ==>
           && d.value.resources[k].retained == spec.resources[k].retained
           && (!spec.resources[k].retained ==> d.value.resources[k].disposition.Release?)
  {
    var spec, found := w.inv.value.spec, credentials + migrations;
    ListsAreKnown(w, credentials, migrations);
    hide Invariant, Lists, AllKnown, PersistAll;
    DiscoverySucceeds(spec, w.children, found);
    hide Found;
  }

  lemma StatusIs(w: World)
    requires w.a.AStatus?
    ensures Step(w, UpdateStatus) ==
      w.(a := if w.a.policy.OrphanInventory? || !w.a.pending then AFinalize(w.a.policy) else AIdle)
  {
    hide InventoryStep, ClusterStep;
  }

  lemma FinalizeIs(w: World)
    ensures Step(w, RemoveFinalizer) == if w.a.AFinalize? then w.(app := Gone, a := AIdle) else w
  {
    hide InventoryStep, ClusterStep;
  }

  /**
    In every run, a removal whose lists are current and that nobody overtakes hands every obligation
    over for release, and lets the Application go exactly when its policy is to leave the inventory
    behind or no obligation is left.
   */
  lemma RemovalHandsOver(events: seq<Event>, listed: seq<Binding>, wanted: set<(Kind, string)>, policy: Policy)
    requires var w := Run(Init(), events);
      PlansFresh(w, Remove(policy)) && Lists(listed, w.children, PostgresMigrationSet) && !w.app.Gone?
    ensures var w := Run(Init(), events);
      var es := [ListMigrations(listed, wanted, false), UpdateInventory] + [UpdateStatus, RemoveFinalizer];
      var r := Run(Init(), events + es);
      && r.inv.Some? && r.inv.value.spec.releasing && TableOf(r.inv).Keys == TableOf(w.inv).Keys
      && (forall k :: k in TableOf(w.inv) ==> TableOf(r.inv)[k].retained || TableOf(r.inv)[k].disposition.Release?)
      && (r.app.Gone? <==> policy.OrphanInventory? || forall k :: k in TableOf(w.inv) ==> TableOf(w.inv)[k].retained)
      && r.a.AIdle?
  {
    var w := Run(Init(), events);
    var es, fs := [ListMigrations(listed, wanted, false), UpdateInventory], [UpdateStatus, RemoveFinalizer];
    RunKeeps(events);
    RunContinues(events, es + fs);
    StepsJoin(w, es, fs);
    TwoSteps(w, es[0], es[1]);
    RemovalPlan(w, w.a.found, listed, policy);
    hide Run, Init, Step, Steps, Invariant, Lists, Desired;
    PlannedAndWritten(w, listed, wanted, false);
    var p := Steps(w, es);
    TwoSteps(p, fs[0], fs[1]);
    StatusIs(p);
    FinalizeIs(Step(p, UpdateStatus));
  }

  // ------------------------------------------------------------ a resource asked for

  /** An Application in service: known to its controller, with an inventory that only holds what is wanted. */
  ghost predicate InService(w: World, wanted: set<(Kind, string)>) {
    && w.app.Protected? && w.appCache.Protected? && w.a.AIdle?
    && w.inv.Some? && !w.inv.value.spec.releasing && !w.inv.value.deleting
    && forall k :: k in TableOf(w.inv) ==>
         var b := TableOf(w.inv)[k]; b.retained || (!b.disposition.Release? && (k.kind, b.logicalName) in wanted)
  }

  lemma BeginsAndReads(w: World, credentials: seq<Binding>)
    requires w.a.AIdle? && w.appCache.Protected? && w.inv.Some? && !w.inv.value.deleting
    requires Lists(credentials, w.children, PostgresCredential)
    ensures Steps(w, [BeginUpsert, ReadInventory([]), ListCredentials(credentials)]) ==
      w.(a := AListMigrations(Upsert, w.inv.value, credentials))
  {
    ThreeSteps(w, BeginUpsert, ReadInventory([]), ListCredentials(credentials));
    hide Steps, InventoryStep, ClusterStep, Lists, PersistAll;
    assert Step(w, BeginUpsert) == w.(a := AEnsure(Upsert));
    assert Step(Step(w, BeginUpsert), ReadInventory([])) == w.(a := AListCredentials(Upsert, w.inv.value));
  }

  lemma NothingPending(w: World, r: World, wanted: set<(Kind, string)>)
    requires InService(w, wanted) && r.inv.Some?
    requires ReleasesExactly(TableOf(w.inv), TableOf(r.inv), w.children, wanted)
    ensures !Pending(r.inv.value.spec)
  {
  }

  lemma BindIs(w: World)
    requires w.a.AServe? && w.inv.Some? && !w.inv.value.spec.releasing && !w.inv.value.deleting
    ensures Step(w, BindInventory) == w.(a := ABound)
  {
    hide InventoryStep, ClusterStep;
  }

  /** Ready to look a resource up, with the inventory up to date and nothing lost. */
  ghost predicate Bound(w: World, r: World, wanted: set<(Kind, string)>) {
    && r == w.(inv := r.inv, clock := r.clock, a := ABound) && r.inv.Some?
    && !r.inv.value.spec.releasing && !r.inv.value.deleting
    && ReleasesExactly(TableOf(w.inv), TableOf(r.inv), w.children, wanted)
  }

  function Preamble(credentials: seq<Binding>, migrations: seq<Binding>, wanted: set<(Kind, string)>): seq<Event> {
    [BeginUpsert, ReadInventory([]), ListCredentials(credentials)]
    + [ListMigrations(migrations, wanted, true), UpdateInventory, BindInventory]
  }

  lemma {:induction false} StepsKeep(w: World, events: seq<Event>)
    requires Invariant(w)
    ensures Invariant(Steps(w, events))
    decreases |events|
  {
    hide Invariant, Step;
    if events != [] {
      StepKeeps(w, events[0]);
      StepsKeep(Step(w, events[0]), events[1..]);
    }
  }

  lemma ReachesBound(w: World, credentials: seq<Binding>, migrations: seq<Binding>, wanted: set<(Kind, string)>)
    requires Invariant(w) && InService(w, wanted)
    requires Lists(credentials, w.children, PostgresCredential) && Lists(migrations, w.children, PostgresMigrationSet)
    ensures Bound(w, Steps(w, Preamble(credentials, migrations, wanted)), wanted)
  {
    hide Steps, Step, Invariant, Lists, ReleasesExactly, Pending;
    var es := [BeginUpsert, ReadInventory([]), ListCredentials(credentials)];
    var fs := [ListMigrations(migrations, wanted, true), UpdateInventory, BindInventory];
    BeginsAndReads(w, credentials);
    StepsKeep(w, es);
    StepsJoin(w, es, fs);
    var p := Steps(w, es);
    ThreeSteps(p, fs[0], fs[1], fs[2]);
    UpsertAfter(p, migrations, wanted, true);
    var r := Step(Step(p, fs[0]), fs[1]);
    NothingPending(w, r, wanted);
    BindIs(r);
  }

  /** No entry stands under the key of this resource or for this name, and there is room for one. */
  predicate Unheard(table: map<Key, Binding>, kind: Kind, namespace: string, logicalName: string) {
    && Intent(kind, namespace, logicalName).key !in table && |table| < MAX_ENTRIES
    && forall k :: k in table ==> table[k].key.kind == kind && table[k].logicalName == logicalName ==> table[k].retained
  }

  lemma LookupIs(w: World, kind: Kind, namespace: string, logicalName: string)
    requires w.a.ABound? && ChildKind(kind) && w.inv.Some? && Unheard(TableOf(w.inv), kind, namespace, logicalName)
    ensures Step(w, LookupResource(kind, namespace, logicalName, None)) ==
      w.(a := APersist(Intent(kind, namespace, logicalName), false))
  {
    hide InventoryStep, ClusterStep;
  }

  /** Reading for a persist and writing it, with the inventory open and the persist accepted. */
  lemma PersistIs(w: World)
    requires w.a.APersist? && w.inv.Some? && !w.inv.value.spec.releasing && !w.inv.value.deleting
    requires Persist(w.inv.value.spec, w.a.entry).Ok?
    ensures var next := Persist(w.inv.value.spec, w.a.entry).value;
      var r := Step(Step(w, ReadForPersist), WritePersist);
      && r.inv.Some? && r.inv.value.spec == next && r.inv.value.deleting == w.inv.value.deleting
      && r.a == AfterPersist(w.a.entry, w.a.recorded) && r.clock >= w.clock
      && r == w.(inv := r.inv, clock := r.clock, a := r.a)
  {
    hide InventoryStep, ClusterStep, Persist;
    assert Step(w, ReadForPersist) ==
      w.(a := APersistUpdate(w.a.entry, w.a.recorded, w.inv.value, Persist(w.inv.value.spec, w.a.entry).value));
  }

  /** The intent is journalled before anything is created. */
  lemma Journals(w: World, kind: Kind, namespace: string, logicalName: string)
    requires w.a.ABound? && ChildKind(kind) && w.inv.Some? && Unheard(TableOf(w.inv), kind, namespace, logicalName)
    requires !w.inv.value.spec.releasing && !w.inv.value.deleting
    ensures var e := Intent(kind, namespace, logicalName);
      var r := Steps(w, [LookupResource(kind, namespace, logicalName, None), ReadForPersist, WritePersist]);
      && r == w.(inv := r.inv, clock := r.clock, a := AEnsureChild(e)) && r.inv.Some?
      && r.inv.value.spec == w.inv.value.spec.(resources := TableOf(w.inv)[e.key := e]) && !r.inv.value.deleting
  {
    var e := Intent(kind, namespace, logicalName);
    assert Persist(w.inv.value.spec, e) == Ok(w.inv.value.spec.(resources := TableOf(w.inv)[e.key := e]));
    hide Steps, Step, Persist;
    LookupIs(w, kind, namespace, logicalName);
    PersistIs(w.(a := APersist(e, false)));
    ThreeSteps(w, LookupResource(kind, namespace, logicalName, None), ReadForPersist, WritePersist);
  }

  function Creation(kind: Kind): seq<Event> {
    if kind.PostgresCredential? then [ObserveChild(None), ObserveNoSecret, CreateChild]
    else [ObserveChild(None), CreateChild]
  }

  lemma ObserveIs(w: World)
    requires w.a.AEnsureChild? && Creatable(w.a.entry) && w.a.entry.uid == NO_UID && w.a.entry.key !in w.children
    ensures Step(w, ObserveChild(None)) ==
      w.(a := if w.a.entry.key.kind.PostgresCredential? then ACheckSecret(w.a.entry) else ACreateChild(w.a.entry))
  {
    hide InventoryStep, ClusterStep;
  }

  lemma CreateIs(w: World)
    requires w.a.ACreateChild? && w.a.entry.key !in w.children
    ensures var e, uid := w.a.entry, w.clock + 1;
      Step(w, CreateChild) ==
        w.(children := w.children[e.key := Child(uid, e.logicalName, e.fields, false)], clock := uid,
           a := APersist(e.(uid := uid), true))
  {
    hide InventoryStep, ClusterStep;
  }

  lemma NoSecretIs(w: World)
    requires w.a.ACheckSecret? && w.a.entry.key !in w.secrets
    ensures Step(w, ObserveNoSecret) == w.(a := ACreateChild(w.a.entry))
  {
    hide InventoryStep, ClusterStep;
  }

  /** Nothing is there yet, so the child is created, with the fields of its intent. */
  lemma CreatesChild(w: World)
    requires w.a.AEnsureChild? && Creatable(w.a.entry) && w.a.entry.uid == NO_UID
    requires w.a.entry.key !in w.children && w.a.entry.key !in w.secrets
    ensures var e, uid := w.a.entry, w.clock + 1;
      Steps(w, Creation(e.key.kind)) ==
        w.(children := w.children[e.key := Child(uid, e.logicalName, e.fields, false)], clock := uid,
           a := APersist(e.(uid := uid), true))
  {
    hide Steps, Step, Creatable;
    var e := w.a.entry;
    ObserveIs(w);
    if e.key.kind.PostgresCredential? {
      ThreeSteps(w, ObserveChild(None), ObserveNoSecret, CreateChild);
      NoSecretIs(w.(a := ACheckSecret(e)));
    } else {
      TwoSteps(w, ObserveChild(None), CreateChild);
    }
    CreateIs(w.(a := ACreateChild(e)));
  }

  /** The UID of the new child goes into its entry. */
  lemma RecordsUid(w: World, e: Binding)
    requires w.a == APersist(e, true) && e.uid != NO_UID && e.disposition.Active? && !e.retained
    requires w.inv.Some? && !w.inv.value.spec.releasing && !w.inv.value.deleting
    requires e.key in TableOf(w.inv) && TableOf(w.inv)[e.key] == e.(uid := NO_UID)
    ensures var r := Steps(w, [ReadForPersist, WritePersist]);
      && r == w.(inv := r.inv, clock := r.clock, a := ABound) && TableOf(r.inv) == TableOf(w.inv)[e.key := e]
  {
    assert Persist(w.inv.value.spec, e) == Ok(w.inv.value.spec.(resources := TableOf(w.inv)[e.key := e]));
    hide Steps, Step, Persist;
    TwoSteps(w, ReadForPersist, WritePersist);
    PersistIs(w);
  }

  /** No child and no Secret without an entry. */
  lemma NoneUnheard(w: World, k: Key)
    requires Invariant(w) && k !in TableOf(w.inv)
    ensures k !in w.children && k !in w.secrets
  {
    hide AppView, InvView, Phases, Fenced, AllReleased, Stored;
  }

  lemma StillUnheard(before: map<Key, Binding>, after: map<Key, Binding>, children: map<Key, Child>,
                     wanted: set<(Kind, string)>, kind: Kind, namespace: string, logicalName: string)
    requires ReleasesExactly(before, after, children, wanted) && Unheard(before, kind, namespace, logicalName)
    requires forall k :: k in before ==> before[k].key == k
    requires forall k :: k in after ==> after[k].key == k
    ensures Unheard(after, kind, namespace, logicalName)
  {
    MapSize(before, after);
  }

  /** From the journalled intent: the child is created and its UID recorded. */
  lemma CreatesAndRecords(w: World, e: Binding)
    requires w.a == AEnsureChild(e) && Creatable(e) && e.uid == NO_UID && e.disposition.Active?
    requires e.key !in w.children && e.key !in w.secrets
    requires w.inv.Some? && !w.inv.value.spec.releasing && !w.inv.value.deleting
    requires e.key in TableOf(w.inv) && TableOf(w.inv)[e.key] == e
    ensures var uid := w.clock + 1; var r := Steps(w, Creation(e.key.kind) + [ReadForPersist, WritePersist]);
      && r.children == w.children[e.key := Child(uid, e.logicalName, e.fields, false)] && r.a.ABound?
      && TableOf(r.inv) == TableOf(w.inv)[e.key := e.(uid := uid)]
  {
    assert !e.retained;
    hide Steps, Step, Creation, Creatable;
    StepsJoin(w, Creation(e.key.kind), [ReadForPersist, WritePersist]);
    CreatesChild(w);
    RecordsUid(Steps(w, Creation(e.key.kind)), e.(uid := w.clock + 1));
  }

  /** The fields of the intent: named after the Application, with no UID and nothing to release. */
  lemma IntentHas(kind: Kind, namespace: string, logicalName: string)
    ensures var e := Intent(kind, namespace, logicalName);
      && e.key.kind == kind && e.key.namespace == namespace && e.key.name == Hashed(kind, logicalName)
      && e.uid == NO_UID && e.logicalName == logicalName && !e.retained && e.disposition.Active?
      && e.fields == Derived(kind, logicalName) && (ChildKind(kind) ==> Creatable(e))
  {
  }

  function Provision(kind: Kind, namespace: string, logicalName: string): seq<Event> {
    [LookupResource(kind, namespace, logicalName, None), ReadForPersist, WritePersist]
    + (Creation(kind) + [ReadForPersist, WritePersist])
  }

  /** From the bound inventory: journal, create, record. */
  lemma Provisions(w: World, kind: Kind, namespace: string, logicalName: string)
    requires w.a.ABound? && ChildKind(kind) && w.inv.Some? && Unheard(TableOf(w.inv), kind, namespace, logicalName)
    requires !w.inv.value.spec.releasing && !w.inv.value.deleting
    requires Intent(kind, namespace, logicalName).key !in w.children
    requires Intent(kind, namespace, logicalName).key !in w.secrets
    ensures var e := Intent(kind, namespace, logicalName); var r := Steps(w, Provision(kind, namespace, logicalName));
      && e.key in r.children && r.children[e.key].uid != NO_UID
      && r.children == w.children[e.key := Child(r.children[e.key].uid, logicalName, e.fields, false)]
      && TableOf(r.inv) == TableOf(w.inv)[e.key := e.(uid := r.children[e.key].uid)] && r.a.ABound?
  {
    var e := Intent(kind, namespace, logicalName);
    var es := [LookupResource(kind, namespace, logicalName, None), ReadForPersist, WritePersist];
    hide Steps, Step, Unheard, Creation, Creatable, Intent;
    IntentHas(kind, namespace, logicalName);
    StepsJoin(w, es, Creation(kind) + [ReadForPersist, WritePersist]);
    Journals(w, kind, namespace, logicalName);
    var p := Steps(w, es);
    CreatesAndRecords(p, e);
    var recorded := e.(uid := p.clock + 1);
    assert TableOf(w.inv)[e.key := e][e.key := recorded] == TableOf(w.inv)[e.key := recorded];
  }

  lemma KeysMatch(w: World)
    requires Invariant(w)
    ensures forall k :: k in TableOf(w.inv) ==> TableOf(w.inv)[k].key == k
  {
    hide AppView, InvView, Phases, Fenced, AllReleased, Guarded;
  }

  /** The reconcile below, from any state that keeps the invariant. */
  lemma ProvisionsFrom(w: World, credentials: seq<Binding>, migrations: seq<Binding>,
                       wanted: set<(Kind, string)>, kind: Kind, namespace: string, logicalName: string)
    requires Invariant(w) && InService(w, wanted) && ChildKind(kind)
    requires Unheard(TableOf(w.inv), kind, namespace, logicalName)
    requires Lists(credentials, w.children, PostgresCredential) && Lists(migrations, w.children, PostgresMigrationSet)
    ensures var e := Intent(kind, namespace, logicalName);
      var p := Steps(w, Preamble(credentials, migrations, wanted));
      var r := Steps(p, Provision(kind, namespace, logicalName));
      && ReleasesExactly(TableOf(w.inv), TableOf(p.inv), w.children, wanted)
      && e.key !in w.children && e.key !in TableOf(p.inv) && e.key in r.children && r.children[e.key].uid != NO_UID
      && r.children == w.children[e.key := Child(r.children[e.key].uid, logicalName, e.fields, false)]
      && TableOf(r.inv) == TableOf(p.inv)[e.key := e.(uid := r.children[e.key].uid)]
  {
    var es := Preamble(credentials, migrations, wanted);
    var k := Intent(kind, namespace, logicalName).key;
    hide Init, Step, Steps, Invariant, Lists, ReleasesExactly, Preamble, Provision, Intent;
    ReachesBound(w, credentials, migrations, wanted);
    var p := Steps(w, es);
    StepsKeep(w, es);
    KeysMatch(w);
    KeysMatch(p);
    NoneUnheard(w, k);
    StillUnheard(TableOf(w.inv), TableOf(p.inv), w.children, wanted, kind, namespace, logicalName);
    Provisions(p, kind, namespace, logicalName);
  }

  /**
    A resource asked for is provisioned. In every run, from an Application in service, an undisturbed
    reconcile ends with the child created under its hashed name, an active entry that records its UID,
    and no other child or entry lost or released.
   */
  lemma ProvisioningSucceeds(events: seq<Event>, credentials: seq<Binding>, migrations: seq<Binding>,
                             wanted: set<(Kind, string)>, kind: Kind, namespace: string, logicalName: string)
    requires var w := Run(Init(), events);
      && InService(w, wanted) && ChildKind(kind) && Unheard(TableOf(w.inv), kind, namespace, logicalName)
      && Lists(credentials, w.children, PostgresCredential) && Lists(migrations, w.children, PostgresMigrationSet)
    ensures var w := Run(Init(), events); var k := Key(kind, namespace, Hashed(kind, logicalName));
      var es := Preamble(credentials, migrations, wanted) + Provision(kind, namespace, logicalName);
      var r := Run(Init(), events + es);
      && k in r.children && k in TableOf(r.inv) && r.children - {k} == w.children
      && r.children[k] == Child(r.children[k].uid, logicalName, Derived(kind, logicalName), false)
      && TableOf(r.inv)[k].uid == r.children[k].uid != NO_UID && TableOf(r.inv)[k].disposition.Active?
      && ReleasesExactly(TableOf(w.inv), TableOf(r.inv) - {k}, w.children, wanted)
  {
    var w := Run(Init(), events);
    var k := Key(kind, namespace, Hashed(kind, logicalName));
    var es, fs := Preamble(credentials, migrations, wanted), Provision(kind, namespace, logicalName);
    IntentHas(kind, namespace, logicalName);
    hide Init, Step, Steps, Run, Invariant, Lists, ReleasesExactly, Preamble, Provision, Intent, InService, Unheard;
    RunKeeps(events);
    RunContinues(events, es + fs);
    StepsJoin(w, es, fs);
    ProvisionsFrom(w, credentials, migrations, wanted, kind, namespace, logicalName);
    var p := Steps(w, es);
    var r := Steps(p, fs);
    assert TableOf(r.inv) - {k} == TableOf(p.inv);
    assert r.children - {k} == w.children;
  }
}
