/**
  What the Application controller's reconciles come to at the edges: without an inventory, on the way
  out, and for resources that are already there.
 */
module InventoryOutcomes {
  import opened Basics
  import opened Inventory
  import opened InventoryProtocol
  import opened InventorySafety
  import opened InventoryTheorems
  import opened InventoryProgress
  import opened InventoryPlans

  // ------------------------------------------------------------ lists

  lemma {:induction false} ListOf(children: map<Key, Child>, keys: set<Key>) returns (listed: seq<Binding>)
    requires keys <= children.Keys
    ensures forall i :: 0 <= i < |listed| ==>
      listed[i].key in keys && listed[i] == AsBinding(listed[i].key, children[listed[i].key])
    ensures forall i, j :: 0 <= i < j < |listed| ==> listed[i].key != listed[j].key
    ensures forall k :: k in keys ==> exists i :: 0 <= i < |listed| && listed[i].key == k
    decreases keys
  {
    if keys == {} {
      listed := [];
    } else {
      var k :| k in keys;
      var rest := ListOf(children, keys - {k});
      listed := rest + [AsBinding(k, children[k])];
      assert listed[|rest|].key == k;
      forall l | l in keys
        ensures exists i :: 0 <= i < |listed| && listed[i].key == l
      {
        if l != k {
          assert l in keys - {k};
          var i :| 0 <= i < |rest| && rest[i].key == l;
          assert listed[i].key == l;
        }
      }
    }
  }

  /** Whatever the children, there is a list of those of one kind. */
  lemma ListsExist(children: map<Key, Child>, kind: Kind)
    ensures exists listed :: Lists(listed, children, kind)
  {
    var keys := set k | k in children && k.kind == kind;
    var listed := ListOf(children, keys);
    assert forall k :: k in children && k.kind == kind ==> k in keys;
    assert Lists(listed, children, kind);
  }

  // ------------------------------------------------------------ children are as named

  /** The name and the binding that the Application's own naming gives a child. */
  predicate Named(k: Key, logicalName: string, fields: Fields) {
    ChildKind(k.kind) && k.name == Hashed(k.kind, logicalName) && fields == Derived(k.kind, logicalName)
  }

  predicate Creating(a: AppPc) {
    a.ACheckSecret? || a.ACreateChild?
  }

  ghost predicate AllNamed(w: World) {
    && (forall k :: k in w.children ==> Named(k, w.children[k].logicalName, w.children[k].fields))
    && (Creating(w.a) ==> Named(w.a.entry.key, w.a.entry.logicalName, w.a.entry.fields))
  }

  predicate CreatesNothing(w: World, r: World) {
    r.children == w.children && r.secrets == w.secrets && (r.a == w.a || !Creating(r.a))
  }

  lemma PlanningCreatesNothing(w: World, e: Event)
    requires e.ReadInventory? || e.ListMigrations? || e.UpdateInventory?
    ensures CreatesNothing(w, ApplicationStep(w, e))
  {
    hide Persist, PersistAll, Desired, Lists, Pending;
  }

  lemma PersistingCreatesNothing(w: World, e: Event)
    requires e.LookupResource? || e.ReadForPersist? || e.WritePersist?
    ensures CreatesNothing(w, ApplicationStep(w, e))
  {
    hide Persist, Matches, Intent;
  }

  lemma OthersCreateNothing(w: World, e: Event)
    requires !e.ObserveChild? && !e.ObserveNoSecret? && !e.CreateChild?
    ensures CreatesNothing(w, ApplicationStep(w, e))
  {
    hide ReadInventoryStep, NewInventoryStep, PlanStep, UpdateInventoryStep, LookupStep, ReadForPersistStep;
    hide WritePersistStep, Lists, ObserveChildStep, CreateChildStep;
    if e.ReadInventory? || e.ListMigrations? || e.UpdateInventory? {
      PlanningCreatesNothing(w, e);
    } else if e.LookupResource? || e.ReadForPersist? || e.WritePersist? {
      PersistingCreatesNothing(w, e);
    }
  }

  lemma WriteLeaves(w: World, snap: Object, next: Spec)
    ensures var r := WriteInventory(w, snap, next); r.a == w.a && r.secrets == w.secrets && r.children == w.children
  {
  }

  lemma WritesLeave(w: World, e: Event)
    requires e.WriteRelease? || e.WriteRemoval? || e.WriteUid? || e.WriteEnd?
    ensures var r := InventoryStep(w, e); r.a == w.a && r.secrets == w.secrets && r.children == w.children
  {
    hide ReadApplicationStep, VisitChildStep, VisitSecretStep, DeleteChildStep, FinishLoopStep;
    hide Persist, ReleaseAll, Fresh, WriteInventory;
    if e.WriteRelease? && w.i.IWriteRelease? {
      WriteLeaves(w, w.i.snap, ReleaseAll(w.i.snap.spec));
    } else if e.WriteRemoval? && w.i.IWriteRemoval? {
      WriteLeaves(w, w.i.snap, w.i.snap.spec.(resources := w.i.snap.spec.resources - {w.i.key}));
    } else if e.WriteUid? && w.i.IWriteUid? && w.i.key in w.i.snap.spec.resources {
      var named := Persist(w.i.snap.spec, w.i.snap.spec.resources[w.i.key].(uid := w.i.uid));
      if named.Ok? {
        WriteLeaves(w, w.i.snap, named.value);
      }
    }
  }

  lemma VisitsLeave(w: World, e: Event)
    requires !e.DeleteChild?
    ensures var r := InventoryStep(w, e); r.a == w.a && r.secrets == w.secrets && r.children == w.children
  {
    if e.WriteRelease? || e.WriteRemoval? || e.WriteUid? || e.WriteEnd? {
      WritesLeave(w, e);
      hide InventoryStep;
    } else {
      hide WriteInventory, WriteUidStep, WriteEndStep, Verified, ToRelease, HasObligations, DeleteChildStep;
    }
  }

  /** The inventory controller marks children for deletion and does nothing else to them. */
  lemma InventoryLeaves(w: World, e: Event)
    ensures var r := InventoryStep(w, e);
      && r.a == w.a && r.secrets == w.secrets && r.children.Keys == w.children.Keys
      && forall k :: k in w.children ==> r.children[k].(deleting := false) == w.children[k].(deleting := false)
  {
    if e.DeleteChild? {
      hide VisitChildStep, VisitSecretStep, ReadApplicationStep, WriteInventory, WriteUidStep, FinishLoopStep;
      hide WriteEndStep;
    } else {
      VisitsLeave(w, e);
      hide InventoryStep;
    }
  }

  lemma CreateChildNames(w: World)
    requires AllNamed(w) && w.a.ACreateChild?
    ensures AllNamed(CreateChildStep(w, w.a.entry))
  {
    hide Named;
  }

  lemma ObservationNames(w: World, seen: Option<Child>)
    requires AllNamed(w) && w.a.AEnsureChild?
    ensures AllNamed(ObserveChildStep(w, w.a.entry, seen))
  {
    hide Verified;
  }

  lemma CreationNames(w: World, e: Event)
    requires AllNamed(w) && (e.ObserveChild? || e.ObserveNoSecret? || e.CreateChild?)
    ensures AllNamed(ApplicationStep(w, e))
  {
    hide CreateChildStep, ObserveChildStep, MayObserve, Named;
    if e.CreateChild? && w.a.ACreateChild? {
      CreateChildNames(w);
    } else if e.ObserveChild? && w.a.AEnsureChild? {
      ObservationNames(w, e.seen);
    }
  }

  lemma ApplicationNames(w: World, e: Event)
    requires AllNamed(w)
    ensures AllNamed(ApplicationStep(w, e))
  {
    hide ApplicationStep;
    if e.ObserveChild? || e.ObserveNoSecret? || e.CreateChild? {
      CreationNames(w, e);
    } else {
      OthersCreateNothing(w, e);
    }
  }

  lemma InventoryNames(w: World, e: Event)
    requires AllNamed(w)
    ensures AllNamed(InventoryStep(w, e))
  {
    InventoryLeaves(w, e);
    hide InventoryStep, Named;
  }

  lemma ClusterNames(w: World, e: Event)
    requires AllNamed(w)
    ensures AllNamed(ClusterStep(w, e))
  {
    hide Named;
  }

  /** In every run, every child stands under the name hashed from its logical name, with the binding derived from it. */
  lemma {:induction false} ChildrenAreNamed(events: seq<Event>)
    ensures AllNamed(Run(Init(), events))
    decreases |events|
  {
    if events != [] {
      var n := |events| - 1;
      ChildrenAreNamed(events[..n]);
      var w := Run(Init(), events[..n]);
      hide AllNamed, ApplicationStep, InventoryStep, ClusterStep;
      ApplicationNames(w, events[n]);
      InventoryNames(w, events[n]);
      ClusterNames(w, events[n]);
    }
  }

  // ------------------------------------------------------------ Secrets belong to their credentials

  ghost predicate SecretsBelong(w: World) {
    && (forall k :: k in w.secrets ==> k.kind.PostgresCredential?)
    && (forall k :: k in w.secrets && k in w.children ==> w.secrets[k] == w.children[k].uid)
    && (Creating(w.a) ==> w.a.entry.key !in w.children)
    && (w.a.ACreateChild? ==> w.a.entry.key !in w.secrets)
    && (w.a.ACheckSecret? ==> w.a.entry.key.kind.PostgresCredential?)
  }

  lemma CreateChildOwns(w: World)
    requires SecretsBelong(w) && w.a.ACreateChild?
    ensures SecretsBelong(CreateChildStep(w, w.a.entry))
  {
  }

  lemma ObservationOwns(w: World, seen: Option<Child>)
    requires SecretsBelong(w) && w.a.AEnsureChild? && MayObserve(w, w.a.entry.key, seen)
    ensures SecretsBelong(ObserveChildStep(w, w.a.entry, seen))
  {
    hide Verified, Creatable;
  }

  lemma ApplicationOwns(w: World, e: Event)
    requires SecretsBelong(w)
    ensures SecretsBelong(ApplicationStep(w, e))
  {
    if e.ObserveChild? || e.ObserveNoSecret? || e.CreateChild? {
      hide CreateChildStep, ObserveChildStep, MayObserve;
      if e.CreateChild? && w.a.ACreateChild? {
        CreateChildOwns(w);
      } else if e.ObserveChild? && w.a.AEnsureChild? && MayObserve(w, w.a.entry.key, e.seen) {
        ObservationOwns(w, e.seen);
      }
    } else {
      hide ApplicationStep;
      OthersCreateNothing(w, e);
    }
  }

  lemma InventoryOwns(w: World, e: Event)
    requires SecretsBelong(w)
    ensures SecretsBelong(InventoryStep(w, e))
  {
    InventoryLeaves(w, e);
    hide InventoryStep;
  }

  lemma ClusterOwns(w: World, e: Event)
    requires SecretsBelong(w)
    ensures SecretsBelong(ClusterStep(w, e))
  {
  }

  /** In every run no credential takes over a Secret written for another: each Secret names its own credential. */
  lemma {:induction false} SecretsAreOwned(events: seq<Event>)
    ensures SecretsBelong(Run(Init(), events))
    decreases |events|
  {
    if events != [] {
      var n := |events| - 1;
      SecretsAreOwned(events[..n]);
      var w := Run(Init(), events[..n]);
      hide SecretsBelong, ApplicationStep, InventoryStep, ClusterStep;
      ApplicationOwns(w, events[n]);
      InventoryOwns(w, events[n]);
      ClusterOwns(w, events[n]);
    }
  }

  // ------------------------------------------------------------ what is checked of a child

  /** The Application controller takes over a child that is found exactly when UID, name and binding agree. */
  lemma FoundChildIs(w: World, c: Child)
    requires w.a.AEnsureChild? && c.uid != NO_UID
    ensures var e, r := w.a.entry, Step(w, ObserveChild(Some(c)));
      if (e.uid == NO_UID || e.uid == c.uid) && e.logicalName == c.logicalName && e.fields == c.fields && !c.deleting
      then r == w.(a := APersist(e.(uid := c.uid), true)) else r == w.(a := AIdle)
  {
    hide InventoryStep, ClusterStep;
  }

  /** The inventory controller goes on with a child exactly when they agree, and deletes it under its known UID. */
  lemma VisitedChildIs(w: World, k: Key, c: Child)
    requires w.i.ILoop? && ToRelease(w.i.snap.spec, k) && k !in w.i.visited && ChildKind(k.kind) && c.uid != NO_UID
    ensures var e, r := w.i.snap.spec.resources[k], Step(w, VisitChild(k, Some(c)));
      && r == w.(i := r.i)
      && (r.i.IIdle? <==> (e.uid != NO_UID && e.uid != c.uid) || e.logicalName != c.logicalName || e.fields != c.fields)
      && (r.i.IWriteUid? ==> e.uid == NO_UID && r.i == IWriteUid(w.i.snap, k, c.uid))
      && (r.i.IDeleteChild? <==>
            e.uid == c.uid && e.logicalName == c.logicalName && e.fields == c.fields && !c.deleting)
  {
    hide ApplicationStep, ClusterStep;
  }

  /** A Secret that is found is waited for exactly when it is owned by the recorded child. */
  lemma VisitedSecretIs(w: World, owner: Uid)
    requires w.i.ISecret? && w.i.key in w.i.snap.spec.resources && owner != NO_UID
    ensures Step(w, VisitSecret(Some(owner))) ==
      w.(i := if w.i.snap.spec.resources[w.i.key].uid == owner then ILoop(w.i.snap, w.i.absent, w.i.visited + {w.i.key})
              else IIdle)
  {
    hide ApplicationStep, ClusterStep;
  }

  // ------------------------------------------------------------ without an inventory

  lemma {:induction false} JournalLeaves(spec: Spec, journal: seq<Binding>)
    requires PersistAll(spec, journal).Ok?
    ensures PersistAll(spec, journal).value.resources == map[] <==> spec.resources == map[] && journal == []
    decreases |journal|
  {
    if journal != [] {
      var next := Persist(spec, journal[0]).value;
      assert Defaulted(journal[0]).key in next.resources;
      JournalLeaves(next, journal[1..]);
    }
  }

  /** Nothing to list when there are no children. */
  lemma NoneListed(kind: Kind)
    ensures Lists([], map[], kind)
  {
  }

  lemma ReadsJournal(w: World, journal: seq<Binding>)
    requires w.a.AEnsure? && w.inv.None?
    ensures var draft := PersistAll(INIT_SPEC, journal);
      Step(w, ReadInventory(journal)) == w.(a := if draft.Ok? then ANewCredentials(w.a.op, draft.value) else AIdle)
  {
    hide InventoryStep, ClusterStep, PersistAll;
  }

  lemma ListsNone(w: World)
    requires w.children == map[] && (w.a.ANewCredentials? || w.a.AIdle?)
    ensures Step(w, ListCredentials([])) ==
      w.(a := if w.a.ANewCredentials? then ANewMigrations(w.a.op, w.a.draft, []) else AIdle)
  {
    NoneListed(PostgresCredential);
    hide InventoryStep, ClusterStep, Lists;
  }

  /** A reconcile that finds no inventory drafts one from the journal and the lists. */
  lemma DraftIs(w: World, begin: Event, op: Op, journal: seq<Binding>)
    requires w.inv.None? && w.children == map[] && Step(w, begin) == w.(a := AEnsure(op))
    ensures var draft := PersistAll(INIT_SPEC, journal);
      Steps(w, [begin, ReadInventory(journal), ListCredentials([])]) ==
        w.(a := if draft.Ok? then ANewMigrations(op, draft.value, []) else AIdle)
  {
    ThreeSteps(w, begin, ReadInventory(journal), ListCredentials([]));
    hide Steps, Step, PersistAll;
    ReadsJournal(Step(w, begin), journal);
    ListsNone(Step(Step(w, begin), ReadInventory(journal)));
  }

  lemma NewInventoryIs(w: World, op: Op, draft: Spec, needed: bool)
    ensures NewInventoryStep(w, op, draft, [], needed) ==
      w.(a :=
        if draft.resources != map[] || (op.Upsert? && needed) then ACreateInventory(op, draft)
        else if op.Remove? then AFinalize(op.policy) else AIdle)
  {
  }

  lemma NewListIs(w: World, listed: seq<Binding>, wanted: set<(Kind, string)>, needed: bool)
    requires w.a.ANewMigrations? && Lists(listed, w.children, PostgresMigrationSet)
    ensures Step(w, ListMigrations(listed, wanted, needed)) ==
      NewInventoryStep(w, w.a.op, w.a.draft, w.a.found + listed, needed)
  {
    hide InventoryStep, ClusterStep, Lists, NewInventoryStep;
  }

  lemma NeedIs(w: World, wanted: set<(Kind, string)>, needed: bool)
    requires w.a.ANewMigrations? && w.a.found == [] && w.children == map[]
    ensures var r := Step(w, ListMigrations([], wanted, needed)); var op := w.a.op;
      r == w.(a :=
        if w.a.draft.resources != map[] || (op.Upsert? && needed) then ACreateInventory(op, w.a.draft)
        else if op.Remove? then AFinalize(op.policy) else AIdle)
  {
    NoneListed(PostgresMigrationSet);
    var none: seq<Binding> := [];
    assert none + none == none;
    hide Step, Lists, NewInventoryStep;
    NewListIs(w, [], wanted, needed);
    NewInventoryIs(w, w.a.op, w.a.draft, needed);
  }

  lemma CreateIs(w: World)
    ensures var r := Step(w, CreateInventory);
      if w.a.ACreateInventory? && w.inv.None?
      then r == w.(inv := Some(Object(w.clock + 1, w.a.draft, false)), clock := w.clock + 1, a := r.a)
           && r.a == AListCredentials(w.a.op, r.inv.value)
      else r == w.(a := if w.a.ACreateInventory? then AIdle else w.a)
  {
    hide InventoryStep, ClusterStep;
  }

  lemma BeginIs(w: World, policy: Policy)
    requires w.a.AIdle?
    ensures w.appCache.Protected? ==> Step(w, BeginUpsert) == w.(a := AEnsure(Upsert))
    ensures w.appCache.Deleting? ==> Step(w, BeginRemove(policy)) == w.(a := AEnsure(Remove(policy)))
  {
    hide InventoryStep, ClusterStep;
  }

  /** A reconcile that gave up stays idle. */
  lemma IdlesOn(w: World, wanted: set<(Kind, string)>, needed: bool)
    requires w.a.AIdle?
    ensures Step(w, ListMigrations([], wanted, needed)) == w
  {
    hide InventoryStep, ClusterStep, Lists;
  }

  /**
    In every run, an undisturbed first reconcile creates an inventory exactly when its journal can be
    drafted and is not empty or something is needed, and the inventory holds what the journal says.
   */
  lemma InventoryIsCreatedExactly(events: seq<Event>, journal: seq<Binding>, wanted: set<(Kind, string)>, needed: bool)
    requires var w := Run(Init(), events); w.a.AIdle? && w.appCache.Protected? && w.inv.None?
    ensures var draft := PersistAll(INIT_SPEC, journal);
      var es := [BeginUpsert, ReadInventory(journal), ListCredentials([])];
      var r := Run(Init(), events + (es + [ListMigrations([], wanted, needed), CreateInventory]));
      && (r.inv.Some? <==> draft.Ok? && (journal != [] || needed))
      && (r.inv.Some? ==>
            && r.inv.value.spec == draft.value && !r.inv.value.deleting
            && r.a == AListCredentials(Upsert, r.inv.value))
      && (r.inv.None? ==> r.a.AIdle?)
  {
    var w, draft := Run(Init(), events), PersistAll(INIT_SPEC, journal);
    var es := [BeginUpsert, ReadInventory(journal), ListCredentials([])];
    var fs := [ListMigrations([], wanted, needed), CreateInventory];
    hide Init, Step, Steps, Run, PersistAll;
    NoLeak(events);
    RunContinues(events, es + fs);
    StepsJoin(w, es, fs);
    BeginIs(w, Wait);
    DraftIs(w, BeginUpsert, Upsert, journal);
    var p := Steps(w, es);
    TwoSteps(p, fs[0], fs[1]);
    CreateIs(Step(p, fs[0]));
    if draft.Ok? {
      JournalLeaves(INIT_SPEC, journal);
      NeedIs(p, wanted, needed);
    } else {
      IdlesOn(p, wanted, needed);
    }
  }

  /** In every run, an undisturbed removal without an inventory lets the Application go exactly on an empty journal. */
  lemma RemovalWithoutInventory(
    events: seq<Event>, policy: Policy, journal: seq<Binding>, wanted: set<(Kind, string)>, needed: bool)
    requires var w := Run(Init(), events); w.a.AIdle? && w.appCache.Deleting? && w.inv.None? && !w.app.Gone?
    ensures var es := [BeginRemove(policy), ReadInventory(journal), ListCredentials([])];
      var r := Run(Init(), events + (es + [ListMigrations([], wanted, needed), RemoveFinalizer]));
      && (r.app.Gone? <==> journal == [])
      && r.inv.None?
      && (r.a.ACreateInventory? <==> journal != [] && PersistAll(INIT_SPEC, journal).Ok?)
  {
    var w, draft := Run(Init(), events), PersistAll(INIT_SPEC, journal);
    var es := [BeginRemove(policy), ReadInventory(journal), ListCredentials([])];
    var fs := [ListMigrations([], wanted, needed), RemoveFinalizer];
    assert journal == [] ==> draft.Ok?;
    hide Init, Step, Steps, Run, PersistAll;
    NoLeak(events);
    RunContinues(events, es + fs);
    StepsJoin(w, es, fs);
    BeginIs(w, policy);
    DraftIs(w, BeginRemove(policy), Remove(policy), journal);
    var p := Steps(w, es);
    TwoSteps(p, fs[0], fs[1]);
    FinalizeIs(Step(p, fs[0]));
    if draft.Ok? {
      JournalLeaves(INIT_SPEC, journal);
      NeedIs(p, wanted, needed);
    } else {
      IdlesOn(p, wanted, needed);
    }
  }

  // ------------------------------------------------------------ a removal from its start

  /**
    In every run, an undisturbed removal, also of an inventory somebody is already deleting, hands every
    obligation over, and lets the Application go exactly when the policy is to leave the inventory
    behind or no obligation is left.
   */
  lemma RemovalCompletes(events: seq<Event>, policy: Policy, credentials: seq<Binding>, migrations: seq<Binding>)
    requires var w := Run(Init(), events);
      && w.a.AIdle? && w.appCache.Deleting? && w.inv.Some? && !w.app.Gone?
      && Lists(credentials, w.children, PostgresCredential) && Lists(migrations, w.children, PostgresMigrationSet)
    ensures var w := Run(Init(), events);
      var es := [BeginRemove(policy), ReadInventory([]), ListCredentials(credentials)];
      var fs := [ListMigrations(migrations, {}, false), UpdateInventory] + [UpdateStatus, RemoveFinalizer];
      var r := Run(Init(), events + es + fs);
      && r.inv.Some? && r.inv.value.spec.releasing && TableOf(r.inv).Keys == TableOf(w.inv).Keys
      && (forall k :: k in TableOf(w.inv) ==> TableOf(r.inv)[k].retained || TableOf(r.inv)[k].disposition.Release?)
      && (r.app.Gone? <==> policy.OrphanInventory? || forall k :: k in TableOf(w.inv) ==> TableOf(w.inv)[k].retained)
  {
    var w := Run(Init(), events);
    var es := [BeginRemove(policy), ReadInventory([]), ListCredentials(credentials)];
    hide Init, Steps, Run, Lists, PersistAll, InventoryStep, ClusterStep;
    RunContinues(events, es);
    ThreeSteps(w, es[0], es[1], es[2]);
    BeginIs(w, policy);
    var d := Step(w, es[0]);
    assert Step(d, es[1]) == w.(a := AListCredentials(Remove(policy), w.inv.value));
    assert Steps(w, es) == w.(a := AListMigrations(Remove(policy), w.inv.value, credentials));
    hide Step;
    RemovalHandsOver(events + es, migrations, {}, policy);
  }

  // ------------------------------------------------------------ a resource that is there

  function Reuse(k: Key, logicalName: string, c: Child): seq<Event> {
    [LookupResource(k.kind, k.namespace, logicalName, Some(k)), ObserveChild(Some(c))]
    + [ReadForPersist, WritePersist]
  }

  lemma LookupHits(w: World, k: Key)
    requires w.a.ABound? && ChildKind(k.kind) && k in TableOf(w.inv)
    requires var b := TableOf(w.inv)[k]; b.key == k && !b.retained && !b.disposition.Release?
    ensures var b := TableOf(w.inv)[k];
      Step(w, LookupResource(k.kind, k.namespace, b.logicalName, Some(k))) == w.(a := AEnsureChild(b))
  {
    hide InventoryStep, ClusterStep;
  }

  /** From the bound inventory: an entry and its child are found, and recorded as they are. */
  lemma Reuses(w: World, k: Key)
    requires w.a.ABound? && ChildKind(k.kind) && k in TableOf(w.inv) && k in w.children && !w.children[k].deleting
    requires !w.inv.value.spec.releasing && !w.inv.value.deleting
    requires var b := TableOf(w.inv)[k];
      && b.key == k && !b.disposition.Release? && Describes(b, w.children[k]) && b.uid == w.children[k].uid
    ensures var b := TableOf(w.inv)[k]; var r := Steps(w, Reuse(k, b.logicalName, w.children[k]));
      && r == w.(inv := r.inv, clock := r.clock, a := ABound) && r.inv.Some?
      && TableOf(r.inv) == TableOf(w.inv)[k := b.(disposition := Active)]
  {
    var b, c := TableOf(w.inv)[k], w.children[k];
    var es := [LookupResource(k.kind, k.namespace, b.logicalName, Some(k)), ObserveChild(Some(c))];
    hide Steps, Step;
    StepsJoin(w, es, [ReadForPersist, WritePersist]);
    TwoSteps(w, es[0], es[1]);
    LookupHits(w, k);
    FoundChildIs(Step(w, es[0]), c);
    var p := Steps(w, es);
    assert p == w.(a := APersist(b, true));
    assert Persist(w.inv.value.spec, b) ==
      Ok(w.inv.value.spec.(resources := TableOf(w.inv)[k := b.(disposition := Active)]));
    TwoSteps(p, ReadForPersist, WritePersist);
    PersistIs(p);
  }

  lemma ChildIsDescribed(w: World, k: Key)
    requires Invariant(w) && k in w.children
    ensures k in TableOf(w.inv) && TableOf(w.inv)[k].key == k && Describes(TableOf(w.inv)[k], w.children[k])
    ensures ChildKind(k.kind)
  {
    hide AppView, InvView, Phases, Fenced, AllReleased;
  }

  lemma StillExact(before: map<Key, Binding>, mid: map<Key, Binding>, after: map<Key, Binding>,
                   children: map<Key, Child>, wanted: set<(Kind, string)>, k: Key)
    requires ReleasesExactly(before, mid, children, wanted) && k in mid && !mid[k].disposition.Release?
    requires after == mid[k := mid[k].(disposition := Active)]
    ensures ReleasesExactly(before, after, children, wanted)
  {
  }

  lemma ReusesFrom(w: World, credentials: seq<Binding>, migrations: seq<Binding>, wanted: set<(Kind, string)>, k: Key)
    requires Invariant(w) && InService(w, wanted) && k in w.children && !w.children[k].deleting
    requires Lists(credentials, w.children, PostgresCredential) && Lists(migrations, w.children, PostgresMigrationSet)
    ensures k in TableOf(w.inv)
    ensures var p := Steps(w, Preamble(credentials, migrations, wanted));
      var r := Steps(p, Reuse(k, TableOf(w.inv)[k].logicalName, w.children[k]));
      && r.children == w.children && r.a.ABound?
      && ReleasesExactly(TableOf(w.inv), TableOf(r.inv), w.children, wanted)
  {
    hide Step, Steps, Invariant, Lists, Preamble, Reuse;
    ChildIsDescribed(w, k);
    ReachesBound(w, credentials, migrations, wanted);
    StepsKeep(w, Preamble(credentials, migrations, wanted));
    var p := Steps(w, Preamble(credentials, migrations, wanted));
    ChildIsDescribed(p, k);
    Reuses(p, k);
    var r := Steps(p, Reuse(k, TableOf(w.inv)[k].logicalName, w.children[k]));
    StillExact(TableOf(w.inv), TableOf(p.inv), TableOf(r.inv), w.children, wanted, k);
  }

  /**
    Reconciling what is there changes nothing: in every run, for an Application in service and any of its
    children that is not being deleted, an undisturbed reconcile finds the entry and the child, and leaves
    the children and the inventory as the upsert alone would.
   */
  lemma ReconcileRepeats(
    events: seq<Event>, credentials: seq<Binding>, migrations: seq<Binding>, wanted: set<(Kind, string)>, k: Key)
    requires var w := Run(Init(), events);
      && InService(w, wanted) && k in w.children && !w.children[k].deleting
      && Lists(credentials, w.children, PostgresCredential) && Lists(migrations, w.children, PostgresMigrationSet)
    ensures var w := Run(Init(), events);
      && k in TableOf(w.inv)
      && var es := Preamble(credentials, migrations, wanted) + Reuse(k, TableOf(w.inv)[k].logicalName, w.children[k]);
         var r := Run(Init(), events + es);
         && r.children == w.children && r.a.ABound?
         && ReleasesExactly(TableOf(w.inv), TableOf(r.inv), w.children, wanted)
  {
    var w := Run(Init(), events);
    hide Init, Step, Steps, Run, Invariant, Lists, ReleasesExactly, Preamble, Reuse, InService;
    RunKeeps(events);
    ReusesFrom(w, credentials, migrations, wanted, k);
    var es, fs := Preamble(credentials, migrations, wanted), Reuse(k, TableOf(w.inv)[k].logicalName, w.children[k]);
    RunContinues(events, es + fs);
    StepsJoin(w, es, fs);
  }
}
