/** What every interleaving of the two inventory controllers keeps, crashes included. */
module InventorySafety {
  import opened Basics
  import opened Inventory
  import opened InventoryProtocol

  type Table = map<Key, Binding>

  // ------------------------------------------------------------ the invariant

  ghost predicate Stored(inv: Option<Object>, clock: nat) {
    inv.Some? ==> WellFormed(inv.value.spec) && inv.value.version <= clock
  }

  predicate Describes(e: Binding, c: Child) {
    Obligation(e) && c.logicalName == e.logicalName && c.fields == e.fields && c.uid != NO_UID
  }

  /** A child, or a Secret left behind by one, always has an entry that is an obligation. */
  ghost predicate Guarded(table: Table, children: map<Key, Child>, secrets: map<Key, Uid>) {
    && (forall k :: k in children ==> ChildKind(k.kind) && k in table && Describes(table[k], children[k]))
    && (forall k :: k in secrets ==> k.kind.PostgresCredential? && k in table && Obligation(table[k]))
  }

  /** The recorded UID of an existing child is its own, or empty on an entry not yet released. */
  ghost predicate Fenced(table: Table, children: map<Key, Child>) {
    forall k :: k in children && k in table ==>
      table[k].uid == children[k].uid || (table[k].uid == NO_UID && !table[k].disposition.Release?)
  }

  /** Every child but the one being worked on has its UID recorded. */
  ghost predicate Recorded(table: Table, children: map<Key, Child>, but: Option<Key>) {
    forall k :: k in children && k in table && Some(k) != but ==>
      table[k].uid == children[k].uid && table[k].uid != NO_UID
  }

  ghost predicate AllReleased(table: Table, children: map<Key, Child>) {
    forall k :: k in children && k in table ==> table[k].disposition.Release?
  }

  function Rank(p: AppPhase): nat {
    match p case Unprotected => 0 case Protected => 1 case Deleting => 2 case Gone => 3
  }

  predicate Upserting(a: AppPc) {
    match a
    case AIdle => false
    case AEnsure(op) => op.Upsert?
    case ANewCredentials(op, _) => op.Upsert?
    case ANewMigrations(op, _, _) => op.Upsert?
    case ACreateInventory(op, _) => op.Upsert?
    case AListCredentials(op, _) => op.Upsert?
    case AListMigrations(op, _, _) => op.Upsert?
    case AUpdateInventory(op, _, _) => op.Upsert?
    case AStatus(_, _) => false
    case AFinalize(_) => false
    case _ => true
  }

  predicate Releasing(inv: Option<Object>) {
    inv.Some? && inv.value.spec.releasing
  }

  /** While an upsert runs the Application exists, and its inventory is not being released. */
  ghost predicate Phases(app: AppPhase, cached: AppPhase, releasing: bool, a: AppPc) {
    && Rank(cached) <= Rank(app)
    && (app.Gone? ==> !cached.Protected?)
    && (releasing ==> Rank(cached) >= 2 || app.Gone?)
    && (Upserting(a) ==> !app.Gone? && Rank(app) >= 1 && !releasing)
    && (!a.AIdle? && !Upserting(a) ==> Rank(cached) >= 2)
  }

  /** A remembered copy of the inventory is the stored one for as long as the version is. */
  ghost predicate Remembers(inv: Option<Object>, clock: nat, snap: Object) {
    && snap.version <= clock && WellFormed(snap.spec)
    && (inv.Some? && inv.value.version == snap.version ==> inv.value == snap)
    && (inv.Some? && snap.spec.releasing ==> inv.value.spec.releasing)
  }

  /** Only the Application controller adds entries, so its copy covers the stored ones. */
  ghost predicate Covers(table: Table, copy: Table) {
    forall k :: k in table ==> k in copy && EntryEvolves(copy[k], table[k])
  }

  /** A list of the children of some kinds, still valid: children only disappear meanwhile. */
  ghost predicate FoundOk(children: map<Key, Child>, found: seq<Binding>) {
    && DistinctKeys(found)
    && (forall i :: 0 <= i < |found| ==>
          found[i].key in children ==> found[i].uid == children[found[i].key].uid)
  }

  ghost predicate Exhausts(children: map<Key, Child>, found: seq<Binding>, kind: Kind) {
    forall k :: k in children && k.kind == kind ==> exists i :: 0 <= i < |found| && found[i].key == k
  }

  ghost predicate AllOfKind(found: seq<Binding>, kind: Kind) {
    forall i :: 0 <= i < |found| ==> found[i].key.kind == kind
  }

  /** The entry the Application controller works on is stored and unreleased. */
  ghost predicate Holds(table: Table, e: Binding) {
    e.key in table && table[e.key] == e && !e.disposition.Release? && Obligation(e)
  }

  ghost predicate PersistOk(table: Table, children: map<Key, Child>, e: Binding, recorded: bool) {
    if e.retained then !ChildKind(e.key.kind) && Recorded(table, children, None)
    else if recorded then
      && e.uid != NO_UID && !e.disposition.Release?
      && e.key in table && SameBinding(table[e.key], e) && !table[e.key].disposition.Release?
      && (e.key in children ==> e.uid == children[e.key].uid)
      && Recorded(table, children, Some(e.key))
    else
      && e.uid == NO_UID && e.disposition == Active
      && (e.key in table ==> !SameBinding(table[e.key], e))
      && Recorded(table, children, None)
  }

  ghost predicate NoObligations(table: Table) {
    forall k :: k in table ==> !Obligation(table[k])
  }

  ghost predicate AppView(a: AppPc, inv: Option<Object>, children: map<Key, Child>, clock: nat) {
    var table := TableOf(inv);
    match a
    case AIdle => true
    case AEnsure(_) => true
    case ANewCredentials(_, draft) => inv.None? && WellFormed(draft) && !draft.releasing
    case ANewMigrations(_, draft, _) => inv.None? && WellFormed(draft) && !draft.releasing
    case ACreateInventory(_, draft) => inv.None? && WellFormed(draft) && !draft.releasing
    case AListCredentials(op, snap) =>
      Remembers(inv, clock, snap) && Covers(table, snap.spec.resources) && (op.Upsert? ==> !snap.spec.releasing)
    case AListMigrations(op, snap, found) =>
      && Remembers(inv, clock, snap) && Covers(table, snap.spec.resources) && (op.Upsert? ==> !snap.spec.releasing)
      && FoundOk(children, found) && AllOfKind(found, PostgresCredential)
      && Exhausts(children, found, PostgresCredential)
    case AUpdateInventory(op, snap, next) =>
      && Remembers(inv, clock, snap) && Covers(table, snap.spec.resources)
      && WellFormed(next) && Evolves(snap.spec, next) && (next.releasing <==> op.Remove?)
      && Recorded(next.resources, children, None)
    case AStatus(policy, pending) => (!pending ==> NoObligations(table)) && (inv.Some? ==> Releasing(inv))
    case AFinalize(policy) => (policy.Wait? ==> NoObligations(table)) && (inv.Some? ==> Releasing(inv))
    case AServe => Recorded(table, children, None)
    case ABound => Recorded(table, children, None)
    case APersist(e, recorded) => PersistOk(table, children, e, recorded)
    case APersistUpdate(e, recorded, snap, next) =>
      && Remembers(inv, clock, snap) && Covers(table, snap.spec.resources) && !snap.spec.releasing
      && Persist(snap.spec, e) == Ok(next) && PersistOk(table, children, e, recorded)
      && (!recorded && !e.retained ==> e.key !in snap.spec.resources)
    case AEnsureChild(e) => Holds(table, e) && Recorded(table, children, None)
    case ACheckSecret(e) => Holds(table, e) && e.uid == NO_UID && Creatable(e) && Recorded(table, children, None)
    case ACreateChild(e) => Holds(table, e) && e.uid == NO_UID && Creatable(e) && Recorded(table, children, None)
  }

  /** The inventory controller alone removes entries, so what it read is still there, evolved. */
  ghost predicate Behind(inv: Option<Object>, clock: nat, snap: Object) {
    Remembers(inv, clock, snap) && inv.Some? && Evolves(snap.spec, inv.value.spec)
  }

  ghost predicate InvView(i: InvPc, app: AppPhase, inv: Option<Object>, children: map<Key, Child>,
                          secrets: map<Key, Uid>, clock: nat) {
    match i
    case IIdle => true
    case IReadApp(snap) => Behind(inv, clock, snap)
    case IWriteRelease(snap) => Behind(inv, clock, snap) && app.Gone?
    case ILoop(snap, absent, _) => Behind(inv, clock, snap) && (absent ==> app.Gone?)
    case ISecret(snap, absent, _, k) =>
      Behind(inv, clock, snap) && (absent ==> app.Gone?) && ToRelease(snap.spec, k) && ChildKind(k.kind)
        && k !in children
    case IWriteRemoval(snap, k) =>
      Behind(inv, clock, snap) && ToRelease(snap.spec, k) && ChildKind(k.kind) && k !in children && k !in secrets
    case IWriteUid(snap, k, uid) =>
      Behind(inv, clock, snap) && ToRelease(snap.spec, k) && uid != NO_UID && snap.spec.resources[k].uid == NO_UID
    case IDeleteChild(snap, absent, _, k) =>
      Behind(inv, clock, snap) && (absent ==> app.Gone?) && ToRelease(snap.spec, k)
        && snap.spec.resources[k].uid != NO_UID
    case IWriteEnd(snap) => Behind(inv, clock, snap) && app.Gone? && !HasObligations(snap.spec)
  }

  ghost predicate Invariant(w: World) {
    && Stored(w.inv, w.clock)
    && Guarded(TableOf(w.inv), w.children, w.secrets)
    && Fenced(TableOf(w.inv), w.children)
    && (w.app.Gone? ==> AllReleased(TableOf(w.inv), w.children))
    && (w.app.Unprotected? ==> w.inv.None?)
    && Phases(w.app, w.appCache, Releasing(w.inv), w.a)
    && AppView(w.a, w.inv, w.children, w.clock)
    && InvView(w.i, w.app, w.inv, w.children, w.secrets, w.clock)
  }

  // ------------------------------------------------------------ the cluster keeps it

  lemma ApplicationDeletionKeeps(w: World)
    requires Invariant(w)
    ensures Invariant(ClusterStep(w, UserDeletesApplication))
  {
    hide AppView, Guarded, Fenced, Behind, Stored;
  }

  lemma InventoryDeletionKeeps(w: World)
    requires Invariant(w)
    ensures Invariant(ClusterStep(w, UserDeletesInventory))
  {
    hide Guarded, Fenced, Phases, WellFormed, Evolves, Covers, FoundOk, Holds, PersistOk, NoObligations;
  }

  /** The same children, or fewer; only their deletion marks may differ. */
  ghost predicate Fewer(children: map<Key, Child>, next: map<Key, Child>) {
    forall k :: k in next ==> k in children && next[k].(deleting := false) == children[k].(deleting := false)
  }

  lemma FewerFound(children: map<Key, Child>, next: map<Key, Child>, found: seq<Binding>, kind: Kind)
    requires Fewer(children, next) && FoundOk(children, found) && Exhausts(children, found, kind)
    ensures FoundOk(next, found) && Exhausts(next, found, kind)
  {
  }

  lemma FewerRecorded(table: Table, children: map<Key, Child>, next: map<Key, Child>)
    requires Fewer(children, next)
    ensures forall but :: Recorded(table, children, but) ==> Recorded(table, next, but)
    ensures forall e, recorded :: PersistOk(table, children, e, recorded) ==> PersistOk(table, next, e, recorded)
  {
  }

  lemma FewerAppView(w: World, next: map<Key, Child>)
    requires AppView(w.a, w.inv, w.children, w.clock) && Fewer(w.children, next)
    ensures AppView(w.a, w.inv, next, w.clock)
  {
    FewerRecorded(TableOf(w.inv), w.children, next);
    if w.a.AUpdateInventory? {
      FewerRecorded(w.a.next.resources, w.children, next);
    }
    if w.a.AListMigrations? {
      FewerFound(w.children, next, w.a.found, PostgresCredential);
    }
    hide Remembers, Covers, FoundOk, Exhausts, Recorded, PersistOk, Holds, NoObligations, WellFormed, Evolves, Persist;
  }

  lemma FewerChildrenKeep(w: World, next: map<Key, Child>)
    requires Invariant(w) && Fewer(w.children, next)
    ensures Invariant(w.(children := next))
  {
    FewerAppView(w, next);
    hide AppView, Phases, Stored, Behind;
  }

  lemma ChildDeletionKeeps(w: World, k: Key)
    requires Invariant(w)
    ensures Invariant(ClusterStep(w, UserDeletesChild(k)))
  {
    hide Invariant;
    if k in w.children {
      FewerChildrenKeep(w, w.children[k := w.children[k].(deleting := true)]);
    }
  }

  lemma ChildFinalizationKeeps(w: World, k: Key)
    requires Invariant(w)
    ensures Invariant(ClusterStep(w, ChildFinalized(k)))
  {
    hide Invariant;
    FewerChildrenKeep(w, w.children - {k});
  }

  lemma SecretCreationKeeps(w: World, k: Key)
    requires Invariant(w)
    ensures Invariant(ClusterStep(w, SecretCreated(k)))
  {
    hide Phases, Stored, AppView, Fenced, Behind;
  }

  lemma SecretCollectionKeeps(w: World, k: Key)
    requires Invariant(w)
    ensures Invariant(ClusterStep(w, SecretCollected(k)))
  {
    hide Phases, Stored, AppView, Fenced, Behind;
  }

  lemma CacheKeeps(w: World)
    requires Invariant(w)
    ensures Invariant(ClusterStep(w, CacheSyncs))
  {
    hide AppView, InvView, Guarded, Fenced, Stored;
  }

  lemma ApplicationFailureKeeps(w: World)
    requires Invariant(w)
    ensures Invariant(ClusterStep(w, ApplicationStepFails))
  {
    hide InvView, Guarded, Fenced, Stored;
  }

  lemma InventoryFailureKeeps(w: World)
    requires Invariant(w)
    ensures Invariant(ClusterStep(w, InventoryStepFails))
  {
    hide AppView, Phases, Guarded, Fenced, Stored;
  }

  lemma CrashKeeps(w: World)
    requires Invariant(w)
    ensures Invariant(ClusterStep(w, Crash))
  {
    hide Guarded, Fenced, Stored;
    ApplicationFailureKeeps(w);
  }

  lemma ClusterKeeps(w: World, e: Event)
    requires Invariant(w) && IsClusterEvent(e)
    ensures Invariant(ClusterStep(w, e))
  {
    hide AppView, InvView, Phases, Guarded, Fenced, Stored;
    match e
    case UserDeletesApplication => ApplicationDeletionKeeps(w);
    case UserDeletesInventory => InventoryDeletionKeeps(w);
    case UserDeletesChild(k) => ChildDeletionKeeps(w, k);
    case ChildFinalized(k) => ChildFinalizationKeeps(w, k);
    case SecretCreated(k) => SecretCreationKeeps(w, k);
    case SecretCollected(k) => SecretCollectionKeeps(w, k);
    case CacheSyncs => CacheKeeps(w);
    case ApplicationStepFails => ApplicationFailureKeeps(w);
    case InventoryStepFails => InventoryFailureKeeps(w);
    case Crash => CrashKeeps(w);
  }

  // ------------------------------------------------------------ the inventory controller keeps it

  /** What a write of the inventory controller may do to the table. */
  ghost predicate ReleaserWrites(table: Table, next: Table, upserting: bool) {
    && (forall k :: k in next ==> k in table && EntryEvolves(table[k], next[k]))
    && (upserting ==> forall k :: k in table && !table[k].disposition.Release? ==> k in next && next[k] == table[k])
  }

  lemma TableSurvives(table: Table, next: Table, upserting: bool, children: map<Key, Child>)
    requires ReleaserWrites(table, next, upserting)
    ensures forall copy :: Covers(table, copy) ==> Covers(next, copy)
    ensures forall but :: Recorded(table, children, but) ==> Recorded(next, children, but)
    ensures NoObligations(table) ==> NoObligations(next)
  {
  }

  lemma EntriesSurvive(table: Table, next: Table, children: map<Key, Child>)
    requires ReleaserWrites(table, next, true)
    ensures forall e :: Holds(table, e) ==> Holds(next, e)
    ensures forall e, recorded :: PersistOk(table, children, e, recorded) ==> PersistOk(next, children, e, recorded)
  {
  }

  lemma AppViewSurvives(w: World, next: Spec, deleting: bool)
    requires Invariant(w) && w.inv.Some?
    requires ReleaserWrites(w.inv.value.spec.resources, next.resources, Upserting(w.a))
    requires w.inv.value.spec.releasing ==> next.releasing
    ensures AppView(w.a, Some(Object(w.clock + 1, next, deleting)), w.children, w.clock + 1)
  {
    hide InvView, Guarded, Fenced, Evolves, ReleaserWrites, Covers, Recorded, NoObligations, Holds, PersistOk;
    hide WellFormed, Persist, FoundOk, Exhausts, AllReleased;
    TableSurvives(w.inv.value.spec.resources, next.resources, Upserting(w.a), w.children);
    if Upserting(w.a) {
      EntriesSurvive(w.inv.value.spec.resources, next.resources, w.children);
    }
  }

  lemma AppViewOutlives(w: World)
    requires Invariant(w) && w.app.Gone?
    ensures AppView(w.a, None, w.children, w.clock)
  {
    hide InvView, Guarded, Fenced, Evolves, WellFormed;
  }

  /** A conditional write by the inventory controller that passes its version check. */
  lemma ReleaserWriteKeeps(w: World, next: Spec)
    requires Invariant(w) && w.inv.Some? && WellFormed(next)
    requires ReleaserWrites(w.inv.value.spec.resources, next.resources, Upserting(w.a))
    requires Guarded(next.resources, w.children, w.secrets) && Fenced(next.resources, w.children)
    requires w.inv.value.spec.releasing ==> next.releasing
    requires next.releasing ==> w.inv.value.spec.releasing || w.app.Gone?
    ensures Invariant(Store(w, next, w.inv.value.deleting).(i := IIdle))
  {
    hide AppView, Guarded, Fenced, WellFormed;
    AppViewSurvives(w, next, w.inv.value.deleting);
  }

  lemma ReleaseIsAllowed(w: World, spec: Spec)
    requires Invariant(w) && w.inv.Some? && w.inv.value.spec == spec && w.app.Gone?
    ensures var next := ReleaseAll(spec);
      && WellFormed(next) && ReleaserWrites(spec.resources, next.resources, false)
      && Guarded(next.resources, w.children, w.secrets)
      && Fenced(next.resources, w.children)
  {
    hide AppView, InvView, Phases;
    ReleaseEvolves(spec);
  }

  lemma WriteReleaseKeeps(w: World)
    requires Invariant(w)
    ensures Invariant(InventoryStep(w, WriteRelease))
  {
    hide AppView, Stored, Guarded, Fenced, WellFormed, Evolves;
    if w.i.IWriteRelease? && Fresh(w, w.i.snap) {
      ReleaseIsAllowed(w, w.inv.value.spec);
      ReleaserWriteKeeps(w, ReleaseAll(w.inv.value.spec));
    }
  }

  /** An entry may go when its child and then its Secret were confirmed absent. */
  lemma RemovalIsAllowed(w: World, spec: Spec, k: Key)
    requires Invariant(w) && w.inv.Some? && w.inv.value.spec == spec && ToRelease(spec, k)
    requires k !in w.children && k !in w.secrets
    ensures var next := spec.(resources := spec.resources - {k});
      && WellFormed(next) && ReleaserWrites(spec.resources, next.resources, true)
      && Guarded(next.resources, w.children, w.secrets)
      && Fenced(next.resources, w.children)
  {
    hide AppView, InvView, Phases;
    SubsetKeys(spec.resources, spec.resources - {k});
  }

  lemma WriteRemovalKeeps(w: World)
    requires Invariant(w)
    ensures Invariant(InventoryStep(w, WriteRemoval))
  {
    hide AppView, Stored, Guarded, Fenced, WellFormed;
    if w.i.IWriteRemoval? && Fresh(w, w.i.snap) {
      RemovalIsAllowed(w, w.inv.value.spec, w.i.key);
      ReleaserWriteKeeps(w, w.inv.value.spec.(resources := w.inv.value.spec.resources - {w.i.key}));
    }
  }

  /** A released entry without a UID has no child: discovery recorded every child before the release. */
  lemma ReleasedUnrecorded(w: World, k: Key)
    requires Invariant(w) && w.inv.Some? && ToRelease(w.inv.value.spec, k)
    requires w.inv.value.spec.resources[k].uid == NO_UID
    ensures k !in w.children
  {
    hide AppView, InvView, Phases, Stored;
  }

  lemma UidWriteIsAllowed(w: World, spec: Spec, e: Binding)
    requires Invariant(w) && w.inv.Some? && w.inv.value.spec == spec && Persist(spec, e).Ok?
    requires ToRelease(spec, e.key) && SameBinding(e, spec.resources[e.key])
    requires e.key !in w.children
    ensures var next := Persist(spec, e).value;
      && WellFormed(next) && next.releasing == spec.releasing
      && ReleaserWrites(spec.resources, next.resources, true)
      && Guarded(next.resources, w.children, w.secrets)
      && Fenced(next.resources, w.children)
  {
    hide AppView, InvView, Phases, Persist, WellFormed, Evolves, AllReleased;
    PersistIsPut(spec, e);
    PersistEvolves(spec, e);
  }

  /** A step of the inventory controller that changes nothing but what it remembers. */
  lemma InventoryMovesKeep(w: World, i: InvPc)
    requires Invariant(w) && InvView(i, w.app, w.inv, w.children, w.secrets, w.clock)
    ensures Invariant(w.(i := i))
  {
    hide AppView, InvView, Phases, Guarded, Fenced, Stored;
  }

  lemma WriteUidKeeps(w: World)
    requires Invariant(w) && w.i.IWriteUid?
    ensures Invariant(WriteUidStep(w, w.i.snap, w.i.key, w.i.uid))
  {
    hide AppView, Phases, Guarded, Fenced;
    InventoryMovesKeep(w, IIdle);
    if Fresh(w, w.i.snap) {
      var spec := w.inv.value.spec;
      var e := spec.resources[w.i.key].(uid := w.i.uid);
      if Persist(spec, e).Ok? {
        ReleasedUnrecorded(w, e.key);
        UidWriteIsAllowed(w, spec, e);
        ReleaserWriteKeeps(w, Persist(spec, e).value);
      }
    }
  }

  lemma WriteEndKeeps(w: World)
    requires Invariant(w)
    ensures Invariant(InventoryStep(w, WriteEnd))
  {
    hide AppView, Evolves, WellFormed;
    if w.i.IWriteEnd? && Fresh(w, w.i.snap) {
      if w.i.snap.deleting {
        AppViewOutlives(w);
      } else {
        AppViewSurvives(w, w.inv.value.spec, true);
      }
    }
  }

  lemma StartReleaseKeeps(w: World)
    requires Invariant(w) && w.inv.Some?
    ensures Invariant(w.(i := IReadApp(w.inv.value)))
  {
  }

  lemma ReadApplicationKeeps(w: World)
    requires Invariant(w) && w.i.IReadApp?
    ensures Invariant(ReadApplicationStep(w, w.i.snap))
  {
    hide AppView, Phases, Guarded, Fenced, Stored, Behind;
    InventoryMovesKeep(w, ReadApplicationStep(w, w.i.snap).i);
  }

  lemma FinishLoopKeeps(w: World)
    requires Invariant(w) && w.i.ILoop?
    ensures Invariant(FinishLoopStep(w, w.i.snap, w.i.absent, w.i.visited))
  {
    hide AppView, Phases, Guarded, Fenced, Stored, Behind;
    InventoryMovesKeep(w, FinishLoopStep(w, w.i.snap, w.i.absent, w.i.visited).i);
  }

  lemma VisitChildKeeps(w: World, k: Key, found: Option<Child>)
    requires Invariant(w) && w.i.ILoop? && ToRelease(w.i.snap.spec, k) && MayObserve(w, k, found)
    ensures Invariant(VisitChildStep(w, w.i.snap, w.i.absent, w.i.visited, k, found))
  {
    hide AppView, Phases, Fenced, Stored, Behind;
    var next := VisitChildStep(w, w.i.snap, w.i.absent, w.i.visited, k, found);
    assert next == w.(i := next.i);
    if found.None? && k.kind.PostgresMigrationSet? {
      assert k !in w.secrets;
    }
    InventoryMovesKeep(w, next.i);
  }

  lemma VisitSecretKeeps(w: World, owner: Option<Uid>)
    requires Invariant(w) && w.i.ISecret?
    ensures Invariant(VisitSecretStep(w, w.i.snap, w.i.absent, w.i.visited, w.i.key, owner))
  {
    hide AppView, Phases, Fenced, Stored, Behind, Guarded;
    InventoryMovesKeep(w, VisitSecretStep(w, w.i.snap, w.i.absent, w.i.visited, w.i.key, owner).i);
  }

  lemma DeleteChildKeeps(w: World)
    requires Invariant(w) && w.i.IDeleteChild?
    ensures Invariant(DeleteChildStep(w, w.i.snap, w.i.absent, w.i.visited, w.i.key))
  {
    hide AppView, Phases, Fenced, Stored, Behind, Guarded;
    var moved := w.(i := ILoop(w.i.snap, w.i.absent, w.i.visited + {w.i.key}));
    InventoryMovesKeep(w, moved.i);
    ChildDeletionKeeps(moved, w.i.key);
  }

  lemma InventoryKeeps(w: World, e: Event)
    requires Invariant(w) && IsInventoryEvent(e)
    ensures Invariant(InventoryStep(w, e))
  {
    hide AppView, Phases, Guarded, Fenced, Stored, Evolves, WellFormed;
    if InventoryStep(w, e) != w {
      match e
      case StartRelease => StartReleaseKeeps(w);
      case ReadApplication => ReadApplicationKeeps(w);
      case WriteRelease => WriteReleaseKeeps(w);
      case VisitChild(k, found) => VisitChildKeeps(w, k, found);
      case VisitSecret(owner) => VisitSecretKeeps(w, owner);
      case WriteRemoval => WriteRemovalKeeps(w);
      case WriteUid => WriteUidKeeps(w);
      case DeleteChild => DeleteChildKeeps(w);
      case FinishLoop => FinishLoopKeeps(w);
      case WriteEnd => WriteEndKeeps(w);
    }
  }

  // ------------------------------------------------------------ the Application controller keeps it

  /** A step of the Application controller that changes nothing but what it remembers. */
  lemma ApplicationMovesKeep(w: World, a: AppPc)
    requires Invariant(w) && AppView(a, w.inv, w.children, w.clock)
    requires a.AIdle? || (!w.a.AIdle? && Upserting(a) == Upserting(w.a))
    ensures Invariant(w.(a := a))
  {
    hide AppView, InvView, Guarded, Fenced, Stored;
  }

  lemma AddFinalizerKeeps(w: World)
    requires Invariant(w)
    ensures Invariant(ApplicationStep(w, AddFinalizer))
  {
    hide AppView, Guarded, Fenced, Stored, AllReleased;
  }

  /** At the handoff every remaining obligation is released. */
  lemma HandoffReleases(inv: Option<Object>, clock: nat, children: map<Key, Child>, secrets: map<Key, Uid>)
    requires Stored(inv, clock) && Guarded(TableOf(inv), children, secrets) && (inv.Some? ==> Releasing(inv))
    ensures AllReleased(TableOf(inv), children)
  {
  }

  lemma RemoveFinalizerKeeps(w: World)
    requires Invariant(w)
    ensures Invariant(ApplicationStep(w, RemoveFinalizer))
  {
    hide Guarded, Fenced, Stored, Behind, AllReleased, NoObligations;
    if w.a.AFinalize? {
      HandoffReleases(w.inv, w.clock, w.children, w.secrets);
    }
  }

  lemma BeginningsKeep(w: World, policy: Policy)
    requires Invariant(w)
    ensures Invariant(ApplicationStep(w, BeginUpsert))
    ensures Invariant(ApplicationStep(w, BeginRemove(policy)))
  {
    hide InvView, Guarded, Fenced, Stored;
  }

  lemma ReadInventoryKeeps(w: World, journal: seq<Binding>)
    requires Invariant(w) && w.a.AEnsure?
    ensures Invariant(ReadInventoryStep(w, w.a.op, journal))
  {
    hide InvView, Guarded, Fenced;
    if w.inv.None? && PersistAll(INIT_SPEC, journal).Ok? {
      PersistAllKeeps(INIT_SPEC, journal);
    }
    ApplicationMovesKeep(w, ReadInventoryStep(w, w.a.op, journal).a);
  }

  lemma ListCredentialsKeeps(w: World, listed: seq<Binding>)
    requires Invariant(w) && Lists(listed, w.children, PostgresCredential)
    ensures w.a.ANewCredentials? ==> Invariant(w.(a := ANewMigrations(w.a.op, w.a.draft, listed)))
    ensures w.a.AListCredentials? ==> Invariant(w.(a := AListMigrations(w.a.op, w.a.snap, listed)))
  {
    hide InvView, Guarded, Fenced, Stored, Remembers, Covers, WellFormed;
    if w.a.ANewCredentials? {
      ApplicationMovesKeep(w, ANewMigrations(w.a.op, w.a.draft, listed));
    } else if w.a.AListCredentials? {
      ApplicationMovesKeep(w, AListMigrations(w.a.op, w.a.snap, listed));
    }
  }

  lemma BothLists(children: map<Key, Child>, found: seq<Binding>, listed: seq<Binding>)
    requires FoundOk(children, found) && AllOfKind(found, PostgresCredential)
      && Exhausts(children, found, PostgresCredential)
    requires Lists(listed, children, PostgresMigrationSet)
    ensures FoundOk(children, found + listed)
    ensures Exhausts(children, found + listed, PostgresCredential)
    ensures Exhausts(children, found + listed, PostgresMigrationSet)
  {
    var both := found + listed;
    forall k | k in children && k.kind == PostgresCredential
      ensures exists i :: 0 <= i < |both| && both[i].key == k
    {
      var i :| 0 <= i < |found| && found[i].key == k;
      assert both[i].key == k;
    }
    forall k | k in children && k.kind == PostgresMigrationSet
      ensures exists i :: 0 <= i < |both| && both[i].key == k
    {
      var i :| 0 <= i < |listed| && listed[i].key == k;
      assert both[|found| + i].key == k;
    }
  }

  lemma NewInventoryKeeps(w: World, listed: seq<Binding>, needed: bool)
    requires Invariant(w) && w.a.ANewMigrations? && Lists(listed, w.children, PostgresMigrationSet)
    ensures Invariant(NewInventoryStep(w, w.a.op, w.a.draft, w.a.found + listed, needed))
  {
    hide InvView, Guarded, Fenced, Stored, PersistAll, WellFormed, Lists;
    var op, draft, found := w.a.op, w.a.draft, w.a.found + listed;
    if PersistAll(draft, found).Ok? {
      PersistAllKeeps(draft, found);
      ApplicationMovesKeep(w, NewInventoryStep(w, op, draft, found, needed).a);
    } else {
      ApplicationMovesKeep(w, AIdle);
    }
  }

  /** A child that was found is recorded under its UID. */
  lemma FoundIsRecorded(table: Table, found: seq<Binding>, children: map<Key, Child>, k: Key)
    requires FoundOk(children, found) && AllPersisted(found, table)
    requires Exhausts(children, found, PostgresCredential) && Exhausts(children, found, PostgresMigrationSet)
    requires k in children && ChildKind(k.kind) && k in table
    ensures table[k].uid == children[k].uid
  {
    var i :| 0 <= i < |found| && found[i].key == k;
  }

  /** A successful discovery leaves no child without its recorded UID. */
  lemma DiscoveryRecords(spec: Spec, found: seq<Binding>, children: map<Key, Child>)
    requires WellFormed(spec) && FoundOk(children, found) && PersistAll(spec, found).Ok?
    requires forall k :: k in children ==> ChildKind(k.kind) && children[k].uid != NO_UID
    requires Exhausts(children, found, PostgresCredential) && Exhausts(children, found, PostgresMigrationSet)
    ensures Recorded(PersistAll(spec, found).value.resources, children, None)
  {
    PersistAllEvolves(spec, found);
    var next := PersistAll(spec, found).value;
    hide PersistAll, WellFormed, Evolves, FoundOk, Exhausts, AllPersisted, OnlyListed;
    forall k | k in children && k in next.resources
      ensures next.resources[k].uid == children[k].uid && next.resources[k].uid != NO_UID
    {
      FoundIsRecorded(next.resources, found, children, k);
    }
  }

  lemma MarksKeepUids(spec: Spec, wanted: set<(Kind, string)>, children: map<Key, Child>)
    requires Recorded(spec.resources, children, None)
    ensures Recorded(MarkUnwanted(spec, wanted).resources, children, None)
    ensures Recorded(ReleaseAll(spec).resources, children, None)
  {
  }

  /** What the Application controller writes: entries evolve, and every child has its UID. */
  lemma DesiredEvolves(spec: Spec, op: Op, found: seq<Binding>, wanted: set<(Kind, string)>, children: map<Key, Child>)
    requires WellFormed(spec) && FoundOk(children, found) && Desired(spec, op, found, wanted).Ok?
    requires forall k :: k in children ==> ChildKind(k.kind) && children[k].uid != NO_UID
    requires Exhausts(children, found, PostgresCredential) && Exhausts(children, found, PostgresMigrationSet)
    ensures var next := Desired(spec, op, found, wanted).value;
      && WellFormed(next) && Evolves(spec, next)
      && (next.releasing <==> op.Remove? || spec.releasing)
      && Recorded(next.resources, children, None)
  {
    PersistAllEvolves(spec, found);
    DiscoveryRecords(spec, found, children);
    hide PersistAll, WellFormed, FoundOk, Evolves, Recorded, Exhausts;
    var s := PersistAll(spec, found).value;
    var w := if op.Remove? then {} else wanted;
    var marked := MarkUnwanted(s, w);
    MarkEvolves(s, w);
    MarksKeepUids(s, w, children);
    MarksKeepUids(marked, w, children);
    EvolvesTransitive(spec, s, marked);
    ReleaseEvolves(marked);
    EvolvesTransitive(spec, marked, ReleaseAll(marked));
  }

  lemma PlanKeeps(w: World, listed: seq<Binding>, wanted: set<(Kind, string)>)
    requires Invariant(w) && w.a.AListMigrations? && Lists(listed, w.children, PostgresMigrationSet)
    ensures Invariant(PlanStep(w, w.a.op, w.a.snap, w.a.found + listed, wanted))
  {
    hide InvView, Stored, Desired, Evolves, Fenced, Covers, Lists, Recorded;
    var found := w.a.found + listed;
    BothLists(w.children, w.a.found, listed);
    if Desired(w.a.snap.spec, w.a.op, found, wanted).Ok? {
      DesiredEvolves(w.a.snap.spec, w.a.op, found, wanted, w.children);
    }
    ApplicationMovesKeep(w, PlanStep(w, w.a.op, w.a.snap, found, wanted).a);
  }

  /** The inventory controller stays behind a write that lets entries evolve. */
  lemma InvViewAdvances(w: World, next: Spec)
    requires Invariant(w) && w.inv.Some? && Evolves(w.inv.value.spec, next)
    ensures InvView(w.i, w.app, Some(Object(w.clock + 1, next, w.inv.value.deleting)), w.children, w.secrets,
      w.clock + 1)
  {
    hide AppView, Guarded, Fenced, Phases, WellFormed, Evolves;
    if !w.i.IIdle? {
      EvolvesTransitive(w.i.snap.spec, w.inv.value.spec, next);
    }
  }

  lemma EvolvedIsGuarded(table: Spec, next: Spec, children: map<Key, Child>, secrets: map<Key, Uid>)
    requires Guarded(table.resources, children, secrets) && Evolves(table, next)
    ensures Guarded(next.resources, children, secrets)
    ensures AllReleased(table.resources, children) ==> AllReleased(next.resources, children)
  {
  }

  /** A conditional write by the Application controller that passes its version check. */
  lemma OwnerWriteKeeps(w: World, next: Spec, a: AppPc)
    requires Invariant(w) && w.inv.Some? && WellFormed(next) && Evolves(w.inv.value.spec, next)
    requires Fenced(next.resources, w.children)
    requires next.releasing ==> !Upserting(w.a)
    requires AppView(a, Some(Object(w.clock + 1, next, w.inv.value.deleting)), w.children, w.clock + 1)
    requires a.AIdle? || Upserting(a) == Upserting(w.a)
    requires !w.a.AIdle?
    ensures Invariant(Store(w, next, w.inv.value.deleting).(a := a))
  {
    hide InvView, AppView, Guarded, Fenced, Evolves, AllReleased, WellFormed;
    InvViewAdvances(w, next);
    EvolvedIsGuarded(w.inv.value.spec, next, w.children, w.secrets);
  }

  lemma CreateInventoryKeeps(w: World)
    requires Invariant(w)
    ensures Invariant(ApplicationStep(w, CreateInventory))
  {
    hide Evolves, WellFormed;
    if w.a.ACreateInventory? {
      assert w.children.Keys == {} && w.secrets.Keys == {};
    }
  }

  lemma NothingPending(spec: Spec)
    requires WellFormed(spec) && spec.releasing && !Pending(spec)
    ensures NoObligations(spec.resources)
  {
  }

  lemma CoveredNoObligations(table: Table, copy: Table)
    requires Covers(table, copy) && NoObligations(copy)
    ensures NoObligations(table)
  {
  }

  lemma RecordedIsFenced(table: Table, children: map<Key, Child>)
    requires Recorded(table, children, None)
    ensures Fenced(table, children)
  {
  }

  /** What was recorded in a copy of the inventory stays recorded in the stored one. */
  lemma CoveredRecorded(table: Table, copy: Table, children: map<Key, Child>)
    requires Covers(table, copy) && Recorded(copy, children, None)
    ensures Recorded(table, children, None)
  {
  }

  lemma UpdateInventoryKeeps(w: World)
    requires Invariant(w) && w.a.AUpdateInventory?
    ensures Invariant(UpdateInventoryStep(w, w.a.op, w.a.snap, w.a.next))
  {
    hide InvView, Guarded, Fenced, Evolves, NoObligations, Covers, Pending, WellFormed, Recorded;
    var op, snap, next := w.a.op, w.a.snap, w.a.next;
    var a := AfterUpdate(op, next);
    if op.Remove? && !Pending(next) {
      NothingPending(next);
    }
    if next == snap.spec {
      CoveredRecorded(TableOf(w.inv), next.resources, w.children);
      if op.Remove? && !Pending(next) {
        CoveredNoObligations(TableOf(w.inv), next.resources);
      }
      ApplicationMovesKeep(w, a);
    } else if Fresh(w, snap) {
      RecordedIsFenced(next.resources, w.children);
      OwnerWriteKeeps(w, next, a);
    } else {
      ApplicationMovesKeep(w, AIdle);
    }
  }

  lemma UpdateStatusKeeps(w: World)
    requires Invariant(w) && w.a.AStatus?
    ensures Invariant(w.(a := AIdle))
    ensures !(w.a.policy.Wait? && w.a.pending) ==> Invariant(w.(a := AFinalize(w.a.policy)))
  {
    hide InvView, Guarded, Fenced, Stored, NoObligations, Phases, AllReleased;
    ApplicationMovesKeep(w, AIdle);
    if !(w.a.policy.Wait? && w.a.pending) {
      ApplicationMovesKeep(w, AFinalize(w.a.policy));
    }
  }

  lemma BindInventoryKeeps(w: World)
    requires Invariant(w) && w.a.AServe?
    ensures Invariant(w.(a := AIdle)) && Invariant(w.(a := ABound))
  {
    hide InvView, Guarded, Fenced, Stored, Recorded, Phases, AllReleased;
    ApplicationMovesKeep(w, AIdle);
    ApplicationMovesKeep(w, ABound);
  }

  lemma ShareResourceKeeps(w: World, shared: Binding)
    requires Invariant(w)
    ensures Invariant(ApplicationStep(w, ShareResource(shared)))
  {
    hide InvView, Guarded, Fenced, Stored;
  }

  lemma FoundEntryHolds(w: World, k: Key)
    requires Stored(w.inv, w.clock) && k in TableOf(w.inv)
    requires !TableOf(w.inv)[k].disposition.Release? && Obligation(TableOf(w.inv)[k])
    ensures Holds(TableOf(w.inv), TableOf(w.inv)[k])
  {
  }

  /** An intent that matches no entry is not bound to one. */
  lemma IntentIsNew(table: Table, children: map<Key, Child>, kind: Kind, namespace: string, logicalName: string)
    requires Recorded(table, children, None) && ChildKind(kind)
    requires !exists k :: k in table && Matches(table[k], kind, logicalName)
    ensures PersistOk(table, children, Intent(kind, namespace, logicalName), false)
  {
    hide Recorded;
  }

  lemma LookupKeeps(w: World, kind: Kind, namespace: string, logicalName: string, hit: Option<Key>)
    requires Invariant(w) && w.a.ABound? && ChildKind(kind)
    ensures Invariant(LookupStep(w, kind, namespace, logicalName, hit))
  {
    hide InvView, Guarded, Fenced, Phases, WellFormed, Recorded, AllReleased, Stored, PersistOk;
    ApplicationMovesKeep(w, AIdle);
    var table := TableOf(w.inv);
    match hit
    case Some(k) =>
      if k in table && Matches(table[k], kind, logicalName) && !table[k].disposition.Release? {
        FoundEntryHolds(w, k);
        ApplicationMovesKeep(w, AEnsureChild(table[k]));
      }
    case None =>
      if w.inv.Some? && !exists k :: k in table && Matches(table[k], kind, logicalName) {
        IntentIsNew(table, w.children, kind, namespace, logicalName);
        ApplicationMovesKeep(w, APersist(Intent(kind, namespace, logicalName), false));
      }
  }

  lemma ReadForPersistKeeps(w: World)
    requires Invariant(w) && w.a.APersist?
    ensures Invariant(ReadForPersistStep(w, w.a.entry, w.a.recorded))
  {
    hide InvView, Guarded, Fenced;
    ApplicationMovesKeep(w, ReadForPersistStep(w, w.a.entry, w.a.recorded).a);
  }

  /** A persisted entry leaves every child recorded, and is what the controller goes on with. */
  lemma PersistedHolds(w: World, spec: Spec, e: Binding, recorded: bool)
    requires Stored(w.inv, w.clock) && w.inv.Some? && w.inv.value.spec == spec && !spec.releasing
    requires Guarded(spec.resources, w.children, w.secrets)
    requires PersistOk(spec.resources, w.children, e, recorded)
    requires Persist(spec, e).Ok?
    requires !recorded && !e.retained ==> e.key !in spec.resources
    ensures var next := Persist(spec, e).value;
      && Recorded(next.resources, w.children, None)
      && (!recorded && !e.retained ==> Holds(next.resources, e))
  {
  }

  /** When persisting changed nothing, the UID was there already. */
  lemma UnchangedPersist(table: Table, snap: Spec, e: Binding, recorded: bool, children: map<Key, Child>)
    requires WellFormed(snap) && Persist(snap, e) == Ok(snap)
    requires Covers(table, snap.resources) && PersistOk(table, children, e, recorded)
    ensures recorded || e.retained ==> Recorded(table, children, None)
    ensures e.key in snap.resources
  {
  }

  lemma WritePersistKeeps(w: World)
    requires Invariant(w) && w.a.APersistUpdate?
    ensures Invariant(WritePersistStep(w, w.a.entry, w.a.recorded, w.a.snap, w.a.next))
  {
    hide InvView, Fenced, Guarded, Persist, WellFormed, Evolves, PersistOk, Recorded, Covers;
    var e, recorded, snap, next := w.a.entry, w.a.recorded, w.a.snap, w.a.next;
    PersistEvolves(snap.spec, e);
    if next == snap.spec {
      UnchangedPersist(TableOf(w.inv), snap.spec, e, recorded, w.children);
      ApplicationMovesKeep(w, AfterPersist(e, recorded));
    } else if Fresh(w, snap) {
      PersistedHolds(w, snap.spec, e, recorded);
      RecordedIsFenced(next.resources, w.children);
      OwnerWriteKeeps(w, next, AfterPersist(e, recorded));
    } else {
      ApplicationMovesKeep(w, AIdle);
    }
  }

  lemma ObserveChildKeeps(w: World, seen: Option<Child>)
    requires Invariant(w) && w.a.AEnsureChild? && MayObserve(w, w.a.entry.key, seen)
    ensures Invariant(ObserveChildStep(w, w.a.entry, seen))
  {
    hide InvView, Guarded, Fenced, Stored;
    ApplicationMovesKeep(w, ObserveChildStep(w, w.a.entry, seen).a);
  }

  lemma ObserveNoSecretKeeps(w: World)
    requires Invariant(w)
    ensures Invariant(ApplicationStep(w, ObserveNoSecret))
  {
    hide InvView, Guarded, Fenced, Stored, Holds;
  }

  /** Creating the child of a stored, unreleased entry cannot meet a release in progress. */
  lemma ReleaseMissesNewChild(w: World, k: Key, c: Child)
    requires InvView(w.i, w.app, w.inv, w.children, w.secrets, w.clock)
    requires k in TableOf(w.inv) && !TableOf(w.inv)[k].disposition.Release?
    ensures InvView(w.i, w.app, w.inv, w.children[k := c], w.secrets, w.clock + 1)
  {
  }

  lemma NewChildIsGuarded(w: World, e: Binding, uid: Uid)
    requires Guarded(TableOf(w.inv), w.children, w.secrets) && Fenced(TableOf(w.inv), w.children)
    requires Recorded(TableOf(w.inv), w.children, None)
    requires Holds(TableOf(w.inv), e) && e.uid == NO_UID && Creatable(e) && uid != NO_UID
    ensures var next := w.children[e.key := Child(uid, e.logicalName, e.fields, false)];
      && e.key !in w.children
      && Guarded(TableOf(w.inv), next, w.secrets) && Fenced(TableOf(w.inv), next)
      && PersistOk(TableOf(w.inv), next, e.(uid := uid), true)
  {
  }

  /** The create call never finds the name taken. */
  lemma CreateChildKeeps(w: World)
    requires Invariant(w) && w.a.ACreateChild?
    ensures Invariant(CreateChildStep(w, w.a.entry)) && w.a.entry.key !in w.children
  {
    hide InvView, Guarded, Fenced, Recorded, PersistOk, WellFormed, AllReleased, Remembers, Covers;
    var e, uid := w.a.entry, w.clock + 1;
    NewChildIsGuarded(w, e, uid);
    ReleaseMissesNewChild(w, e.key, Child(uid, e.logicalName, e.fields, false));
  }

  lemma ApplicationKeeps(w: World, e: Event)
    requires Invariant(w) && !IsInventoryEvent(e) && !IsClusterEvent(e)
    ensures Invariant(ApplicationStep(w, e))
  {
    hide AppView, InvView, Phases, Guarded, Fenced, Stored, Lists;
    if ApplicationStep(w, e) != w {
      match e
      case AddFinalizer => AddFinalizerKeeps(w);
      case BeginUpsert => BeginningsKeep(w, Wait);
      case BeginRemove(policy) => BeginningsKeep(w, policy);
      case ReadInventory(journal) => ReadInventoryKeeps(w, journal);
      case ListCredentials(listed) => ListCredentialsKeeps(w, listed);
      case ListMigrations(listed, wanted, needed) =>
        if w.a.ANewMigrations? {
          NewInventoryKeeps(w, listed, needed);
        } else {
          PlanKeeps(w, listed, wanted);
        }
      case CreateInventory => CreateInventoryKeeps(w);
      case UpdateInventory => UpdateInventoryKeeps(w);
      case UpdateStatus => UpdateStatusKeeps(w);
      case RemoveFinalizer => RemoveFinalizerKeeps(w);
      case BindInventory => BindInventoryKeeps(w);
      case ShareResource(shared) => ShareResourceKeeps(w, shared);
      case LookupResource(kind, namespace, logicalName, hit) => LookupKeeps(w, kind, namespace, logicalName, hit);
      case ReadForPersist => ReadForPersistKeeps(w);
      case WritePersist => WritePersistKeeps(w);
      case ObserveChild(seen) => ObserveChildKeeps(w, seen);
      case ObserveNoSecret => ObserveNoSecretKeeps(w);
      case CreateChild => CreateChildKeeps(w);
    }
  }

  lemma StepKeeps(w: World, e: Event)
    requires Invariant(w)
    ensures Invariant(Step(w, e))
  {
    hide Invariant, ApplicationStep, InventoryStep, ClusterStep;
    if IsInventoryEvent(e) {
      InventoryKeeps(w, e);
    } else if IsClusterEvent(e) {
      ClusterKeeps(w, e);
    } else {
      ApplicationKeeps(w, e);
    }
  }

  lemma {:induction false} RunKeeps(events: seq<Event>)
    ensures Invariant(Run(Init(), events))
    decreases |events|
  {
    if events != [] {
      hide Step, Invariant;
      var n := |events| - 1;
      RunKeeps(events[..n]);
      StepKeeps(Run(Init(), events[..n]), events[n]);
    }
  }
}
