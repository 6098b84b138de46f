/**
  The two controllers that share a ResourceInventory, one API call per step.

  The Application controller journals an intent, creates a child, then records its UID.
  The inventory controller releases children on its own.  A crash or a failed call may
  discard the local state of either between any two calls.

  A read that finds a child may come from a lagging cache, so it may return any object at
  all; only absence is confirmed against the API server, and only lists are current.
 */
module InventoryProtocol {
  import opened Basics
  import opened Inventory

  /** Without finalizer, with finalizer, deletion requested, removed. */
  datatype AppPhase = Unprotected | Protected | Deleting | Gone

  datatype Policy = Wait | OrphanInventory

  datatype Op = Upsert | Remove(policy: Policy)

  /** A stored inventory; every write gives it a new version. */
  datatype Object = Object(version: nat, spec: Spec, deleting: bool)

  datatype Child = Child(uid: Uid, logicalName: string, fields: Fields, deleting: bool)

  datatype AppPc =
    | AIdle
    | AEnsure(op: Op)
    | ANewCredentials(op: Op, draft: Spec)
    | ANewMigrations(op: Op, draft: Spec, found: seq<Binding>)
    | ACreateInventory(op: Op, draft: Spec)
    | AListCredentials(op: Op, snap: Object)
    | AListMigrations(op: Op, snap: Object, found: seq<Binding>)
    | AUpdateInventory(op: Op, snap: Object, next: Spec)
    | AStatus(policy: Policy, pending: bool)
    | AFinalize(policy: Policy)
    | AServe
    | ABound
    | APersist(entry: Binding, recorded: bool)
    | APersistUpdate(entry: Binding, recorded: bool, snap: Object, next: Spec)
    | AEnsureChild(entry: Binding)
    | ACheckSecret(entry: Binding)
    | ACreateChild(entry: Binding)

  datatype InvPc =
    | IIdle
    | IReadApp(snap: Object)
    | IWriteRelease(snap: Object)
    | ILoop(snap: Object, absent: bool, visited: set<Key>)
    | ISecret(snap: Object, absent: bool, visited: set<Key>, key: Key)
    | IWriteRemoval(snap: Object, key: Key)
    | IWriteUid(snap: Object, key: Key, uid: Uid)
    | IDeleteChild(snap: Object, absent: bool, visited: set<Key>, key: Key)
    | IWriteEnd(snap: Object)

  datatype World = World(
    app: AppPhase,
    appCache: AppPhase,          // the Application as the lagging cache shows it
    inv: Option<Object>,
    children: map<Key, Child>,   // children labelled with the Application's UID
    secrets: map<Key, Uid>,      // owner of the Secret of the credential with this key
    clock: nat,
    a: AppPc,
    i: InvPc)

  datatype Event =
    // Application controller
    | AddFinalizer
    | BeginUpsert
    | BeginRemove(policy: Policy)
    | ReadInventory(journal: seq<Binding>)
    | ListCredentials(listed: seq<Binding>)
    | ListMigrations(listed: seq<Binding>, wanted: set<(Kind, string)>, needed: bool)
    | CreateInventory
    | UpdateInventory
    | UpdateStatus
    | RemoveFinalizer
    | BindInventory
    | ShareResource(shared: Binding)
    | LookupResource(kind: Kind, namespace: string, logicalName: string, hit: Option<Key>)
    | ReadForPersist
    | WritePersist
    | ObserveChild(seen: Option<Child>)
    | ObserveNoSecret
    | CreateChild
    // inventory controller
    | StartRelease
    | ReadApplication
    | WriteRelease
    | VisitChild(key: Key, found: Option<Child>)
    | VisitSecret(owner: Option<Uid>)
    | WriteRemoval
    | WriteUid
    | DeleteChild
    | FinishLoop
    | WriteEnd
    // the rest of the cluster
    | UserDeletesApplication
    | UserDeletesInventory
    | UserDeletesChild(victim: Key)
    | ChildFinalized(gone: Key)
    | SecretCreated(credential: Key)
    | SecretCollected(orphan: Key)
    | CacheSyncs
    | ApplicationStepFails
    | InventoryStepFails
    | Crash

  const INIT_SPEC := Spec(false, map[])

  function Init(): World {
    World(Unprotected, Unprotected, None, map[], map[], 0, AIdle, IIdle)
  }

  function TableOf(inv: Option<Object>): map<Key, Binding> {
    if inv.Some? then inv.value.spec.resources else map[]
  }

  predicate ChildKind(k: Kind) {
    k.PostgresCredential? || k.PostgresMigrationSet?
  }

  /** The identity EnsureCredential and EnsureMigration insist on before creating. */
  predicate Creatable(e: Binding) {
    ChildKind(e.key.kind) && e.key.name == Hashed(e.key.kind, e.logicalName)
    && e.fields == Derived(e.key.kind, e.logicalName) && !e.retained
  }

  /** verifyResource: UID fence, logical name and binding. */
  predicate Verified(e: Binding, c: Child) {
    (e.uid == NO_UID || e.uid == c.uid) && e.logicalName == c.logicalName && e.fields == c.fields
  }

  function AsBinding(k: Key, c: Child): Binding {
    Binding(k, c.uid, c.logicalName, false, c.fields, Unset)
  }

  predicate Lists(listed: seq<Binding>, children: map<Key, Child>, kind: Kind) {
    && (forall i :: 0 <= i < |listed| ==>
          && listed[i].key.kind == kind && listed[i].key in children
          && listed[i] == AsBinding(listed[i].key, children[listed[i].key]))
    && (forall i, j :: 0 <= i < j < |listed| ==> listed[i].key != listed[j].key)
    && (forall k :: k in children && k.kind == kind ==> exists i :: 0 <= i < |listed| && listed[i].key == k)
  }

  /** What a read of the child may return: absence is confirmed, presence may be stale. */
  predicate MayObserve(w: World, k: Key, seen: Option<Child>) {
    match seen
    case None => k !in w.children
    case Some(c) => c.uid != NO_UID
  }

  /** A conditional write: it succeeds when the stored version is the one that was read. */
  predicate Fresh(w: World, snap: Object) {
    w.inv.Some? && w.inv.value.version == snap.version
  }

  function Store(w: World, spec: Spec, deleting: bool): World {
    w.(inv := Some(Object(w.clock + 1, spec, deleting)), clock := w.clock + 1)
  }

  // ------------------------------------------------------------ Application controller

  function ReadInventoryStep(w: World, op: Op, journal: seq<Binding>): World {
    if w.inv.Some? then
      if w.inv.value.deleting && op.Upsert? then w.(a := AIdle)
      else w.(a := AListCredentials(op, w.inv.value))
    else match PersistAll(INIT_SPEC, journal)
      case Err(_) => w.(a := AIdle)
      case Ok(draft) => w.(a := ANewCredentials(op, draft))
  }

  function NewInventoryStep(w: World, op: Op, draft: Spec, found: seq<Binding>, needed: bool): World {
    match PersistAll(draft, found)
    case Err(_) => w.(a := AIdle)
    case Ok(spec) =>
      if spec.resources == map[] && (op.Remove? || !needed) then
        w.(a := if op.Remove? then AFinalize(op.policy) else AIdle)
      else w.(a := ACreateInventory(op, spec))
  }

  function Desired(spec: Spec, op: Op, found: seq<Binding>, wanted: set<(Kind, string)>): Result<Spec, PersistError> {
    match PersistAll(spec, found)
    case Err(e) => Err(e)
    case Ok(s) =>
      if op.Remove? then Ok(ReleaseAll(MarkUnwanted(s, {}))) else Ok(MarkUnwanted(s, wanted))
  }

  function PlanStep(w: World, op: Op, snap: Object, found: seq<Binding>, wanted: set<(Kind, string)>): World {
    match Desired(snap.spec, op, found, wanted)
    case Err(_) => w.(a := AIdle)
    case Ok(next) => w.(a := AUpdateInventory(op, snap, next))
  }

  function AfterUpdate(op: Op, next: Spec): AppPc {
    if op.Remove? then AStatus(op.policy, Pending(next)) else if Pending(next) then AIdle else AServe
  }

  function UpdateInventoryStep(w: World, op: Op, snap: Object, next: Spec): World {
    if next == snap.spec then w.(a := AfterUpdate(op, next))
    else if Fresh(w, snap) then Store(w, next, w.inv.value.deleting).(a := AfterUpdate(op, next))
    else w.(a := AIdle)
  }

  predicate Matches(b: Binding, kind: Kind, logicalName: string) {
    b.key.kind == kind && b.logicalName == logicalName && !b.retained
  }

  function Intent(kind: Kind, namespace: string, logicalName: string): Binding {
    Binding(Key(kind, namespace, Hashed(kind, logicalName)), NO_UID, logicalName, false,
            Derived(kind, logicalName), Active)
  }

  /** applicationResource: an entry that matches is used unless it is being released; otherwise journal an intent. */
  function LookupStep(w: World, kind: Kind, namespace: string, logicalName: string, hit: Option<Key>): World {
    var resources := TableOf(w.inv);
    match hit
    case Some(k) =>
      if k !in resources || !Matches(resources[k], kind, logicalName) then w
      else if resources[k].disposition.Release? then w.(a := AIdle)
      else w.(a := AEnsureChild(resources[k]))
    case None =>
      if w.inv.None? then w.(a := AIdle)
      else if exists k :: k in resources && Matches(resources[k], kind, logicalName) then w
      else w.(a := APersist(Intent(kind, namespace, logicalName), false))
  }

  /** persistResource up to its write: re-read, refuse a releasing or deleting inventory, persist locally. */
  function ReadForPersistStep(w: World, entry: Binding, recorded: bool): World {
    if w.inv.None? || w.inv.value.spec.releasing || w.inv.value.deleting then w.(a := AIdle)
    else match Persist(w.inv.value.spec, entry)
      case Err(_) => w.(a := AIdle)
      case Ok(next) => w.(a := APersistUpdate(entry, recorded, w.inv.value, next))
  }

  function AfterPersist(entry: Binding, recorded: bool): AppPc {
    if entry.retained then AServe else if recorded then ABound else AEnsureChild(entry)
  }

  function WritePersistStep(w: World, entry: Binding, recorded: bool, snap: Object, next: Spec): World {
    if next == snap.spec then w.(a := AfterPersist(entry, recorded))
    else if Fresh(w, snap) then Store(w, next, w.inv.value.deleting).(a := AfterPersist(entry, recorded))
    else w.(a := AIdle)
  }

  /** EnsureCredential and EnsureMigration up to the decision to create. */
  function ObserveChildStep(w: World, e: Binding, seen: Option<Child>): World {
    match seen
    case None =>
      if e.uid != NO_UID || !Creatable(e) then w.(a := AIdle)
      else w.(a := if e.key.kind.PostgresCredential? then ACheckSecret(e) else ACreateChild(e))
    case Some(c) =>
      if !Verified(e, c) || c.deleting then w.(a := AIdle)
      else w.(a := APersist(e.(uid := c.uid), true))
  }

  function CreateChildStep(w: World, e: Binding): World {
    if e.key in w.children then w.(a := AIdle)
    else
      var uid := w.clock + 1;
      w.(children := w.children[e.key := Child(uid, e.logicalName, e.fields, false)], clock := uid,
         a := APersist(e.(uid := uid), true))
  }

  // ------------------------------------------------------------ inventory controller

  function ReadApplicationStep(w: World, snap: Object): World {
    var absent := w.app.Gone?;
    if absent && !snap.spec.releasing then w.(i := IWriteRelease(snap))
    else if snap.deleting && !snap.spec.releasing then w.(i := IIdle)
    else w.(i := ILoop(snap, absent, {}))
  }

  predicate ToRelease(spec: Spec, k: Key) {
    k in spec.resources && !spec.resources[k].retained && spec.resources[k].disposition.Release?
  }

  /** RemoveApplicationResource on one entry, up to its next API call. */
  function VisitChildStep(w: World, snap: Object, absent: bool, visited: set<Key>, k: Key, found: Option<Child>): World
    requires k in snap.spec.resources
  {
    var e := snap.spec.resources[k];
    if !ChildKind(k.kind) then w.(i := IIdle)
    else match found
      case None =>
        if k.kind.PostgresCredential? then w.(i := ISecret(snap, absent, visited, k))
        else w.(i := IWriteRemoval(snap, k))
      case Some(c) =>
        if !Verified(e, c) then w.(i := IIdle)
        else if e.uid == NO_UID then w.(i := IWriteUid(snap, k, c.uid))
        else if c.deleting then w.(i := ILoop(snap, absent, visited + {k}))
        else w.(i := IDeleteChild(snap, absent, visited, k))
  }

  function VisitSecretStep(w: World, snap: Object, absent: bool, visited: set<Key>, k: Key, owner: Option<Uid>): World
    requires k in snap.spec.resources
  {
    match owner
    case None => if k in w.secrets then w else w.(i := IWriteRemoval(snap, k))
    case Some(uid) =>
      if snap.spec.resources[k].uid == NO_UID || uid != snap.spec.resources[k].uid then w.(i := IIdle)
      else w.(i := ILoop(snap, absent, visited + {k}))
  }

  function WriteInventory(w: World, snap: Object, next: Spec): World {
    if Fresh(w, snap) then Store(w, next, w.inv.value.deleting).(i := IIdle) else w.(i := IIdle)
  }

  function WriteUidStep(w: World, snap: Object, k: Key, uid: Uid): World
    requires k in snap.spec.resources
  {
    match Persist(snap.spec, snap.spec.resources[k].(uid := uid))
    case Err(_) => w.(i := IIdle)
    case Ok(next) => WriteInventory(w, snap, next)
  }

  /** A delete that names the recorded UID and only reaches an object with that UID. */
  function DeleteChildStep(w: World, snap: Object, absent: bool, visited: set<Key>, k: Key): World
    requires k in snap.spec.resources
  {
    var next := w.(i := ILoop(snap, absent, visited + {k}));
    if k in w.children && w.children[k].uid == snap.spec.resources[k].uid then
      next.(children := w.children[k := w.children[k].(deleting := true)])
    else next
  }

  function FinishLoopStep(w: World, snap: Object, absent: bool, visited: set<Key>): World {
    if exists k :: k in snap.spec.resources && ToRelease(snap.spec, k) && k !in visited then w
    else if absent && snap.spec.releasing && !HasObligations(snap.spec) then w.(i := IWriteEnd(snap))
    else w.(i := IIdle)
  }

  function WriteEndStep(w: World, snap: Object): World {
    if !Fresh(w, snap) then w.(i := IIdle)
    else if snap.deleting then w.(inv := None, i := IIdle)
    else Store(w, snap.spec, true).(i := IIdle)
  }

  // ------------------------------------------------------------ one step of the whole system

  function ApplicationStep(w: World, e: Event): World {
    match e
    case AddFinalizer => if w.a.AIdle? && w.app.Unprotected? then w.(app := Protected) else w
    case BeginUpsert => if w.a.AIdle? && w.appCache.Protected? then w.(a := AEnsure(Upsert)) else w
    case BeginRemove(policy) => if w.a.AIdle? && w.appCache.Deleting? then w.(a := AEnsure(Remove(policy))) else w
    case ReadInventory(journal) => if w.a.AEnsure? then ReadInventoryStep(w, w.a.op, journal) else w
    case ListCredentials(listed) =>
      if !Lists(listed, w.children, PostgresCredential) then w
      else if w.a.ANewCredentials? then w.(a := ANewMigrations(w.a.op, w.a.draft, listed))
      else if w.a.AListCredentials? then w.(a := AListMigrations(w.a.op, w.a.snap, listed))
      else w
    case ListMigrations(listed, wanted, needed) =>
      if !Lists(listed, w.children, PostgresMigrationSet) then w
      else if w.a.ANewMigrations? then NewInventoryStep(w, w.a.op, w.a.draft, w.a.found + listed, needed)
      else if w.a.AListMigrations? then PlanStep(w, w.a.op, w.a.snap, w.a.found + listed, wanted)
      else w
    case CreateInventory =>
      if !w.a.ACreateInventory? then w
      else if w.inv.Some? then w.(a := AIdle)
      else
        var stored := Store(w, w.a.draft, false);
        stored.(a := AListCredentials(w.a.op, stored.inv.value))
    case UpdateInventory => if w.a.AUpdateInventory? then UpdateInventoryStep(w, w.a.op, w.a.snap, w.a.next) else w
    case UpdateStatus =>
      if !w.a.AStatus? then w
      else if w.a.policy.Wait? && w.a.pending then w.(a := AIdle)
      else w.(a := AFinalize(w.a.policy))
    case RemoveFinalizer => if w.a.AFinalize? then w.(app := Gone, a := AIdle) else w
    case BindInventory =>
      if !w.a.AServe? then w
      else if w.inv.None? || w.inv.value.spec.releasing || w.inv.value.deleting then w.(a := AIdle)
      else w.(a := ABound)
    case ShareResource(shared) =>
      if w.a.AServe? && shared.retained && !ChildKind(shared.key.kind) then w.(a := APersist(shared, true)) else w
    case LookupResource(kind, namespace, logicalName, hit) =>
      if w.a.ABound? && ChildKind(kind) then LookupStep(w, kind, namespace, logicalName, hit) else w
    case ReadForPersist => if w.a.APersist? then ReadForPersistStep(w, w.a.entry, w.a.recorded) else w
    case WritePersist =>
      if w.a.APersistUpdate? then WritePersistStep(w, w.a.entry, w.a.recorded, w.a.snap, w.a.next) else w
    case ObserveChild(seen) =>
      if w.a.AEnsureChild? && MayObserve(w, w.a.entry.key, seen) then ObserveChildStep(w, w.a.entry, seen) else w
    case ObserveNoSecret =>
      if w.a.ACheckSecret? && w.a.entry.key !in w.secrets then w.(a := ACreateChild(w.a.entry)) else w
    case CreateChild => if w.a.ACreateChild? then CreateChildStep(w, w.a.entry) else w
    case _ => w
  }

  function InventoryStep(w: World, e: Event): World {
    match e
    case StartRelease => if w.i.IIdle? && w.inv.Some? then w.(i := IReadApp(w.inv.value)) else w
    case ReadApplication => if w.i.IReadApp? then ReadApplicationStep(w, w.i.snap) else w
    case WriteRelease => if w.i.IWriteRelease? then WriteInventory(w, w.i.snap, ReleaseAll(w.i.snap.spec)) else w
    case VisitChild(k, found) =>
      if w.i.ILoop? && ToRelease(w.i.snap.spec, k) && k !in w.i.visited && MayObserve(w, k, found)
      then VisitChildStep(w, w.i.snap, w.i.absent, w.i.visited, k, found) else w
    case VisitSecret(owner) =>
      if w.i.ISecret? && w.i.key in w.i.snap.spec.resources
      then VisitSecretStep(w, w.i.snap, w.i.absent, w.i.visited, w.i.key, owner) else w
    case WriteRemoval =>
      if w.i.IWriteRemoval?
      then WriteInventory(w, w.i.snap, w.i.snap.spec.(resources := w.i.snap.spec.resources - {w.i.key})) else w
    case WriteUid =>
      if w.i.IWriteUid? && w.i.key in w.i.snap.spec.resources
      then WriteUidStep(w, w.i.snap, w.i.key, w.i.uid) else w
    case DeleteChild =>
      if w.i.IDeleteChild? && w.i.key in w.i.snap.spec.resources
      then DeleteChildStep(w, w.i.snap, w.i.absent, w.i.visited, w.i.key) else w
    case FinishLoop => if w.i.ILoop? then FinishLoopStep(w, w.i.snap, w.i.absent, w.i.visited) else w
    case WriteEnd => if w.i.IWriteEnd? then WriteEndStep(w, w.i.snap) else w
    case _ => w
  }

  function ClusterStep(w: World, e: Event): World {
    match e
    case UserDeletesApplication =>
      if w.app.Unprotected? then w.(app := Gone) else if w.app.Protected? then w.(app := Deleting) else w
    case UserDeletesInventory => if w.inv.Some? then Store(w, w.inv.value.spec, true) else w
    case UserDeletesChild(k) =>
      if k in w.children then w.(children := w.children[k := w.children[k].(deleting := true)]) else w
    case ChildFinalized(k) =>
      if k in w.children && w.children[k].deleting then w.(children := w.children - {k}) else w
    case SecretCreated(k) =>
      if k in w.children && k.kind.PostgresCredential? && k !in w.secrets
      then w.(secrets := w.secrets[k := w.children[k].uid]) else w
    case SecretCollected(k) => w.(secrets := w.secrets - {k})
    case CacheSyncs => w.(appCache := w.app)
    case ApplicationStepFails => w.(a := AIdle)
    case InventoryStepFails => w.(i := IIdle)
    case Crash => w.(a := AIdle, i := IIdle, appCache := w.app)
    case _ => w
  }

  predicate IsInventoryEvent(e: Event) {
    e.StartRelease? || e.ReadApplication? || e.WriteRelease? || e.VisitChild? || e.VisitSecret? || e.WriteRemoval?
    || e.WriteUid? || e.DeleteChild? || e.FinishLoop? || e.WriteEnd?
  }

  predicate IsClusterEvent(e: Event) {
    e.UserDeletesApplication? || e.UserDeletesInventory? || e.UserDeletesChild? || e.ChildFinalized?
    || e.SecretCreated? || e.SecretCollected? || e.CacheSyncs? || e.ApplicationStepFails? || e.InventoryStepFails?
    || e.Crash?
  }

  function Step(w: World, e: Event): World {
    if IsInventoryEvent(e) then InventoryStep(w, e)
    else if IsClusterEvent(e) then ClusterStep(w, e)
    else ApplicationStep(w, e)
  }

  function Run(w: World, events: seq<Event>): World {
    if events == [] then w else Step(Run(w, events[..|events| - 1]), events[|events| - 1])
  }
}
