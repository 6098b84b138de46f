/**
  After the Application is gone its inventory is cleaned up by every schedule that keeps working,
  exactly when every obligation is of a kind the controllers own.
 */
module InventoryProgress {
  import opened Basics
  import opened Counting
  import opened Inventory
  import opened InventoryProtocol
  import opened InventorySafety
  import opened InventoryTheorems

  /** A run from a given world, first event first. */
  function Steps(w: World, events: seq<Event>): World
    decreases |events|
  {
    if events == [] then w else Steps(Step(w, events[0]), events[1..])
  }

  lemma {:induction false} StepsJoin(w: World, a: seq<Event>, b: seq<Event>)
    ensures Steps(w, a + b) == Steps(Steps(w, a), b)
    decreases |a|
  {
    hide Step;
    if a == [] {
      assert a + b == b;
    } else {
      assert (a + b)[0] == a[0] && (a + b)[1..] == a[1..] + b;
      StepsJoin(Step(w, a[0]), a[1..], b);
    }
  }

  lemma {:induction false} RunContinues(events: seq<Event>, more: seq<Event>)
    ensures Run(Init(), events + more) == Steps(Run(Init(), events), more)
    decreases |more|
  {
    hide Step, Init;
    if more == [] {
      assert events + more == events;
    } else {
      assert events + more == (events + [more[0]]) + more[1..];
      assert (events + [more[0]])[..|events|] == events;
      RunContinues(events + [more[0]], more[1..]);
    }
  }

  predicate IsApplicationEvent(e: Event) {
    !IsInventoryEvent(e) && !IsClusterEvent(e)
  }

  /** Every obligation is of a kind that cleanup knows how to remove. */
  predicate AllOwned(table: map<Key, Binding>) {
    forall k :: k in table && Obligation(table[k]) ==> ChildKind(k.kind)
  }

  /** The Application is gone and what it left can be cleaned up. */
  ghost predicate Doomed(w: World) {
    Invariant(w) && w.app.Gone? && AllOwned(TableOf(w.inv))
  }

  /** Its controller knows, too, and has nothing more to do. */
  predicate Forgotten(w: World) {
    w.appCache.Gone? && w.a.AIdle?
  }

  // ------------------------------------------------------------ the order of the list

  /** Everything listed before this entry that is to be released was visited already. */
  ghost predicate First(snap: Object, visited: set<Key>, k: Key, order: seq<Key>) {
    exists n :: 0 <= n < |order| && order[n] == k
      && forall m :: 0 <= m < n && ToRelease(snap.spec, order[m]) ==> order[m] in visited
  }

  /** A visit follows the list. */
  ghost predicate Turn(w: World, e: Event, order: seq<Key>) {
    e.VisitChild? && w.i.ILoop? ==> First(w.i.snap, w.i.visited, e.key, order)
  }

  predicate Listed(table: map<Key, Binding>, order: seq<Key>) {
    forall k :: k in table ==> k in order
  }

  /** The next entry of the list to visit. */
  lemma NextInOrder(snap: Object, visited: set<Key>, order: seq<Key>, some: Key) returns (k: Key)
    requires some in order && ToRelease(snap.spec, some) && some !in visited
    ensures ToRelease(snap.spec, k) && k !in visited && First(snap, visited, k, order)
  {
    var n := 0;
    while !ToRelease(snap.spec, order[n]) || order[n] in visited
      invariant 0 <= n < |order| && some in order[n..]
      invariant forall m :: 0 <= m < n && ToRelease(snap.spec, order[m]) ==> order[m] in visited
      decreases |order| - n
    {
      assert order[n] != some && order[n..] == [order[n]] + order[n + 1..];
      n := n + 1;
    }
    k := order[n];
  }

  // ------------------------------------------------------------ what is left to do

  function Flag(b: bool): nat { if b then 1 else 0 }

  predicate Undeleted(c: Child) { !c.deleting }

  /** The writes the inventory still needs: its release, one for each obligation, its deletion and its end. */
  ghost function Writes(inv: Option<Object>): nat {
    if inv.None? then 0
    else 1 + Flag(!inv.value.spec.releasing) + Flag(!inv.value.deleting) + Count(inv.value.spec.resources, Obligation)
  }

  /** With the deletions, disappearances and collections that are still to come. */
  ghost function Chores(w: World): nat {
    Writes(w.inv) + Count(w.children, Undeleted) + |w.children| + |w.secrets|
  }

  /** The cluster has something to remove. */
  predicate Owed(w: World) {
    || (exists k :: k in w.children && w.children[k].deleting)
    || (exists k :: k in w.secrets && k !in w.children)
  }

  predicate Deletable(w: World, snap: Object, k: Key) {
    k in snap.spec.resources && k in w.children && !w.children[k].deleting
    && w.children[k].uid == snap.spec.resources[k].uid
  }

  /** How many calls the controller is away from the next chore, when nothing is owed to it. */
  function Distance(w: World): nat {
    match w.i
    case IIdle => 5
    case IReadApp(snap) => if w.inv == Some(snap) then 4 else 10
    case IWriteRelease(snap) => if w.inv == Some(snap) && !snap.spec.releasing then 1 else 7
    case ILoop(snap, absent, visited) =>
      if w.inv == Some(snap) && absent && snap.spec.releasing && visited == {} then 3 else 9
    case ISecret(snap, _, _, _) => if w.inv == Some(snap) then 2 else 8
    case IWriteRemoval(snap, _) => if w.inv == Some(snap) then 1 else 7
    case IWriteUid(_, _, _) => 7
    case IDeleteChild(snap, _, _, k) => if Deletable(w, snap, k) then 1 else 10
    case IWriteEnd(snap) => if w.inv == Some(snap) then 1 else 7
  }

  ghost function Left(w: World): nat {
    if w.inv.None? then 0 else 11 * Chores(w) + if Owed(w) then 10 else Distance(w)
  }

  function Actual<V>(m: map<Key, V>, k: Key): Option<V> {
    if k in m then Some(m[k]) else None
  }

  /** A read that returns what is there. */
  predicate Current(w: World, e: Event) {
    && (e.VisitChild? ==> e.found == Actual(w.children, e.key))
    && (e.VisitSecret? && w.i.ISecret? ==> e.owner == Actual(w.secrets, w.i.key))
  }

  /**
    A removal by the cluster, or a call of the inventory controller that reads what is there, that does
    something; while the cluster owes a removal the controller may poll, and its calls do not count.
   */
  predicate Works(w: World, e: Event) {
    && (e.ChildFinalized? || e.SecretCollected? || (IsInventoryEvent(e) && Current(w, e) && !Owed(w)))
    && Step(w, e) != w
  }

  /** A crash, a failed call, a stale read, or somebody else's write. */
  predicate Disturbs(w: World, e: Event) {
    || e.Crash? || e.InventoryStepFails? || e.UserDeletesInventory? || e.SecretCreated?
    || (IsInventoryEvent(e) && !Current(w, e))
  }

  /** The recorded UID of a released entry is that of its child, so its verification succeeds. */
  lemma Verifies(w: World, k: Key)
    requires Invariant(w) && w.inv.Some? && ToRelease(w.inv.value.spec, k) && k in w.children
    ensures var e, c := w.inv.value.spec.resources[k], w.children[k]; Verified(e, c) && e.uid == c.uid != NO_UID
  {
    hide AppView, InvView, Phases, Stored, AllReleased;
  }

  lemma {:induction false} ReleaseKeepsDuties(spec: Spec)
    ensures Count(ReleaseAll(spec).resources, Obligation) == Count(spec.resources, Obligation)
    ensures AllOwned(spec.resources) ==> AllOwned(ReleaseAll(spec).resources)
  {
    assert Matching(ReleaseAll(spec).resources, Obligation) == Matching(spec.resources, Obligation);
  }

  /** In a releasing inventory every obligation is marked for release. */
  lemma ObligationsAreMarked(w: World, k: Key)
    requires Invariant(w) && w.inv.Some? && w.inv.value.spec.releasing && k in w.inv.value.spec.resources
    ensures Obligation(w.inv.value.spec.resources[k]) <==> ToRelease(w.inv.value.spec, k)
  {
    hide AppView, InvView, Phases, Guarded, Fenced;
    assert Settled(w.inv.value.spec.resources[k]);
  }

  lemma DistanceIsPositive(w: World)
    ensures 1 <= Distance(w) <= 10
  {
  }

  // ------------------------------------------------------------ calls that only move the controller

  predicate IsSilent(e: Event) {
    e.StartRelease? || e.ReadApplication? || e.VisitChild? || e.VisitSecret? || e.FinishLoop?
  }

  lemma SilentStep(w: World, e: Event)
    requires IsSilent(e)
    ensures Step(w, e) == w.(i := Step(w, e).i)
  {
    hide ApplicationStep, ClusterStep;
  }

  /** A released entry of the stored inventory is an obligation of an owned kind. */
  lemma ReleasedIsOwned(w: World, k: Key)
    requires AllOwned(TableOf(w.inv)) && w.inv.Some? && ToRelease(w.inv.value.spec, k)
    ensures ChildKind(k.kind)
  {
  }

  predicate Visits(w: World, k: Key) {
    w.i.ILoop? && ToRelease(w.i.snap.spec, k) && k !in w.i.visited
  }

  lemma VisitIs(w: World, k: Key, found: Option<Child>)
    ensures Step(w, VisitChild(k, found)) ==
      if Visits(w, k) && MayObserve(w, k, found)
      then VisitChildStep(w, w.i.snap, w.i.absent, w.i.visited, k, found) else w
  {
    hide VisitChildStep, MayObserve, ApplicationStep, ClusterStep;
  }

  /** A child that is not there, or is verified and not being deleted, leads on; anything else starts over. */
  lemma VisitLeads(w: World, k: Key)
    requires Visits(w, k) && !Owed(w)
    ensures var i := w.i; var e := i.snap.spec.resources[k];
      VisitChildStep(w, i.snap, i.absent, i.visited, k, Actual(w.children, k)).i ==
        if !ChildKind(k.kind) then IIdle
        else if k !in w.children then
          if k.kind.PostgresCredential? then ISecret(i.snap, i.absent, i.visited, k) else IWriteRemoval(i.snap, k)
        else if !Verified(e, w.children[k]) then IIdle
        else if e.uid == NO_UID then IWriteUid(i.snap, k, w.children[k].uid)
        else IDeleteChild(i.snap, i.absent, i.visited, k)
    ensures k in w.children ==> !w.children[k].deleting
  {
  }

  lemma VisitComesCloser(w: World, k: Key)
    requires Doomed(w) && w.inv.Some? && !Owed(w)
    requires var e := VisitChild(k, Actual(w.children, k)); Step(w, e) != w
    ensures Distance(Step(w, VisitChild(k, Actual(w.children, k)))) < Distance(w)
  {
    hide Invariant, AllOwned, Step, VisitChildStep, Owed, MayObserve;
    VisitIs(w, k, Actual(w.children, k));
    VisitLeads(w, k);
    SilentStep(w, VisitChild(k, Actual(w.children, k)));
    if w.inv == Some(w.i.snap) {
      ReleasedIsOwned(w, k);
      if k in w.children { Verifies(w, k); }
    }
  }

  /** A Secret is looked for only after its child is gone. */
  lemma SecretIsOrphan(w: World)
    requires Invariant(w) && w.i.ISecret?
    ensures w.i.key !in w.children && w.i.key in w.i.snap.spec.resources
  {
    hide AppView, Phases, Stored, Guarded, Fenced, AllReleased, Behind;
  }

  lemma SecretIs(w: World, owner: Option<Uid>)
    ensures Step(w, VisitSecret(owner)) ==
      if w.i.ISecret? && w.i.key in w.i.snap.spec.resources
      then VisitSecretStep(w, w.i.snap, w.i.absent, w.i.visited, w.i.key, owner) else w
  {
    hide VisitSecretStep, ApplicationStep, ClusterStep;
  }

  lemma SecretComesCloser(w: World, owner: Option<Uid>)
    requires Doomed(w) && w.inv.Some? && !Owed(w) && Current(w, VisitSecret(owner)) && Step(w, VisitSecret(owner)) != w
    ensures Distance(Step(w, VisitSecret(owner))) < Distance(w)
  {
    hide Step, Invariant, AllOwned;
    SecretIs(w, owner);
    SecretIsOrphan(w);
  }

  lemma FinishIs(w: World)
    ensures Step(w, FinishLoop) == if w.i.ILoop? then FinishLoopStep(w, w.i.snap, w.i.absent, w.i.visited) else w
  {
    hide FinishLoopStep, ApplicationStep, ClusterStep;
  }

  /** With no entry to release there is no obligation. */
  lemma NoneToRelease(w: World)
    requires Invariant(w) && w.inv.Some? && w.inv.value.spec.releasing
    requires forall k :: !ToRelease(w.inv.value.spec, k)
    ensures !HasObligations(w.inv.value.spec)
  {
    hide Invariant;
    if k :| k in w.inv.value.spec.resources && Obligation(w.inv.value.spec.resources[k]) {
      ObligationsAreMarked(w, k);
    }
  }

  lemma FinishComesCloser(w: World)
    requires Doomed(w) && w.inv.Some? && Step(w, FinishLoop) != w
    ensures Distance(Step(w, FinishLoop)) < Distance(w)
  {
    hide Step, Invariant, AllOwned, HasObligations;
    FinishIs(w);
    if w.inv == Some(w.i.snap) && w.i.snap.spec.releasing && w.i.visited == {} {
      NoneToRelease(w);
    }
  }

  lemma BeginningComesCloser(w: World, e: Event)
    requires w.app.Gone? && w.inv.Some? && (e.StartRelease? || e.ReadApplication?) && Step(w, e) != w
    ensures Distance(Step(w, e)) < Distance(w)
  {
    hide ApplicationStep, ClusterStep;
  }

  lemma SilentComesCloser(w: World, e: Event)
    requires Doomed(w) && w.inv.Some? && !Owed(w) && IsSilent(e) && Current(w, e) && Step(w, e) != w
    ensures Distance(Step(w, e)) < Distance(w)
  {
    hide Step, Distance, Invariant, AllOwned, Owed;
    match e
    case VisitChild(k, _) => VisitComesCloser(w, k);
    case VisitSecret(owner) => SecretComesCloser(w, owner);
    case FinishLoop => FinishComesCloser(w);
    case _ => BeginningComesCloser(w, e);
  }

  lemma SilentShrinks(w: World, e: Event)
    requires Doomed(w) && w.inv.Some? && IsSilent(e)
    ensures Left(Step(w, e)) + Flag(Works(w, e)) <= Left(w) + 11 * Flag(Disturbs(w, e))
  {
    hide Step, Distance, Invariant, AllOwned, Count;
    SilentStep(w, e);
    DistanceIsPositive(w);
    DistanceIsPositive(Step(w, e));
    assert Owed(Step(w, e)) == Owed(w) && Chores(Step(w, e)) == Chores(w);
    hide Owed, Chores;
    if Works(w, e) {
      SilentComesCloser(w, e);
    }
  }

  // ------------------------------------------------------------ calls that write

  predicate IsWrite(e: Event) {
    e.WriteRelease? || e.WriteRemoval? || e.WriteUid? || e.WriteEnd?
  }

  /** A write with a stale copy fails and starts over. */
  lemma StaleWrite(w: World, e: Event)
    requires IsWrite(e) && !w.i.IIdle? && !Fresh(w, w.i.snap)
    ensures Step(w, e) == w || (Step(w, e) == w.(i := IIdle) && Distance(w) == 7)
  {
    hide Persist, ReleaseAll, ApplicationStep, ClusterStep;
  }

  lemma FreshWrite(w: World, e: Event)
    requires IsWrite(e) && !w.i.IIdle? && w.inv == Some(w.i.snap) && Step(w, e) != w
    ensures var r := Step(w, e); r == w.(i := IIdle, inv := r.inv, clock := r.clock)
  {
    hide Persist, ReleaseAll, ApplicationStep, ClusterStep;
  }

  lemma ReleaseIsChore(w: World)
    requires w.i.IWriteRelease? && w.inv == Some(w.i.snap) && AllOwned(TableOf(w.inv))
    ensures Writes(Step(w, WriteRelease).inv) + Flag(!w.i.snap.spec.releasing) == Writes(w.inv)
    ensures AllOwned(TableOf(Step(w, WriteRelease).inv))
  {
    ReleaseKeepsDuties(w.inv.value.spec);
    hide ReleaseAll, AllOwned, Count, ApplicationStep, ClusterStep;
  }

  lemma RemovalIsChore(w: World)
    requires w.i.IWriteRemoval? && w.inv == Some(w.i.snap) && AllOwned(TableOf(w.inv))
    requires ToRelease(w.i.snap.spec, w.i.key)
    ensures Writes(Step(w, WriteRemoval).inv) < Writes(w.inv) && AllOwned(TableOf(Step(w, WriteRemoval).inv))
  {
    CountDrop(w.inv.value.spec.resources, w.i.key, Obligation);
    hide Count, ApplicationStep, ClusterStep;
  }

  lemma UidIs(w: World)
    requires w.i.IWriteUid? && w.inv == Some(w.i.snap) && w.i.key in w.i.snap.spec.resources
    ensures var p := Persist(w.i.snap.spec, w.i.snap.spec.resources[w.i.key].(uid := w.i.uid));
      Step(w, WriteUid) == if p.Ok? then Store(w, p.value, w.inv.value.deleting).(i := IIdle) else w.(i := IIdle)
  {
    hide Persist, ApplicationStep, ClusterStep;
  }

  lemma UidIsNoChore(w: World)
    requires w.i.IWriteUid? && w.inv == Some(w.i.snap) && AllOwned(TableOf(w.inv)) && WellFormed(w.i.snap.spec)
    requires w.i.key in w.i.snap.spec.resources
    ensures Writes(Step(w, WriteUid).inv) == Writes(w.inv) && AllOwned(TableOf(Step(w, WriteUid).inv))
  {
    var spec, k := w.i.snap.spec, w.i.key;
    assert spec.resources[k].key == k;
    hide Persist, Count, WellFormed, Step;
    var given := spec.resources[k].(uid := w.i.uid);
    UidIs(w);
    if Persist(spec, given).Ok? {
      PersistIsPut(spec, given);
      CountReplace(spec.resources, k, Persist(spec, given).value.resources[k], Obligation);
    }
  }

  lemma EndIsChore(w: World)
    requires w.i.IWriteEnd? && w.inv == Some(w.i.snap) && AllOwned(TableOf(w.inv))
    ensures Writes(Step(w, WriteEnd).inv) < Writes(w.inv) && AllOwned(TableOf(Step(w, WriteEnd).inv))
  {
    hide Count, ApplicationStep, ClusterStep;
  }

  /** What the invariant says about a copy about to be written. */
  lemma AboutToWrite(w: World)
    requires Invariant(w) && !w.i.IIdle?
    ensures w.inv.Some? && WellFormed(w.i.snap.spec) && (Fresh(w, w.i.snap) ==> w.inv == Some(w.i.snap))
    ensures w.i.IWriteRemoval? || w.i.IWriteUid? ==> ToRelease(w.i.snap.spec, w.i.key)
  {
    hide AppView, Phases, Stored, Guarded, Fenced, AllReleased, WellFormed, Evolves;
  }

  lemma WriteAt(w: World, e: Event)
    requires IsWrite(e) && Step(w, e) != w
    ensures match e
      case WriteRelease => w.i.IWriteRelease?
      case WriteRemoval => w.i.IWriteRemoval?
      case WriteUid => w.i.IWriteUid?
      case _ => w.i.IWriteEnd?
  {
    hide Persist, ReleaseAll, ApplicationStep, ClusterStep;
  }

  /** A write that gets through is one chore less, or records a UID. */
  lemma WriteIsChore(w: World, e: Event)
    requires Doomed(w) && IsWrite(e) && !w.i.IIdle? && w.inv == Some(w.i.snap) && Step(w, e) != w
    ensures var r := Step(w, e);
      && r == w.(i := IIdle, inv := r.inv, clock := r.clock) && AllOwned(TableOf(r.inv))
      && Writes(r.inv) <= Writes(w.inv) && (Writes(r.inv) == Writes(w.inv) ==> Distance(w) == 7)
  {
    WriteAt(w, e);
    hide Invariant, AllOwned, Writes, Step;
    FreshWrite(w, e);
    AboutToWrite(w);
    match e
    case WriteRelease => ReleaseIsChore(w);
    case WriteRemoval => RemovalIsChore(w);
    case WriteUid => UidIsNoChore(w);
    case WriteEnd => EndIsChore(w);
  }

  lemma OwedAlike(w: World, inv: Option<Object>, clock: nat)
    ensures Owed(w.(i := IIdle, inv := inv, clock := clock)) == Owed(w)
  {
  }

  lemma WriteShrinks(w: World, e: Event)
    requires Doomed(w) && w.inv.Some? && IsWrite(e)
    ensures Left(Step(w, e)) + Flag(Works(w, e)) <= Left(w) && AllOwned(TableOf(Step(w, e).inv))
  {
    hide Step, Invariant, AllOwned, Writes, Count, Owed, WellFormed;
    DistanceIsPositive(w);
    if Step(w, e) != w {
      WriteAt(w, e);
      AboutToWrite(w);
      OwedAlike(w, Step(w, e).inv, Step(w, e).clock);
      if Fresh(w, w.i.snap) {
        WriteIsChore(w, e);
      } else {
        StaleWrite(w, e);
      }
    }
  }

  // ------------------------------------------------------------ deletions

  lemma DeletionMoves(w: World)
    requires Step(w, DeleteChild) != w
    ensures var r := Step(w, DeleteChild); var k := w.i.key;
      && r == w.(i := r.i, children := r.children) && w.i.IDeleteChild? && Distance(r) == 9
      && (Deletable(w, w.i.snap, k) ==> r.children == w.children[k := w.children[k].(deleting := true)])
      && (!Deletable(w, w.i.snap, k) ==> r.children == w.children)
  {
    hide ApplicationStep, ClusterStep;
    var k := w.i.key;
    if k in w.children && w.children[k].deleting {
      assert w.children[k := w.children[k].(deleting := true)] == w.children;
    }
  }

  lemma MarkIsChore(children: map<Key, Child>, k: Key)
    requires k in children && !children[k].deleting
    ensures var r := children[k := children[k].(deleting := true)];
      Count(r, Undeleted) + 1 == Count(children, Undeleted) && |r| == |children|
  {
    var c := children[k].(deleting := true);
    CountReplace(children, k, c, Undeleted);
    assert children[k := c].Keys == children.Keys;
    assert |children[k := c]| == |children[k := c].Keys| && |children| == |children.Keys|;
    hide Count;
  }

  /** Marking a child for deletion leaves it to the cluster. */
  lemma MarkIsOwed(w: World, k: Key)
    requires k in w.children
    ensures Owed(w.(children := w.children[k := w.children[k].(deleting := true)]))
  {
    var r := w.(children := w.children[k := w.children[k].(deleting := true)]);
    assert k in r.children && r.children[k].deleting;
  }

  lemma DeletionShrinks(w: World)
    requires w.inv.Some?
    ensures Left(Step(w, DeleteChild)) + Flag(Works(w, DeleteChild)) <= Left(w)
  {
    DistanceIsPositive(w);
    if Step(w, DeleteChild) != w {
      DeletionMoves(w);
      var r, k := Step(w, DeleteChild), w.i.key;
      if Deletable(w, w.i.snap, k) {
        MarkIsChore(w.children, k);
        MarkIsOwed(w, k);
      }
      assert Owed(r) == Owed(w.(children := r.children));
      hide Step, Count, Writes;
    }
  }

  // ------------------------------------------------------------ the cluster

  lemma Removed<V>(m: map<Key, V>, k: Key)
    requires k in m
    ensures |m - {k}| + 1 == |m|
  {
    assert (m - {k}).Keys == m.Keys - {k};
    assert |m - {k}| == |(m - {k}).Keys| && |m| == |m.Keys|;
  }

  lemma FinalizationShrinks(w: World, k: Key)
    requires w.inv.Some?
    ensures Left(Step(w, ChildFinalized(k))) + Flag(Works(w, ChildFinalized(k))) <= Left(w)
  {
    hide ApplicationStep, InventoryStep;
    if k in w.children && w.children[k].deleting {
      CountDrop(w.children, k, Undeleted);
      Removed(w.children, k);
      DistanceIsPositive(Step(w, ChildFinalized(k)));
      hide Count, Distance, Writes;
    }
  }

  lemma CollectionIs(w: World, k: Key)
    ensures Step(w, SecretCollected(k)) == w.(secrets := w.secrets - {k})
  {
    hide ApplicationStep, InventoryStep;
  }

  lemma CollectionShrinks(w: World, k: Key)
    requires w.inv.Some?
    ensures Left(Step(w, SecretCollected(k))) + Flag(Works(w, SecretCollected(k))) <= Left(w)
  {
    hide Step, Count, Writes, Distance;
    CollectionIs(w, k);
    if k in w.secrets {
      Removed(w.secrets, k);
      DistanceIsPositive(w);
      DistanceIsPositive(Step(w, SecretCollected(k)));
    } else {
      assert w.secrets - {k} == w.secrets;
    }
  }

  lemma UserDeletionShrinks(w: World, k: Key)
    requires w.inv.Some?
    ensures Left(Step(w, UserDeletesChild(k))) <= Left(w)
  {
    hide ApplicationStep, InventoryStep;
    if k in w.children {
      DistanceIsPositive(w);
      if w.children[k].deleting {
        assert w.children[k := w.children[k].(deleting := true)] == w.children;
      } else {
        MarkIsChore(w.children, k);
        MarkIsOwed(w, k);
      }
      hide Count, Distance, Writes;
    }
  }

  lemma SecretAppears(w: World, k: Key)
    ensures var r := Step(w, SecretCreated(k));
      r == w || (k in w.children && k !in w.secrets && r == w.(secrets := w.secrets[k := w.children[k].uid]))
  {
    hide ApplicationStep, InventoryStep;
  }

  lemma SecretCosts(w: World, k: Key)
    requires w.inv.Some?
    ensures Left(Step(w, SecretCreated(k))) <= Left(w) + 11
  {
    hide Step, Count, Writes;
    SecretAppears(w, k);
    var r := Step(w, SecretCreated(k));
    if r != w {
      assert r.secrets - {k} == w.secrets;
      Removed(r.secrets, k);
      assert Owed(r) ==> Owed(w);
      DistanceIsPositive(w);
      assert Distance(r) == Distance(w);
    }
  }

  lemma DeletingCosts(w: World)
    requires w.inv.Some?
    ensures Left(Step(w, UserDeletesInventory)) <= Left(w) + 11
  {
    hide ApplicationStep, InventoryStep;
    DistanceIsPositive(w);
    DistanceIsPositive(Step(w, UserDeletesInventory));
    hide Count, Distance;
  }

  lemma RestartCosts(w: World, e: Event)
    requires w.inv.Some? && (e.Crash? || e.InventoryStepFails?)
    ensures Left(Step(w, e)) <= Left(w) + 11
  {
    hide ApplicationStep, InventoryStep;
    DistanceIsPositive(w);
    hide Count, Writes;
  }

  /** Nothing depends on the Application controller. */
  lemma Elsewhere(w: World, cached: AppPhase, a: AppPc)
    ensures Left(w.(appCache := cached, a := a)) == Left(w)
  {
    var r := w.(appCache := cached, a := a);
    assert Owed(r) == Owed(w) && Distance(r) == Distance(w);
  }

  lemma ClusterShrinks(w: World, e: Event)
    requires w.inv.Some? && w.app.Gone? && IsClusterEvent(e)
    ensures Left(Step(w, e)) + Flag(Works(w, e)) <= Left(w) + 11 * Flag(Disturbs(w, e))
    ensures Step(w, e).app.Gone? && TableOf(Step(w, e).inv) == TableOf(w.inv)
  {
    hide ApplicationStep, InventoryStep;
    hide Left;
    match e
    case ChildFinalized(k) => FinalizationShrinks(w, k);
    case SecretCollected(k) => CollectionShrinks(w, k);
    case UserDeletesChild(k) => UserDeletionShrinks(w, k);
    case SecretCreated(k) => SecretCosts(w, k);
    case UserDeletesInventory => DeletingCosts(w);
    case UserDeletesApplication =>
    case CacheSyncs => Elsewhere(w, w.app, w.a);
    case ApplicationStepFails => Elsewhere(w, w.appCache, AIdle);
    case _ => RestartCosts(w, e);
  }

  // ------------------------------------------------------------ every step and every run

  lemma ForgottenDoesNothing(w: World, e: Event)
    requires w.app.Gone? && Forgotten(w) && IsApplicationEvent(e)
    ensures Step(w, e) == w
  {
    hide InventoryStep, ClusterStep, ReadInventoryStep, NewInventoryStep, PlanStep, UpdateInventoryStep, LookupStep;
    hide ReadForPersistStep, WritePersistStep, ObserveChildStep, CreateChildStep, Lists;
  }

  /** The inventory controller and the cluster leave the Application and its controller alone. */
  lemma InventoryElsewhere(w: World, e: Event)
    requires IsInventoryEvent(e)
    ensures var r := Step(w, e); r.a == w.a && r.appCache == w.appCache && r.app == w.app
  {
    hide ApplicationStep, ClusterStep, Persist, ReleaseAll;
    if IsSilent(e) {
      SilentStep(w, e);
    }
  }

  lemma ClusterElsewhere(w: World, e: Event)
    requires IsClusterEvent(e) && w.app.Gone?
    ensures Step(w, e).app.Gone? && (Forgotten(w) ==> Forgotten(Step(w, e)))
  {
    hide ApplicationStep, InventoryStep;
  }

  /** The controller of an Application that is gone and forgotten does nothing. */
  lemma ForgottenStays(w: World, e: Event)
    requires w.app.Gone? && Forgotten(w)
    ensures Forgotten(Step(w, e)) && (IsApplicationEvent(e) ==> Step(w, e) == w)
  {
    hide Step;
    if IsInventoryEvent(e) {
      InventoryElsewhere(w, e);
    } else if IsClusterEvent(e) {
      ClusterElsewhere(w, e);
    } else {
      ForgottenDoesNothing(w, e);
    }
  }

  lemma InventoryShrinks(w: World, e: Event)
    requires Doomed(w) && w.inv.Some? && IsInventoryEvent(e)
    ensures Left(Step(w, e)) + Flag(Works(w, e)) <= Left(w) + 11 * Flag(Disturbs(w, e))
    ensures Step(w, e).app.Gone? && AllOwned(TableOf(Step(w, e).inv))
  {
    hide Step, Invariant, AllOwned, Left;
    InventoryElsewhere(w, e);
    if IsSilent(e) {
      SilentShrinks(w, e);
      SilentStep(w, e);
    } else if IsWrite(e) {
      WriteShrinks(w, e);
    } else {
      DeletionShrinks(w);
      if Step(w, e) != w { DeletionMoves(w); }
    }
  }

  lemma NothingLeft(w: World)
    requires Invariant(w) && w.inv.None?
    ensures w.children == map[] && w.secrets == map[]
  {
    hide AppView, InvView, Phases, Fenced, AllReleased, Stored;
    assert w.children.Keys == {} && w.secrets.Keys == {};
  }

  lemma IdleWithout(w: World)
    requires Invariant(w) && w.inv.None?
    ensures w.i.IIdle?
  {
    hide AppView, Phases, Guarded, Fenced, AllReleased, Stored;
  }

  lemma IdleCalls(w: World, e: Event)
    requires w.inv.None? && w.i.IIdle? && IsInventoryEvent(e)
    ensures Step(w, e) == w
  {
    hide ApplicationStep, ClusterStep, VisitChildStep, VisitSecretStep, Persist, ReleaseAll;
  }

  lemma NothingToRemove(w: World, e: Event)
    requires w.inv.None? && w.children == map[] && w.secrets == map[] && IsClusterEvent(e)
    ensures Step(w, e).inv.None? && (e.ChildFinalized? || e.SecretCollected? ==> Step(w, e) == w)
  {
    hide ApplicationStep, InventoryStep;
    if e.SecretCollected? {
      assert w.secrets - {e.orphan} == w.secrets;
    }
  }

  /** Once the inventory is gone nothing is left, and only the Application controller could bring one back. */
  lemma GoneStays(w: World, e: Event)
    requires Invariant(w) && w.inv.None? && !IsApplicationEvent(e)
    ensures Step(w, e).inv.None? && !Works(w, e)
  {
    hide Invariant, Step;
    NothingLeft(w);
    IdleWithout(w);
    if IsInventoryEvent(e) {
      IdleCalls(w, e);
    } else {
      NothingToRemove(w, e);
    }
  }

  lemma GoneIsNothing(w: World)
    requires w.inv.None?
    ensures Left(w) == 0 && AllOwned(TableOf(w.inv))
  {
  }

  /** Work shortens what is left, a disturbance adds a bounded amount, nothing else adds anything. */
  lemma StepShrinks(w: World, e: Event)
    requires Doomed(w) && (IsApplicationEvent(e) ==> Forgotten(w))
    ensures Doomed(Step(w, e)) && (Forgotten(w) ==> Forgotten(Step(w, e)))
    ensures Left(Step(w, e)) + Flag(Works(w, e)) <= Left(w) + 11 * Flag(Disturbs(w, e))
  {
    StepKeeps(w, e);
    if Forgotten(w) { ForgottenStays(w, e); }
    hide Step, Invariant, AllOwned, Left, Forgotten, Disturbs;
    if IsApplicationEvent(e) {
    } else if w.inv.None? {
      GoneStays(w, e);
      GoneIsNothing(Step(w, e));
      GoneIsNothing(w);
      if IsInventoryEvent(e) { InventoryElsewhere(w, e); } else { ClusterElsewhere(w, e); }
    } else if IsInventoryEvent(e) {
      InventoryShrinks(w, e);
    } else {
      ClusterShrinks(w, e);
    }
  }

  function Worked(w: World, events: seq<Event>): nat
    decreases |events|
  {
    if events == [] then 0 else Flag(Works(w, events[0])) + Worked(Step(w, events[0]), events[1..])
  }

  function Disturbed(w: World, events: seq<Event>): nat
    decreases |events|
  {
    if events == [] then 0 else Flag(Disturbs(w, events[0])) + Disturbed(Step(w, events[0]), events[1..])
  }

  predicate Unattended(events: seq<Event>) {
    forall i :: 0 <= i < |events| ==> !IsApplicationEvent(events[i])
  }

  lemma {:induction false} WorkedOff(w: World, events: seq<Event>)
    requires Doomed(w) && (Forgotten(w) || Unattended(events))
    ensures Doomed(Steps(w, events))
    ensures Left(Steps(w, events)) + Worked(w, events) <= Left(w) + 11 * Disturbed(w, events)
    decreases |events|
  {
    hide Doomed, Forgotten, Step, Left, Works, Disturbs, IsApplicationEvent;
    if events != [] {
      StepShrinks(w, events[0]);
      WorkedOff(Step(w, events[0]), events[1..]);
    }
  }

  // ------------------------------------------------------------ never stuck

  lemma OwedWorks(w: World) returns (e: Event)
    requires Owed(w)
    ensures Works(w, e) && !e.VisitChild?
  {
    hide ApplicationStep, InventoryStep;
    if k :| k in w.children && w.children[k].deleting {
      e := ChildFinalized(k);
      assert k !in Step(w, e).children;
    } else {
      var k :| k in w.secrets && k !in w.children;
      e := SecretCollected(k);
      assert k !in Step(w, e).secrets;
    }
  }

  lemma VisitWorks(w: World, k: Key)
    requires Invariant(w) && !Owed(w) && Visits(w, k)
    ensures Works(w, VisitChild(k, Actual(w.children, k)))
  {
    assert k in w.children ==> w.children[k].uid != NO_UID by {
      hide AppView, InvView, Phases, Fenced, AllReleased, Stored;
    }
    VisitIs(w, k, Actual(w.children, k));
    VisitLeads(w, k);
    hide Invariant, Step, VisitChildStep, Owed;
    var e := VisitChild(k, Actual(w.children, k));
    assert Step(w, e).i != w.i;
  }

  lemma SecretWorks(w: World)
    requires Invariant(w) && w.i.ISecret? && !Owed(w)
    ensures Works(w, VisitSecret(None))
  {
    hide Step, Invariant;
    SecretIs(w, None);
    SecretIsOrphan(w);
    assert Step(w, VisitSecret(None)).i != w.i;
  }

  /** The call that comes next anywhere else. */
  function NextCall(w: World): Event {
    match w.i
    case IIdle => StartRelease
    case IReadApp(_) => ReadApplication
    case IWriteRelease(_) => WriteRelease
    case IWriteRemoval(_, _) => WriteRemoval
    case IWriteUid(_, _, _) => WriteUid
    case IDeleteChild(_, _, _, _) => DeleteChild
    case IWriteEnd(_) => WriteEnd
    case _ => FinishLoop
  }

  lemma CallMoves(w: World)
    requires w.inv.Some? && !w.i.ISecret?
    requires w.i.ILoop? ==> forall k :: ToRelease(w.i.snap.spec, k) ==> k in w.i.visited
    requires w.i.IWriteUid? || w.i.IDeleteChild? ==> w.i.key in w.i.snap.spec.resources
    ensures Step(w, NextCall(w)) != w && IsInventoryEvent(NextCall(w)) && Current(w, NextCall(w))
  {
    hide Persist, ReleaseAll, ApplicationStep, ClusterStep, VisitChildStep, VisitSecretStep;
    assert Step(w, NextCall(w)).i != w.i;
  }

  lemma NextWorks(w: World)
    requires Invariant(w) && w.inv.Some? && !Owed(w) && !w.i.ISecret?
    requires w.i.ILoop? ==> forall k :: ToRelease(w.i.snap.spec, k) ==> k in w.i.visited
    ensures Works(w, NextCall(w))
  {
    assert w.i.IWriteUid? || w.i.IDeleteChild? ==> w.i.key in w.i.snap.spec.resources by {
      hide AppView, Phases, Stored, Guarded, Fenced, AllReleased, Behind;
    }
    hide Invariant, Owed;
    CallMoves(w);
  }

  ghost predicate ListedIn(w: World, order: seq<Key>) {
    w.i.ILoop? ==> Listed(w.i.snap.spec.resources, order)
  }

  /** While there is an inventory some removal or some call, following the list, can be made. */
  lemma NeverStuck(w: World, order: seq<Key>)
    requires Invariant(w) && w.inv.Some? && ListedIn(w, order)
    ensures exists e :: Works(w, e) && Turn(w, e, order)
  {
    hide Invariant, Works, First, Step;
    if Owed(w) {
      var e := OwedWorks(w);
      assert Turn(w, e, order);
    } else if w.i.ISecret? {
      SecretWorks(w);
      assert Turn(w, VisitSecret(None), order);
    } else if w.i.ILoop? && exists k :: ToRelease(w.i.snap.spec, k) && k !in w.i.visited {
      var some :| ToRelease(w.i.snap.spec, some) && some !in w.i.visited;
      var k := NextInOrder(w.i.snap, w.i.visited, order, some);
      VisitWorks(w, k);
      assert Turn(w, VisitChild(k, Actual(w.children, k)), order);
    } else {
      NextWorks(w);
      assert Turn(w, NextCall(w), order);
    }
  }

  // ------------------------------------------------------------ theorems

  lemma LeftIsBounded(w: World)
    requires Invariant(w)
    ensures Left(w) <= 11 * (3 + 4 * MAX_ENTRIES) + 10
    ensures Left(w) == 0 <==> w.inv.None?
  {
    DistanceIsPositive(w);
    if w.inv.Some? {
      var table := w.inv.value.spec.resources;
      assert w.children.Keys <= table.Keys && w.secrets.Keys <= table.Keys && |table| <= MAX_ENTRIES by {
        hide AppView, InvView, Phases, Fenced, AllReleased;
      }
      hide Invariant, Distance, Owed;
      SubsetSize(w.children.Keys, table.Keys);
      SubsetSize(w.secrets.Keys, table.Keys);
      assert |w.children| == |w.children.Keys| && |w.secrets| == |w.secrets.Keys| && |table| == |table.Keys|;
      CountAtMost(table, Obligation);
      CountAtMost(w.children, Undeleted);
    }
  }

  /**
    Every schedule cleans up. With the Application gone and every obligation of an owned kind, whatever
    happens next: as long as there is an inventory some removal or some call of its controller, following
    the list, can be made; what is left, at most 5675 of them, shrinks with each, grows by at most 11 with
    each disturbance, and is nothing exactly when the inventory is gone, and with it every child and Secret.
   */
  lemma CleanupMustFinish(before: seq<Event>, after: seq<Event>, order: seq<Key>)
    requires var w := Run(Init(), before); w.app.Gone? && AllOwned(TableOf(w.inv))
    requires Forgotten(Run(Init(), before)) || Unattended(after)
    ensures var w, r := Run(Init(), before), Run(Init(), before + after);
      && Left(r) + Worked(w, after) <= Left(w) + 11 * Disturbed(w, after) && Left(w) <= 5675
      && (Left(r) == 0 <==> r.inv.None?)
      && (r.inv.None? ==> r.children == map[] && r.secrets == map[])
      && (r.inv.Some? && ListedIn(r, order) ==> exists e :: Works(r, e) && Turn(r, e, order))
  {
    RunKeeps(before);
    RunKeeps(before + after);
    RunContinues(before, after);
    var w, r := Run(Init(), before), Run(Init(), before + after);
    hide Run, Init, Steps, Step, Invariant, AllOwned, Forgotten, Unattended, Worked, Disturbed, Left, ListedIn, Turn;
    hide Works;
    WorkedOff(w, after);
    LeftIsBounded(w);
    LeftIsBounded(r);
    if r.inv.None? {
      NothingLeft(r);
    } else if ListedIn(r, order) {
      NeverStuck(r, order);
    }
  }

  // ------------------------------------------------------------ obligations of other kinds

  lemma ForeignStays(w: World, e: Event, k: Key)
    requires Invariant(w) && k in TableOf(w.inv) && Obligation(TableOf(w.inv)[k]) && !ChildKind(k.kind)
    ensures k in TableOf(Step(w, e).inv) && Obligation(TableOf(Step(w, e).inv)[k])
  {
    hide Invariant, InventoryStep, ApplicationStep, ClusterStep;
    if Step(w, e).inv.None? {
      LosesInventory(w, e);
    } else if IsInventoryEvent(e) {
      InventoryFences(w, e);
    } else if IsClusterEvent(e) {
      ClusterFences(w, e);
    } else {
      ApplicationFences(w, e);
    }
  }

  /** An obligation of any other kind is never dropped, and the inventory with it never goes, whatever happens. */
  lemma {:induction false} ForeignObligationStays(events: seq<Event>, more: seq<Event>, k: Key)
    requires var t := TableOf(Run(Init(), events).inv); k in t && Obligation(t[k]) && !ChildKind(k.kind)
    ensures var t := TableOf(Run(Init(), events + more).inv); k in t && Obligation(t[k])
    decreases |more|
  {
    hide Step, Init;
    if more == [] {
      assert events + more == events;
    } else {
      var rest := more[..|more| - 1];
      ForeignObligationStays(events, rest, k);
      assert (events + more)[..|events + more| - 1] == events + rest;
      RunKeeps(events + rest);
      hide Invariant;
      ForeignStays(Run(Init(), events + rest), more[|more| - 1], k);
    }
  }

  lemma OneStep(w: World, e: Event)
    ensures Steps(w, [e]) == Step(w, e)
  {
    hide Step;
    assert [e][1..] == [];
  }

  lemma TwoSteps(w: World, d: Event, e: Event)
    ensures Steps(w, [d, e]) == Step(Step(w, d), e)
  {
    hide Step;
    assert [d, e][1..] == [e];
    OneStep(Step(w, d), e);
  }

  lemma ThreeSteps(w: World, d: Event, e: Event, f: Event)
    ensures Steps(w, [d, e, f]) == Step(Step(Step(w, d), e), f)
  {
    hide Step;
    assert [d, e, f][1..] == [e, f];
    TwoSteps(Step(w, d), e, f);
  }

  /** The inventory drafted from a journal of one entry. */
  function Drafted(b: Binding): Spec {
    INIT_SPEC.(resources := map[b.key := Defaulted(b)])
  }

  lemma JournalsOne(b: Binding)
    ensures PersistAll(INIT_SPEC, [b]) == Ok(Drafted(b))
  {
    var next := Persist(INIT_SPEC, b).value;
    assert [b][1..] == [];
    assert PersistAll(next, []) == Ok(next);
  }

  lemma Reads(w: World, b: Binding)
    requires w.a == AEnsure(Upsert) && w.inv.None?
    ensures Step(w, ReadInventory([b])) == w.(a := ANewCredentials(Upsert, Drafted(b)))
  {
    JournalsOne(b);
    hide PersistAll, Persist;
  }

  lemma ListsNothing(w: World, draft: Spec)
    requires w.a == ANewCredentials(Upsert, draft) && w.children == map[]
    ensures Step(w, ListCredentials([])) == w.(a := ANewMigrations(Upsert, draft, []))
  {
    hide PersistAll;
  }

  lemma Plans(w: World, draft: Spec)
    requires w.a == ANewMigrations(Upsert, draft, []) && w.children == map[]
    ensures Step(w, ListMigrations([], {}, true)) == w.(a := ACreateInventory(Upsert, draft))
  {
    assert PersistAll(draft, []) == Ok(draft);
    hide PersistAll;
    var none: seq<Binding> := [];
    assert none + none == none;
  }

  lemma Creates(w: World, draft: Spec)
    requires w.a == ACreateInventory(Upsert, draft) && w.inv.None?
    ensures TableOf(Step(w, CreateInventory).inv) == draft.resources
  {
    hide InventoryStep, ClusterStep;
  }

  /** The reads and writes that create an inventory from a journal of one entry. */
  lemma CreatesInventory(w: World, b: Binding)
    requires w.a == AEnsure(Upsert) && w.inv.None? && w.children == map[]
    ensures var es := [ReadInventory([b]), ListCredentials([]), ListMigrations([], {}, true)];
      TableOf(Steps(w, es + [CreateInventory]).inv) == Drafted(b).resources
  {
    var es := [ReadInventory([b]), ListCredentials([]), ListMigrations([], {}, true)];
    var planned := w.(a := ACreateInventory(Upsert, Drafted(b)));
    hide Step, Steps, Drafted;
    Creates(planned, Drafted(b));
    Reads(w, b);
    ListsNothing(w.(a := ANewCredentials(Upsert, Drafted(b))), Drafted(b));
    Plans(w.(a := ANewMigrations(Upsert, Drafted(b), [])), Drafted(b));
    ThreeSteps(w, ReadInventory([b]), ListCredentials([]), ListMigrations([], {}, true));
    StepsJoin(w, es, [CreateInventory]);
    OneStep(planned, CreateInventory);
  }

  lemma BeginsUpsert()
    ensures Steps(Init(), [AddFinalizer, CacheSyncs, BeginUpsert]) ==
      World(Protected, Protected, None, map[], map[], 0, AEnsure(Upsert), IIdle)
  {
    ThreeSteps(Init(), AddFinalizer, CacheSyncs, BeginUpsert);
    hide Steps;
  }

  /**
    Such an obligation can arise: the journal an inventory is first created from may name an entry of
    any kind that is not retained, and the entry is then in the table.
   */
  lemma ForeignObligationCanArise(b: Binding) returns (events: seq<Event>)
    requires Obligation(b) && !ChildKind(b.key.kind)
    ensures var t := TableOf(Run(Init(), events).inv); b.key in t && Obligation(t[b.key]) && !AllOwned(t)
  {
    var begin := [AddFinalizer, CacheSyncs, BeginUpsert];
    BeginsUpsert();
    hide Step, Steps, Init;
    CreatesInventory(Steps(Init(), begin), b);
    var more := [ReadInventory([b]), ListCredentials([]), ListMigrations([], {}, true)] + [CreateInventory];
    StepsJoin(Init(), begin, more);
    events := begin + more;
    RunContinues([], events);
    assert [] + events == events;
  }
}
