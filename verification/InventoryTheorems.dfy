/** The promises of the inventory, for every run of both controllers from an empty cluster. */
module InventoryTheorems {
  import opened Basics
  import opened Inventory
  import opened InventoryProtocol
  import opened InventorySafety

  /**
    No leak.  Whatever crashes, fails or is read stale, every labelled child has an entry
    under its key whose UID is empty or its own, every Secret left by a credential has an
    entry, and without an inventory there is neither.
   */
  lemma NoLeak(events: seq<Event>)
    ensures var w := Run(Init(), events);
      && (forall k :: k in w.children ==>
            && k in TableOf(w.inv) && Obligation(TableOf(w.inv)[k])
            && (TableOf(w.inv)[k].uid == NO_UID || TableOf(w.inv)[k].uid == w.children[k].uid)
            && TableOf(w.inv)[k].logicalName == w.children[k].logicalName
            && TableOf(w.inv)[k].fields == w.children[k].fields)
      && (forall k :: k in w.secrets ==> k in TableOf(w.inv) && Obligation(TableOf(w.inv)[k]))
      && (w.inv.None? ==> w.children == map[] && w.secrets == map[])
  {
    RunKeeps(events);
    hide Run, AppView, InvView, Phases, Stored;
    var w := Run(Init(), events);
    if w.inv.None? {
      assert w.children.Keys == {} && w.secrets.Keys == {};
    }
  }

  /** The Application controller writes the inventory in two places. */
  lemma ApplicationWrites(w: World, e: Event)
    requires w.inv.Some? && ApplicationStep(w, e).inv != w.inv
    ensures e == UpdateInventory || e == WritePersist
  {
    hide Lists, MayObserve, PersistAll, Persist, Desired;
  }

  lemma InventoryWrites(w: World, e: Event)
    requires w.inv.Some? && InventoryStep(w, e).inv != w.inv
    ensures e == WriteRelease || e == WriteRemoval || e == WriteUid || e == WriteEnd
  {
    hide MayObserve, Persist, HasObligations, Verified;
  }

  /** Only the last write of the inventory controller lets the inventory go. */
  lemma OnlyTheEndLoses(w: World, e: Event)
    requires w.inv.Some? && Step(w, e).inv.None?
    ensures w.i.IWriteEnd? && Fresh(w, w.i.snap) && Step(w, e).children == w.children && Step(w, e).secrets == w.secrets
  {
    hide HasObligations, Persist, Lists, PersistAll, Desired, MayObserve;
    if IsInventoryEvent(e) {
      InventoryWrites(w, e);
    } else if !IsClusterEvent(e) {
      ApplicationWrites(w, e);
    }
  }

  /** At a write that passes its version check the copy is the stored inventory. */
  lemma Remembered(w: World)
    requires Invariant(w) && !w.i.IIdle? && Fresh(w, w.i.snap)
    ensures w.inv.value == w.i.snap && WellFormed(w.i.snap.spec)
  {
    hide AppView, Phases, Guarded, Fenced, AllReleased, Evolves, WellFormed;
  }

  lemma EndView(w: World)
    requires Invariant(w) && w.i.IWriteEnd? && Fresh(w, w.i.snap)
    ensures w.app.Gone? && !HasObligations(w.inv.value.spec)
  {
    Remembered(w);
    hide Guarded, Fenced, AppView, Phases, Stored, Behind, AllReleased, HasObligations;
  }

  lemma LosesInventory(w: World, e: Event)
    requires Invariant(w) && w.inv.Some? && Step(w, e).inv.None?
    ensures w.app.Gone? && Step(w, e).children == w.children && Step(w, e).secrets == w.secrets
    ensures !HasObligations(w.inv.value.spec)
  {
    hide Invariant, Step, HasObligations;
    OnlyTheEndLoses(w, e);
    EndView(w);
  }

  /** The inventory finalizer goes only when the Application is gone and nothing is left to clean up. */
  lemma InventoryOutlivesChildren(events: seq<Event>, e: Event)
    requires Run(Init(), events).inv.Some? && Step(Run(Init(), events), e).inv.None?
    ensures var w := Run(Init(), events);
      w.app.Gone? && w.children == map[] && w.secrets == map[] && !HasObligations(w.inv.value.spec)
  {
    RunKeeps(events);
    var w := Run(Init(), events);
    StepKeeps(w, e);
    hide Run, AppView, Phases, Stored, ApplicationStep;
    LosesInventory(w, e);
    assert w.children.Keys == {} && w.secrets.Keys == {};
  }

  /**
    Under the Wait policy the Application finalizer goes only when no child and no Secret is
    left; under any policy what is left belongs to an inventory that is being released.
   */
  lemma WaitLeavesNothing(events: seq<Event>)
    requires Run(Init(), events).a.AFinalize?
    ensures var w := Run(Init(), events);
      && (w.a.policy.Wait? ==> w.children == map[] && w.secrets == map[])
      && (forall k :: k in w.children ==> w.inv.Some? && w.inv.value.spec.releasing && ToRelease(w.inv.value.spec, k))
  {
    RunKeeps(events);
    hide Run, InvView, Phases, Fenced;
    var w := Run(Init(), events);
    if w.a.policy.Wait? {
      assert w.children.Keys == {} && w.secrets.Keys == {};
    }
    HandoffReleases(w.inv, w.clock, w.children, w.secrets);
  }

  lemma InventoryStepSparesApp(w: World, e: Event)
    ensures InventoryStep(w, e).app == w.app
  {
    hide MayObserve, Persist, ReleaseAll, HasObligations;
  }

  lemma ApplicationStepSparesApp(w: World, e: Event)
    ensures e != AddFinalizer && e != RemoveFinalizer ==> ApplicationStep(w, e).app == w.app
  {
    hide Lists, MayObserve, PersistAll, Persist, Desired, Pending, Creatable, Verified, Matches;
  }

  /** A protected Application disappears only by its controller removing the finalizer. */
  lemma FinalizerProtects(w: World, e: Event)
    requires (w.app.Protected? || w.app.Deleting?) && Step(w, e).app.Gone?
    ensures w.a.AFinalize? && e == RemoveFinalizer
  {
    if IsInventoryEvent(e) {
      InventoryStepSparesApp(w, e);
    } else if !IsClusterEvent(e) {
      ApplicationStepSparesApp(w, e);
    }
  }

  /** What one step may do to the stored entries. */
  ghost predicate FencesHold(w: World, before: Spec, after: Spec) {
    && WellFormed(after)
    && (before.releasing ==> after.releasing)
    && (forall k :: k in before.resources && k in after.resources ==>
          EntryEvolves(before.resources[k], after.resources[k]))
    && (forall k :: k in before.resources && k !in after.resources ==>
          ToRelease(before, k) && ChildKind(k.kind) && k !in w.children && k !in w.secrets)
  }

  lemma EvolvedFences(w: World, before: Spec, after: Spec)
    requires WellFormed(after) && Evolves(before, after)
    ensures FencesHold(w, before, after)
  {
  }

  lemma SameFences(w: World)
    requires Invariant(w) && w.inv.Some?
    ensures FencesHold(w, w.inv.value.spec, w.inv.value.spec)
  {
    hide AppView, InvView, Phases, Guarded, Fenced;
  }

  lemma ClusterFences(w: World, e: Event)
    requires Invariant(w) && w.inv.Some? && ClusterStep(w, e).inv.Some?
    ensures FencesHold(w, w.inv.value.spec, ClusterStep(w, e).inv.value.spec)
  {
    SameFences(w);
    hide Invariant, FencesHold;
  }

  lemma UpdateFences(w: World)
    requires Invariant(w) && w.a.AUpdateInventory? && Fresh(w, w.a.snap)
    ensures FencesHold(w, w.inv.value.spec, w.a.next)
  {
    hide FencesHold, InvView, Phases, Guarded, Fenced, WellFormed, Evolves, Covers, Recorded, AllReleased, Pending;
    EvolvedFences(w, w.inv.value.spec, w.a.next);
  }

  lemma PersistFences(w: World)
    requires Invariant(w) && w.a.APersistUpdate? && Fresh(w, w.a.snap)
    ensures FencesHold(w, w.inv.value.spec, w.a.next)
  {
    hide FencesHold, InvView, Phases, Guarded, Fenced, WellFormed, Evolves, Persist, PersistOk, Covers, AllReleased;
    PersistEvolves(w.inv.value.spec, w.a.entry);
    EvolvedFences(w, w.inv.value.spec, w.a.next);
  }

  lemma ApplicationFences(w: World, e: Event)
    requires Invariant(w) && w.inv.Some? && ApplicationStep(w, e).inv.Some?
    ensures FencesHold(w, w.inv.value.spec, ApplicationStep(w, e).inv.value.spec)
  {
    hide Invariant, FencesHold;
    SameFences(w);
    if ApplicationStep(w, e).inv != w.inv {
      ApplicationWrites(w, e);
      if e == UpdateInventory {
        UpdateFences(w);
      } else {
        PersistFences(w);
      }
    }
  }

  lemma ReleaseFences(w: World)
    requires Invariant(w) && w.inv.Some?
    ensures FencesHold(w, w.inv.value.spec, ReleaseAll(w.inv.value.spec))
  {
    hide AppView, InvView, Phases, Guarded, Fenced, FencesHold, WellFormed, Evolves;
    ReleaseEvolves(w.inv.value.spec);
    EvolvedFences(w, w.inv.value.spec, ReleaseAll(w.inv.value.spec));
  }

  lemma UidFences(w: World)
    requires Invariant(w) && w.i.IWriteUid? && Fresh(w, w.i.snap) && w.i.key in w.inv.value.spec.resources
    requires Persist(w.inv.value.spec, w.inv.value.spec.resources[w.i.key].(uid := w.i.uid)).Ok?
    ensures FencesHold(w, w.inv.value.spec,
      Persist(w.inv.value.spec, w.inv.value.spec.resources[w.i.key].(uid := w.i.uid)).value)
  {
    hide AppView, InvView, Phases, Guarded, Fenced, FencesHold, Persist, WellFormed, Evolves;
    var e := w.inv.value.spec.resources[w.i.key].(uid := w.i.uid);
    PersistEvolves(w.inv.value.spec, e);
    EvolvedFences(w, w.inv.value.spec, Persist(w.inv.value.spec, e).value);
  }

  lemma RemovalFences(w: World)
    requires Invariant(w) && w.i.IWriteRemoval? && Fresh(w, w.i.snap)
    ensures FencesHold(w, w.inv.value.spec, w.inv.value.spec.(resources := w.inv.value.spec.resources - {w.i.key}))
  {
    hide AppView, Phases, Guarded, Fenced, AllReleased, Evolves;
    DropKeepsWellFormed(w.inv.value.spec, w.i.key);
  }

  lemma InventoryFences(w: World, e: Event)
    requires Invariant(w) && w.inv.Some? && InventoryStep(w, e).inv.Some?
    ensures FencesHold(w, w.inv.value.spec, InventoryStep(w, e).inv.value.spec)
  {
    hide Invariant, FencesHold, Persist, ReleaseAll;
    SameFences(w);
    if InventoryStep(w, e).inv != w.inv {
      InventoryWrites(w, e);
      Remembered(w);
      match e
      case WriteRelease => ReleaseFences(w);
      case WriteRemoval => RemovalFences(w);
      case WriteUid => UidFences(w);
      case WriteEnd =>
    }
  }

  /**
    Identity fences: keys stay unique and at most 128, a recorded UID never changes, a
    release is never taken back, releasing means every obligation is released, and an entry
    is dropped only when it is released and its child and Secret are gone.
   */
  lemma FencesAreMonotone(events: seq<Event>, e: Event)
    requires Run(Init(), events).inv.Some? && Step(Run(Init(), events), e).inv.Some?
    ensures var w := Run(Init(), events);
      FencesHold(w, w.inv.value.spec, Step(w, e).inv.value.spec)
  {
    RunKeeps(events);
    hide Run;
    var w := Run(Init(), events);
    if IsInventoryEvent(e) {
      InventoryFences(w, e);
    } else if IsClusterEvent(e) {
      ClusterFences(w, e);
    } else {
      ApplicationFences(w, e);
    }
  }

  /** Steps that only read leave the children as they are. */
  lemma ApplicationReads(w: World, e: Event)
    ensures !e.CreateChild? && !IsClusterEvent(e) && !IsInventoryEvent(e) ==>
      ApplicationStep(w, e).children == w.children
  {
    hide Lists, MayObserve, PersistAll, Persist, Desired;
  }

  lemma InventoryReads(w: World, e: Event)
    ensures !e.DeleteChild? ==> InventoryStep(w, e).children == w.children
  {
    hide MayObserve, Persist, ReleaseAll, ToRelease;
  }

  lemma ReadsChangeNothing(w: World, e: Event)
    ensures !e.CreateChild? && !e.DeleteChild? && !IsClusterEvent(e) ==> Step(w, e).children == w.children
  {
    hide ApplicationStep, InventoryStep, ClusterStep;
    ApplicationReads(w, e);
    InventoryReads(w, e);
  }

  lemma DeletesBy(w: World, e: Event, k: Key)
    requires !IsClusterEvent(e)
    requires k in w.children && !w.children[k].deleting && k in Step(w, e).children && Step(w, e).children[k].deleting
    ensures w.i.IDeleteChild? && w.i.key == k && k in w.i.snap.spec.resources
      && w.i.snap.spec.resources[k].uid == w.children[k].uid
  {
    hide Lists, MayObserve, PersistAll, Persist, Desired;
    hide VisitChildStep, ReadInventoryStep, NewInventoryStep, PlanStep, LookupStep, ReadForPersistStep;
    hide ObserveChildStep;
    ReadsChangeNothing(w, e);
  }

  /** A controller deletes a child only under the UID the inventory records, on a released entry. */
  lemma DeletionIsFenced(events: seq<Event>, e: Event, k: Key)
    requires !IsClusterEvent(e)
    requires var w := Run(Init(), events);
      k in w.children && !w.children[k].deleting && k in Step(w, e).children && Step(w, e).children[k].deleting
    ensures var w := Run(Init(), events);
      w.inv.Some? && ToRelease(w.inv.value.spec, k) && w.inv.value.spec.resources[k].uid == w.children[k].uid
      && w.children[k].uid != NO_UID
  {
    RunKeeps(events);
    hide Run;
    var w := Run(Init(), events);
    DeletesBy(w, e, k);
    hide AppView, Phases, Guarded, Fenced, AllReleased, Stored, Step;
    assert EntryEvolves(w.i.snap.spec.resources[k], w.inv.value.spec.resources[k]);
  }

  /** A current read of a child never blocks its cleanup: ownership and UID always verify. */
  lemma CleanupIsNotBlocked(events: seq<Event>, k: Key)
    requires var w := Run(Init(), events);
      w.i.ILoop? && ToRelease(w.i.snap.spec, k) && k in w.children
    ensures var w := Run(Init(), events);
      && Verified(w.i.snap.spec.resources[k], w.children[k])
      && !VisitChildStep(w, w.i.snap, w.i.absent, w.i.visited, k, Some(w.children[k])).i.IIdle?
  {
    RunKeeps(events);
    hide Run, AppView, Phases, AllReleased, Stored;
    var w := Run(Init(), events);
    assert EntryEvolves(w.i.snap.spec.resources[k], w.inv.value.spec.resources[k]);
  }
}
