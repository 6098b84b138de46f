/** The startup fence: publication waits until the leader's inventory has been reconciled. */
module Authority {
  import opened Basics

  type Key = string
  type Uid = string

  datatype App = App(key: Key, uid: Uid, generation: int)

  datatype AppState = AppState(uid: Uid, generation: int)

  datatype Context = NoContext | Live | Done

  /** `log`, `inventory` and `mark` are history: completed reconciles, the last inventory, and when it was recorded. */
  datatype State = State(
    ctx: Context, pending: map<Key, AppState>, observed: Option<map<Key, AppState>>, ready: bool,
    nilWrites: nat, log: seq<App>, inventory: seq<App>, mark: nat)

  datatype Event =
    | Initialize(apps: seq<App>)
    | Refresh(apps: seq<App>)
    | Reconcile(key: Key, uid: Uid, generation: int)
    | Revoke
    | ParentDone

  function New(): State {
    State(NoContext, map[], Some(map[]), false, 0, [], [], 0)
  }

  // ------------------------------------------------------------ specification

  /** Not covered by a completed reconcile of the same identity and generation. */
  predicate Uncovered(observed: map<Key, AppState>, app: App) {
    app.key !in observed || observed[app.key].uid != app.uid || observed[app.key].generation < app.generation
  }

  function PendingOf(observed: map<Key, AppState>, apps: seq<App>): map<Key, AppState> {
    if apps == [] then map[]
    else
      var app := apps[|apps| - 1];
      var before := PendingOf(observed, apps[..|apps| - 1]);
      if Uncovered(observed, app) then before[app.key := AppState(app.uid, app.generation)] else before
  }

  /** Ready when nothing is pending, and then the record of reconciles is let go. */
  function Concluded(s: State): State {
    if s.pending == map[] then s.(ready := true, observed := None) else s.(ready := false)
  }

  function Refreshed(s: State, apps: seq<App>): State {
    Concluded(s.(pending := PendingOf(s.observed.UnwrapOr(map[]), apps), inventory := apps, mark := |s.log|))
  }

  function Initialized(s: State, apps: seq<App>): State {
    Refreshed(s.(ctx := Live, observed := Some(s.observed.UnwrapOr(map[]))), apps)
  }

  function Recorded(s: State, key: Key, uid: Uid, generation: int): State {
    if s.ctx.NoContext? || !s.ready then
      if s.observed.None? then s.(nilWrites := s.nilWrites + 1)
      else s.(observed := Some(s.observed.value[key := AppState(uid, generation)]))
    else s
  }

  predicate Settles(pending: map<Key, AppState>, key: Key, uid: Uid, generation: int) {
    key in pending && (uid == "" || (uid == pending[key].uid && generation >= pending[key].generation))
  }

  function Reconciled(s: State, key: Key, uid: Uid, generation: int): State {
    if s.ctx.Done? then s
    else
      var r := Recorded(s, key, uid, generation).(log := s.log + [App(key, uid, generation)]);
      if s.ctx.NoContext? then r
      else Concluded(if Settles(s.pending, key, uid, generation) then r.(pending := s.pending - {key}) else r)
  }

  function Revoked(s: State): State {
    s.(ready := false, ctx := if s.ctx.NoContext? then NoContext else Done)
  }

  predicate Available(s: State) {
    s.ready && s.ctx.Live?
  }

  function Step(s: State, e: Event): State {
    match e
    case Initialize(apps) => Initialized(s, apps)
    case Refresh(apps) => if s.ctx.NoContext? || s.ready then s else Refreshed(s, apps)
    case Reconcile(key, uid, generation) => Reconciled(s, key, uid, generation)
    case Revoke => Revoked(s)
    case ParentDone => if s.ctx.Live? then s.(ctx := Done) else s
  }

  function Run(s: State, events: seq<Event>): State {
    if events == [] then s else Step(Run(s, events[..|events| - 1]), events[|events| - 1])
  }

  // ------------------------------------------------------------ the object as written

  ghost predicate DistinctKeys(apps: seq<App>) {
    forall i, j :: 0 <= i < j < |apps| ==> apps[i].key != apps[j].key
  }

  ghost predicate ObservedIsLogged(observed: map<Key, AppState>, log: seq<App>) {
    forall key :: key in observed ==> App(key, observed[key].uid, observed[key].generation) in log
  }

  predicate Covers(done: App, app: App) {
    done.key == app.key && done.uid == app.uid && done.generation >= app.generation
  }

  predicate ReportsAbsent(done: App, app: App) {
    done.key == app.key && done.uid == ""
  }

  /** Reconciled at its identity and generation or later, or reported absent since the inventory was recorded. */
  ghost predicate Answered(app: App, log: seq<App>, mark: nat) {
    || (exists i :: 0 <= i < |log| && Covers(log[i], app))
    || (exists i :: mark <= i < |log| && ReportsAbsent(log[i], app))
  }

  /** Every application of the inventory is still pending as listed, or answered. */
  ghost predicate Tracked(pending: map<Key, AppState>, inventory: seq<App>, log: seq<App>, mark: nat) {
    forall i :: 0 <= i < |inventory| ==>
      || (inventory[i].key in pending
           && pending[inventory[i].key] == AppState(inventory[i].uid, inventory[i].generation))
      || Answered(inventory[i], log, mark)
  }

  ghost predicate Invariant(s: State) {
    && s.nilWrites == 0
    && s.mark <= |s.log|
    && DistinctKeys(s.inventory)
    && (s.observed.Some? ==> ObservedIsLogged(s.observed.value, s.log))
    && Tracked(s.pending, s.inventory, s.log, s.mark)
    && (s.ready ==> s.pending == map[])
    && (s.observed.None? ==> s.ctx.Done? || (s.ctx.Live? && s.ready))
    && (s.ctx.NoContext? ==> !s.ready)
  }

  class Fence {
    var ctx: Context
    var pending: map<Key, AppState>
    var observed: Option<map<Key, AppState>>
    var ready: bool
    var log: seq<App>         // history
    var inventory: seq<App>   // history
    var mark: nat             // history

    ghost function Value(): State
      reads this
    {
      State(ctx, pending, observed, ready, 0, log, inventory, mark)
    }

    constructor ()
      ensures Value() == New()
    {
      ctx, pending, observed, ready := NoContext, map[], Some(map[]), false;
      log, inventory, mark := [], [], 0;
    }

    method Conclude()
      modifies `ready, `observed
      ensures Value() == Concluded(old(Value()))
      ensures (ready <==> pending == map[]) && observed == if ready then None else old(observed)
    {
      ready := |pending| == 0;
      if ready {
        observed := None;
      }
    }

    method RefreshLocked(apps: seq<App>)
      modifies this
      ensures Value() == Refreshed(old(Value()), apps)
    {
      var completed := observed.UnwrapOr(map[]);
      pending := map[];
      var i := 0;
      while i < |apps|
        invariant 0 <= i <= |apps| && pending == PendingOf(completed, apps[..i])
        invariant Value() == old(Value()).(pending := pending)
      {
        assert apps[..i + 1][..i] == apps[..i];
        var app := apps[i];
        if app.key !in completed || completed[app.key].uid != app.uid
          || completed[app.key].generation < app.generation {
          pending := pending[app.key := AppState(app.uid, app.generation)];
        }
        i := i + 1;
      }
      assert apps[..i] == apps;
      inventory, mark := apps, |log|;
      Conclude();
    }

    method Start(apps: seq<App>)
      modifies this
      ensures Value() == Initialized(old(Value()), apps)
    {
      ctx := Live;
      if observed.None? {
        observed := Some(map[]);
      }
      RefreshLocked(apps);
    }

    /** The record is written only where it exists. */
    method Complete(key: Key, uid: Uid, generation: int)
      requires Invariant(Value())
      modifies this
      ensures Value() == Reconciled(old(Value()), key, uid, generation)
    {
      if ctx.Done? {
        return;
      }
      if ctx.NoContext? || !ready {
        assert observed.Some?;
        observed := Some(observed.value[key := AppState(uid, generation)]);
      }
      log := log + [App(key, uid, generation)];
      if ctx.NoContext? {
        return;
      }
      if key in pending && (uid == "" || (uid == pending[key].uid && generation >= pending[key].generation)) {
        pending := pending - {key};
      }
      Conclude();
    }

    /** Publication stops at once; what was pending and recorded is kept. */
    method Withdraw()
      modifies this
      ensures !Available(Value()) && pending == old(pending) && observed == old(observed)
      ensures old(Invariant(Value())) ==> Invariant(Value())
      ensures Value() == Revoked(old(Value()))
    {
      ready := false;
      if !ctx.NoContext? {
        ctx := Done;
      }
    }
  }

  // ------------------------------------------------------------ what every run keeps

  lemma {:induction false} PendingTracks(observed: map<Key, AppState>, apps: seq<App>, log: seq<App>, i: nat)
    requires DistinctKeys(apps) && ObservedIsLogged(observed, log) && i < |apps|
    ensures
      || (apps[i].key in PendingOf(observed, apps)
           && PendingOf(observed, apps)[apps[i].key] == AppState(apps[i].uid, apps[i].generation))
      || Answered(apps[i], log, |log|)
    decreases |apps|
  {
    var n := |apps| - 1;
    var app := apps[n];
    if i < n {
      PendingTracks(observed, apps[..n], log, i);
      assert apps[..n][i] == apps[i] && apps[i].key != app.key;
    } else if !Uncovered(observed, app) {
      var done := App(app.key, observed[app.key].uid, observed[app.key].generation);
      assert done in log;
      var j :| 0 <= j < |log| && log[j] == done;
      assert Covers(log[j], app);
    }
  }

  lemma RefreshTracks(observed: map<Key, AppState>, apps: seq<App>, log: seq<App>)
    requires DistinctKeys(apps) && ObservedIsLogged(observed, log)
    ensures Tracked(PendingOf(observed, apps), apps, log, |log|)
  {
  }

  lemma AnsweredGrows(app: App, log: seq<App>, mark: nat, done: App)
    requires Answered(app, log, mark)
    ensures Answered(app, log + [done], mark)
  {
    if i :| 0 <= i < |log| && Covers(log[i], app) {
      assert Covers((log + [done])[i], app);
    } else {
      var i :| mark <= i < |log| && ReportsAbsent(log[i], app);
      assert ReportsAbsent((log + [done])[i], app);
    }
  }

  /** A reconcile answers what it settles. */
  lemma ReconcileTracks(s: State, done: App)
    requires Tracked(s.pending, s.inventory, s.log, s.mark) && s.mark <= |s.log| && DistinctKeys(s.inventory)
    ensures Tracked(s.pending, s.inventory, s.log + [done], s.mark)
    ensures Settles(s.pending, done.key, done.uid, done.generation) ==>
      Tracked(s.pending - {done.key}, s.inventory, s.log + [done], s.mark)
  {
    var log := s.log + [done];
    forall i | 0 <= i < |s.inventory|
      ensures Answered(s.inventory[i], s.log, s.mark) ==> Answered(s.inventory[i], log, s.mark)
    {
      if Answered(s.inventory[i], s.log, s.mark) {
        AnsweredGrows(s.inventory[i], s.log, s.mark, done);
      }
    }
    if Settles(s.pending, done.key, done.uid, done.generation) {
      forall i | 0 <= i < |s.inventory| && s.inventory[i].key == done.key
                 && s.pending[done.key] == AppState(s.inventory[i].uid, s.inventory[i].generation)
        ensures Answered(s.inventory[i], log, s.mark)
      {
        assert log[|s.log|] == done;
        assert Covers(log[|s.log|], s.inventory[i]) || ReportsAbsent(log[|s.log|], s.inventory[i]);
      }
    }
  }

  /** Inventories list each Application once. */
  ghost predicate Listing(e: Event) {
    e.Initialize? || e.Refresh? ==> DistinctKeys(e.apps)
  }

  lemma RefreshKeeps(s: State, apps: seq<App>)
    requires DistinctKeys(apps) && s.nilWrites == 0 && !s.ctx.NoContext?
    requires s.observed.Some? ==> ObservedIsLogged(s.observed.value, s.log)
    requires s.observed.None? ==> s.ctx.Done?
    ensures Invariant(Refreshed(s, apps))
  {
    RefreshTracks(s.observed.UnwrapOr(map[]), apps, s.log);
  }

  lemma ReconcileKeeps(s: State, key: Key, uid: Uid, generation: int)
    requires Invariant(s)
    ensures Invariant(Reconciled(s, key, uid, generation))
  {
    var done := App(key, uid, generation);
    ReconcileTracks(s, done);
    hide Tracked;
    var log := s.log + [done];
    assert done == log[|s.log|];
    if s.observed.Some? {
      var o := s.observed.value[key := AppState(uid, generation)];
      forall k | k in o
        ensures App(k, o[k].uid, o[k].generation) in log
      {
        if k != key {
          assert App(k, s.observed.value[k].uid, s.observed.value[k].generation) in s.log;
        }
      }
    }
  }

  lemma StepKeeps(s: State, e: Event)
    requires Invariant(s) && Listing(e)
    ensures Invariant(Step(s, e))
  {
    match e
    case Initialize(apps) => RefreshKeeps(s.(ctx := Live, observed := Some(s.observed.UnwrapOr(map[]))), apps);
    case Refresh(apps) => if !s.ctx.NoContext? && !s.ready { RefreshKeeps(s, apps); }
    case Reconcile(key, uid, generation) => ReconcileKeeps(s, key, uid, generation);
    case _ =>
  }

  lemma NewHolds()
    ensures Invariant(New())
  {
  }

  lemma {:induction false} RunKeeps(events: seq<Event>)
    requires forall i :: 0 <= i < |events| ==> Listing(events[i])
    ensures Invariant(Run(New(), events))
    decreases |events|
  {
    hide Invariant, Step;
    if events == [] {
      NewHolds();
    } else {
      RunKeeps(events[..|events| - 1]);
      StepKeeps(Run(New(), events[..|events| - 1]), events[|events| - 1]);
    }
  }

  // ------------------------------------------------------------ theorems

  /**
    The fence: whenever the context is available, every Application of the last inventory was
    reconciled with its UID at that generation or later, or reported absent since the inventory was
    recorded; and no run writes the record after it was let go.
   */
  lemma AvailableMeansReconciled(events: seq<Event>)
    requires forall i :: 0 <= i < |events| ==> Listing(events[i])
    ensures var s := Run(New(), events);
      && s.nilWrites == 0
      && (Available(s) ==> forall i :: 0 <= i < |s.inventory| ==> Answered(s.inventory[i], s.log, s.mark))
  {
    RunKeeps(events);
    hide Run;
  }

  lemma {:induction false} RevokedStays(s: State, events: seq<Event>)
    requires !s.ctx.Live? && forall i :: 0 <= i < |events| ==> !events[i].Initialize?
    ensures !Run(s, events).ctx.Live?
    decreases |events|
  {
    if events != [] {
      RevokedStays(s, events[..|events| - 1]);
    }
  }

  lemma {:induction false} RunJoins(s: State, a: seq<Event>, b: seq<Event>)
    ensures Run(s, a + b) == Run(Run(s, a), b)
    decreases |b|
  {
    hide Step;
    if b == [] {
      assert a + b == a;
    } else {
      RunJoins(s, a, b[..|b| - 1]);
      assert (a + b)[..|a + b| - 1] == a + b[..|b| - 1];
    }
  }

  /** Once revoked, or with the leader's own context done, never available again without another Initialize. */
  lemma RevocationIsFinal(before: seq<Event>, end: Event, after: seq<Event>)
    requires end.Revoke? || end.ParentDone?
    requires forall i :: 0 <= i < |after| ==> !after[i].Initialize?
    ensures !Available(Run(New(), before + [end] + after))
  {
    RunJoins(New(), before + [end], after);
    assert (before + [end])[..|before|] == before;
    RevokedStays(Run(New(), before + [end]), after);
  }

  // ------------------------------------------------------------ when the fence opens

  /** A reconcile of the application at its identity and generation or later, or a report of its absence. */
  predicate SettledBy(e: Event, app: App) {
    e.Reconcile? && e.key == app.key && (e.uid == "" || (e.uid == app.uid && e.generation >= app.generation))
  }

  ghost predicate Unmet(since: seq<Event>, app: App) {
    forall j :: 0 <= j < |since| ==> !SettledBy(since[j], app)
  }

  /** Pending are exactly the listed applications neither covered when listed nor settled since. */
  ghost predicate PendingExactly(
    pending: map<Key, AppState>, apps: seq<App>, observed: map<Key, AppState>, since: seq<Event>)
  {
    && (forall i :: 0 <= i < |apps| ==>
          (apps[i].key in pending <==> Uncovered(observed, apps[i]) && Unmet(since, apps[i])))
    && (forall i :: 0 <= i < |apps| && apps[i].key in pending ==>
          pending[apps[i].key] == AppState(apps[i].uid, apps[i].generation))
    && (forall key :: key in pending ==> exists i :: 0 <= i < |apps| && apps[i].key == key)
  }

  /** One more listed application, with a key of its own. */
  lemma ListedOneMore(p: map<Key, AppState>, apps: seq<App>, observed: map<Key, AppState>)
    requires apps != [] && DistinctKeys(apps) && PendingExactly(p, apps[..|apps| - 1], observed, [])
    ensures var app := apps[|apps| - 1];
      var q := if Uncovered(observed, app) then p[app.key := AppState(app.uid, app.generation)] else p;
      PendingExactly(q, apps, observed, [])
  {
    hide Uncovered;
    var n := |apps| - 1;
    var rest, app := apps[..n], apps[n];
    var q := if Uncovered(observed, app) then p[app.key := AppState(app.uid, app.generation)] else p;
    assert app.key !in p;
    forall i | 0 <= i < |apps|
      ensures apps[i].key in q <==> Uncovered(observed, apps[i]) && Unmet([], apps[i])
      ensures apps[i].key in q ==> q[apps[i].key] == AppState(apps[i].uid, apps[i].generation)
    {
      if i < n {
        assert rest[i] == apps[i] && apps[i].key != app.key;
      }
    }
    forall key | key in q
      ensures exists i :: 0 <= i < |apps| && apps[i].key == key
    {
      if key in p {
        var i :| 0 <= i < |rest| && rest[i].key == key;
        assert apps[i].key == key;
      } else {
        assert apps[n].key == key;
      }
    }
  }

  lemma {:induction false} PendingIsExact(observed: map<Key, AppState>, apps: seq<App>)
    requires DistinctKeys(apps)
    ensures PendingExactly(PendingOf(observed, apps), apps, observed, [])
    decreases |apps|
  {
    if apps != [] {
      assert DistinctKeys(apps[..|apps| - 1]);
      hide PendingExactly, DistinctKeys, Uncovered;
      PendingIsExact(observed, apps[..|apps| - 1]);
      ListedOneMore(PendingOf(observed, apps[..|apps| - 1]), apps, observed);
    }
  }

  lemma LiveReconcile(t: State, e: Event)
    requires t.ctx.Live? && e.Reconcile?
    ensures var r := Step(t, e);
      && r.ctx.Live? && r.ready == (r.pending == map[])
      && r.pending == if Settles(t.pending, e.key, e.uid, e.generation) then t.pending - {e.key} else t.pending
  {
  }

  lemma UnmetGrows(since: seq<Event>, app: App)
    requires since != []
    ensures Unmet(since, app) <==> Unmet(since[..|since| - 1], app) && !SettledBy(since[|since| - 1], app)
  {
    var rest := since[..|since| - 1];
    assert forall j :: 0 <= j < |rest| ==> since[j] == rest[j];
  }

  /** One reconcile settles one listed application, and no other. */
  lemma StaysExact(
    pending: map<Key, AppState>, apps: seq<App>, observed: map<Key, AppState>, since: seq<Event>, e: Event)
    requires DistinctKeys(apps) && since != [] && e == since[|since| - 1] && e.Reconcile?
    requires PendingExactly(pending, apps, observed, since[..|since| - 1])
    ensures var next := if Settles(pending, e.key, e.uid, e.generation) then pending - {e.key} else pending;
      PendingExactly(next, apps, observed, since)
  {
    hide Unmet;
    forall i | 0 <= i < |apps|
      ensures Unmet(since, apps[i]) <==> Unmet(since[..|since| - 1], apps[i]) && !SettledBy(e, apps[i])
    {
      UnmetGrows(since, apps[i]);
    }
  }

  /** A state that has just recorded an inventory, or has only reconciled since. */
  ghost predicate Following(s: State, apps: seq<App>, observed: map<Key, AppState>, since: seq<Event>) {
    s.ctx.Live? && s.ready == (s.pending == map[]) && PendingExactly(s.pending, apps, observed, since)
  }

  lemma {:induction false} FollowingRun(s: State, apps: seq<App>, observed: map<Key, AppState>, since: seq<Event>)
    requires DistinctKeys(apps) && Following(s, apps, observed, [])
    requires forall i :: 0 <= i < |since| ==> since[i].Reconcile?
    ensures Following(Run(s, since), apps, observed, since)
    decreases |since|
  {
    hide Step, PendingExactly, Settles;
    if since != [] {
      var rest, e := since[..|since| - 1], since[|since| - 1];
      FollowingRun(s, apps, observed, rest);
      LiveReconcile(Run(s, rest), e);
      StaysExact(Run(s, rest).pending, apps, observed, since, e);
    }
  }

  /** Recording an inventory: at the start, or a refresh while the fence is still closed. */
  predicate Records(s: State, e: Event) {
    e.Initialize? || (e.Refresh? && s.ctx.Live? && !s.ready)
  }

  lemma RecordFollows(s: State, e: Event)
    requires Records(s, e) && DistinctKeys(e.apps)
    ensures Following(Step(s, e), e.apps, s.observed.UnwrapOr(map[]), [])
  {
    PendingIsExact(s.observed.UnwrapOr(map[]), e.apps);
    hide PendingExactly, PendingOf;
  }

  /** A recorded reconcile of this Application: same identity, same generation or a later one. */
  predicate RecordedFor(observed: map<Key, AppState>, app: App) {
    app.key in observed && observed[app.key].uid == app.uid && observed[app.key].generation >= app.generation
  }

  /** Settled by one of these reconciles, or reported absent by one. */
  predicate SettledIn(since: seq<Event>, app: App) {
    exists j :: 0 <= j < |since| && since[j].Reconcile? && since[j].key == app.key
      && (since[j].uid == "" || (since[j].uid == app.uid && since[j].generation >= app.generation))
  }

  lemma SettledInIs(since: seq<Event>, app: App)
    ensures SettledIn(since, app) <==> !Unmet(since, app)
  {
    if j :| 0 <= j < |since| && SettledBy(since[j], app) {
      assert SettledIn(since, app);
    }
    if SettledIn(since, app) {
      var j :| 0 <= j < |since| && since[j].Reconcile? && since[j].key == app.key
        && (since[j].uid == "" || (since[j].uid == app.uid && since[j].generation >= app.generation));
      assert SettledBy(since[j], app);
    }
  }

  /**
    The fence opens exactly when it should: after an inventory is recorded and any reconciles since,
    the context is available if and only if every listed Application was already covered by an
    earlier reconcile or has been settled since, by a reconcile or by a report of its absence.
   */
  lemma FenceOpensExactly(s: State, e: Event, since: seq<Event>)
    requires Records(s, e) && Listing(e) && forall i :: 0 <= i < |since| ==> since[i].Reconcile?
    ensures Available(Run(Step(s, e), since)) <==>
      forall i :: 0 <= i < |e.apps| ==>
        RecordedFor(s.observed.UnwrapOr(map[]), e.apps[i]) || SettledIn(since, e.apps[i])
  {
    hide Run, Step, Unmet, SettledIn;
    forall i | 0 <= i < |e.apps|
      ensures SettledIn(since, e.apps[i]) <==> !Unmet(since, e.apps[i])
    {
      SettledInIs(since, e.apps[i]);
    }
    RecordFollows(s, e);
    FollowingRun(Step(s, e), e.apps, s.observed.UnwrapOr(map[]), since);
    var r := Run(Step(s, e), since);
    if r.pending != map[] {
      var key :| key in r.pending;
      var i :| 0 <= i < |e.apps| && e.apps[i].key == key;
    }
  }

  /** The last of these reconciles for a key. */
  predicate LatestFor(before: seq<Event>, j: int, key: Key) {
    && 0 <= j < |before| && before[j].Reconcile? && before[j].key == key
    && forall k :: j < k < |before| && before[k].Reconcile? ==> before[k].key != key
  }

  lemma RecordsOne(s: State, e: Event)
    requires e.Reconcile? && s.ctx.NoContext? && s.observed.Some?
    ensures var r := Step(s, e);
      r.ctx.NoContext? && r.observed == Some(s.observed.value[e.key := AppState(e.uid, e.generation)])
  {
  }

  lemma LatestExtends(before: seq<Event>)
    requires before != []
    ensures var n := |before| - 1;
      forall j, key {:trigger LatestFor(before, j, key)} {:trigger LatestFor(before[..n], j, key)} ::
        LatestFor(before, j, key) <==>
          if j == n then before[n].Reconcile? && before[n].key == key
          else LatestFor(before[..n], j, key) && !(before[n].Reconcile? && before[n].key == key)
  {
  }

  /** Before the leader starts, each key has the record of its last reconcile. */
  lemma {:induction false} LatestIsRecorded(before: seq<Event>)
    requires forall i :: 0 <= i < |before| ==> before[i].Reconcile?
    ensures var s := Run(New(), before);
      && s.ctx.NoContext? && s.observed.Some?
      && (forall j, key :: LatestFor(before, j, key) ==>
            key in s.observed.value && s.observed.value[key] == AppState(before[j].uid, before[j].generation))
      && (forall key :: key in s.observed.value ==> exists j :: LatestFor(before, j, key))
    decreases |before|
  {
    if before != [] {
      var n := |before| - 1;
      var rest, e := before[..n], before[n];
      LatestIsRecorded(rest);
      var s, r := Run(New(), rest), Run(New(), before);
      assert r == Step(s, e);
      RecordsOne(s, e);
      hide Run, Step;
      LatestExtends(before);
      hide LatestFor;
      forall key | key in r.observed.value
        ensures exists j :: LatestFor(before, j, key)
      {
        if key == e.key {
          assert LatestFor(before, n, key);
        } else {
          var j :| LatestFor(rest, j, key);
          assert LatestFor(before, j, key);
        }
      }
    }
  }

  /**
    From the start of the process: the context is available after the leader's inventory and any later
    reconciles if and only if, for every listed Application, its last reconcile before the start was of that
    identity at that generation or later, or a reconcile or a report of absence since has settled it.
   */
  lemma FenceOpensFromStart(before: seq<Event>, apps: seq<App>, since: seq<Event>)
    requires DistinctKeys(apps)
    requires forall i :: 0 <= i < |before| ==> before[i].Reconcile?
    requires forall i :: 0 <= i < |since| ==> since[i].Reconcile?
    ensures Available(Run(Step(Run(New(), before), Initialize(apps)), since)) <==>
      forall i :: 0 <= i < |apps| ==>
        || SettledIn(since, apps[i])
        || exists j :: LatestFor(before, j, apps[i].key) && before[j].uid == apps[i].uid
             && before[j].generation >= apps[i].generation
  {
    hide Run, Step, SettledIn;
    LatestIsRecorded(before);
    var s := Run(New(), before);
    FenceOpensExactly(s, Initialize(apps), since);
    forall i | 0 <= i < |apps|
      ensures RecordedFor(s.observed.value, apps[i]) <==>
        exists j :: LatestFor(before, j, apps[i].key) && before[j].uid == apps[i].uid
          && before[j].generation >= apps[i].generation
    {
      if RecordedFor(s.observed.value, apps[i]) {
        var j :| LatestFor(before, j, apps[i].key);
      }
    }
  }
}
