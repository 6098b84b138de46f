/** Cleanup tasks of one invocation: joined as they end, failures remembered. */
module Cleanup {
  import opened Basics

  datatype End = Fine | CleanupPanicked | CleanupCancelled

  predicate Failed(e: End) {
    !e.Fine?
  }

  /** get_or_insert: the first failure collected stays. */
  function Keep(failure: Option<End>, e: End): Option<End> {
    if Failed(e) && failure.None? then Some(e) else failure
  }

  function KeepAll(failure: Option<End>, ends: seq<End>): Option<End>
    decreases |ends|
  {
    if ends == [] then failure else KeepAll(Keep(failure, ends[0]), ends[1..])
  }

  /** The first failure of a sequence, by its definition. */
  ghost predicate IsFirstFailure(ends: seq<End>, f: Option<End>) {
    match f
    case None => forall i :: 0 <= i < |ends| ==> !Failed(ends[i])
    case Some(e) =>
      exists i :: 0 <= i < |ends| && ends[i] == e && Failed(e) && forall j :: 0 <= j < i ==> !Failed(ends[j])
  }

  lemma {:induction false} KeepAllJoins(failure: Option<End>, a: seq<End>, b: seq<End>)
    ensures KeepAll(failure, a + b) == KeepAll(KeepAll(failure, a), b)
    decreases |a|
  {
    if a == [] {
      assert a + b == b;
    } else {
      assert (a + b)[1..] == a[1..] + b;
      KeepAllJoins(Keep(failure, a[0]), a[1..], b);
    }
  }

  /** What is kept is the first failure collected. */
  lemma {:induction false} KeepsFirst(ends: seq<End>)
    ensures IsFirstFailure(ends, KeepAll(None, ends))
    decreases |ends|
  {
    if ends != [] {
      var n := |ends| - 1;
      KeepsFirst(ends[..n]);
      assert ends == ends[..n] + [ends[n]];
      KeepAllJoins(None, ends[..n], [ends[n]]);
      var before := KeepAll(None, ends[..n]);
      assert KeepAll(before, [ends[n]]) == Keep(before, ends[n]);
      if before.Some? {
        var i :| 0 <= i < n && ends[..n][i] == before.value && Failed(before.value)
          && forall j :: 0 <= j < i ==> !Failed(ends[..n][j]);
        assert ends[i] == before.value && forall j :: 0 <= j < i ==> ends[j] == ends[..n][j];
      } else {
        assert forall j :: 0 <= j < n ==> ends[j] == ends[..n][j];
      }
    }
  }

  /** The tasks of one invocation: those running, ends not yet joined in the order they came, and the failure kept. */
  class CleanupTasks {
    var running: nat
    var ended: seq<End>
    var failure: Option<End>

    constructor ()
      ensures running == 0 && ended == [] && failure == None
    {
      running, ended, failure := 0, [], None;
    }

    /** A kept failure stays; none is kept exactly when there was none and this end is fine. */
    method Collect(e: End)
      modifies `failure
      ensures old(failure).Some? ==> failure == old(failure)
      ensures failure.None? <==> old(failure).None? && e.Fine?
      ensures old(failure).None? && failure.Some? ==> failure.value == e
      ensures failure == Keep(old(failure), e)
    {
      if Failed(e) && failure.None? {
        failure := Some(e);
      }
    }

    /** Join whatever has ended. */
    method Drain()
      modifies `ended, `failure
      ensures ended == [] && failure == KeepAll(old(failure), old(ended))
    {
      while ended != []
        invariant KeepAll(failure, ended) == KeepAll(old(failure), old(ended))
        decreases |ended|
      {
        Collect(ended[0]);
        ended := ended[1..];
      }
    }

    /** Early ends are joined before the new task starts, and their failures are kept. */
    method SpawnCleanup()
      modifies this
      ensures running == old(running) + 1 && ended == [] && failure == KeepAll(old(failure), old(ended))
    {
      Drain();
      running := running + 1;
    }

    method TaskEnds(e: End)
      requires running > 0
      modifies `running, `ended
      ensures running == old(running) - 1 && ended == old(ended) + [e]
    {
      running, ended := running - 1, ended + [e];
    }

    /** finish with every task ended: the reply is the first failure ever collected. */
    method Finish() returns (r: Result<(), End>)
      requires running == 0
      modifies `ended, `failure
      ensures ended == [] && failure == KeepAll(old(failure), old(ended))
      ensures r == match failure case None => Ok(()) case Some(e) => Err(e)
    {
      Drain();
      r := if failure.Some? then Err(failure.value) else Ok(());
    }
  }
}

/**
  Invocations with their cancellation, execution accounting and permits, down to each lock:
  any number of cancel calls may stand between setting the flag and marking the execution.
 */
module Invocation {
  import opened Basics
  import opened Counting
  import opened Cleanup

  datatype After = ToWork | ToFinish | ToLeave

  /** The blocking thread of one invocation. */
  datatype Pc =
    | Fresh
    | Counted                   // counted as running, not yet stored
    | Stored                    // stored, not yet checked
    | Cancelling(onward: After)   // its own cancel: flag set, execution not yet marked
    | Working
    | Finishing
    | Joined
    | Leaving
    | Taken(terminating: bool)  // taken out of the slot, still counted
    | Unguarded
    | Released

  /**
    `slot` is the stored execution and whether it is terminating, `cancels` the cancel calls past the flag.
    `spawned`, `ends`, `joined`, `log`, `exited` and `reply` are history.
   */
  datatype Inv = Inv(
    pc: Pc, flag: bool, slot: Option<bool>, cancels: nat,
    running: set<nat>, ended: seq<(nat, End)>, failure: Option<End>,
    spawned: set<nat>, ends: map<nat, End>, joined: set<nat>, log: seq<End>, exited: bool,
    reply: Option<Result<(), End>>)

  datatype State = State(invs: map<nat, Inv>, max: nat, free: nat, running: nat, terminating: nat, errors: nat)

  datatype Event =
    | Admit(id: nat)
    | CountStart(id: nat)
    | Store(id: nat)
    | Check(id: nat, late: bool)
    | OwnMark(id: nat)
    | Spawn(id: nat, task: nat)
    | TaskEnds(id: nat, task: nat, end: End)
    | GuestExits(id: nat, panicked: bool)
    | JoinNext(id: nat)
    | FinishDone(id: nat)
    | LastCheck(id: nat, late: bool)
    | Take(id: nat)
    | Uncount(id: nat)
    | Release(id: nat)
    | CancelFlag(id: nat)
    | CancelMark(id: nat)

  const FRESH := Inv(Fresh, false, None, 0, {}, [], None, {}, map[], {}, [], false, None)

  function Next(a: After): Pc {
    match a case ToWork => Working case ToFinish => Finishing case ToLeave => Leaving
  }

  // ------------------------------------------------------------ one invocation

  function Mark(i: Inv): Inv {
    if i.slot == Some(false) then i.(slot := Some(true)) else i
  }

  function Ends(q: seq<(nat, End)>): seq<End> {
    if q == [] then [] else [q[0].1] + Ends(q[1..])
  }

  function Ids(q: seq<(nat, End)>): set<nat> {
    set p | p in q :: p.0
  }

  function JoinAll(i: Inv): Inv {
    i.(ended := [], failure := KeepAll(i.failure, Ends(i.ended)),
       joined := i.joined + Ids(i.ended), log := i.log + Ends(i.ended))
  }

  function Own(i: Inv, e: Event): Inv {
    match e
    case CountStart(_) => if i.pc.Fresh? then i.(pc := Counted) else i
    case Store(_) => if i.pc.Counted? then i.(pc := Stored, slot := Some(false)) else i
    case Check(_, late) =>
      if !i.pc.Stored? then i else if i.flag || late then i.(flag := true, pc := Cancelling(ToWork))
      else i.(pc := Working)
    case OwnMark(_) => if i.pc.Cancelling? then Mark(i).(pc := Next(i.pc.onward)) else i
    case Spawn(_, task) =>
      if i.pc.Working? && task !in i.spawned
      then JoinAll(i).(running := i.running + {task}, spawned := i.spawned + {task}) else i
    case TaskEnds(_, task, end) =>
      if task in i.running
      then i.(running := i.running - {task}, ended := i.ended + [(task, end)], ends := i.ends[task := end]) else i
    case GuestExits(_, panicked) =>
      if !i.pc.Working? then i
      else if panicked then i.(exited := true, flag := true, pc := Cancelling(ToFinish))
      else i.(exited := true, pc := Finishing)
    case JoinNext(_) =>
      if i.pc.Finishing? && i.ended != []
      then i.(ended := i.ended[1..], failure := Keep(i.failure, i.ended[0].1),
              joined := i.joined + {i.ended[0].0}, log := i.log + [i.ended[0].1]) else i
    case FinishDone(_) =>
      if i.pc.Finishing? && i.running == {} && i.ended == []
      then i.(pc := Joined, reply := Some(match i.failure case None => Ok(()) case Some(f) => Err(f))) else i
    case LastCheck(_, late) =>
      if !i.pc.Joined? then i else if i.flag || late then i.(flag := true, pc := Cancelling(ToLeave))
      else i.(pc := Leaving)
    case Take(_) => if i.pc.Leaving? && i.slot.Some? then i.(pc := Taken(i.slot.value), slot := None) else i
    case Uncount(_) => if i.pc.Taken? then i.(pc := Unguarded) else i
    case Release(_) => if i.pc.Unguarded? then i.(pc := Released) else i
    case CancelFlag(_) => i.(flag := true, cancels := i.cancels + 1)
    case CancelMark(_) => if i.cancels > 0 then Mark(i).(cancels := i.cancels - 1) else i
    case Admit(_) => i
  }

  // ------------------------------------------------------------ the counters

  predicate CountsRunning(i: Inv) {
    i.slot == Some(false) || i.pc.Counted? || i.pc == Taken(false)
  }

  predicate CountsTerminating(i: Inv) {
    i.slot == Some(true) || i.pc == Taken(true)
  }

  predicate HoldsPermit(i: Inv) {
    !i.pc.Released?
  }

  function LeaveRunning(s: State): State {
    if s.running > 0 then s.(running := s.running - 1) else s.(errors := s.errors + 1)
  }

  function LeaveTerminating(s: State): State {
    if s.terminating > 0 then s.(terminating := s.terminating - 1) else s.(errors := s.errors + 1)
  }

  /** What a step does to the shared counters and the semaphore. */
  function Effect(s: State, i: Inv, e: Event): State {
    match e
    case CountStart(_) => if i.pc.Fresh? then s.(running := s.running + 1) else s
    case OwnMark(_) =>
      if i.pc.Cancelling? && i.slot == Some(false) then LeaveRunning(s).(terminating := s.terminating + 1) else s
    case CancelMark(_) =>
      if i.cancels > 0 && i.slot == Some(false) then LeaveRunning(s).(terminating := s.terminating + 1) else s
    case Uncount(_) =>
      if i.pc == Taken(true) then LeaveTerminating(s) else if i.pc == Taken(false) then LeaveRunning(s) else s
    case Release(_) => if i.pc.Unguarded? then s.(free := s.free + 1) else s
    case _ => s
  }

  function Step(s: State, e: Event): State {
    if e.Admit? then
      if e.id in s.invs || s.free == 0 then s else s.(invs := s.invs[e.id := FRESH], free := s.free - 1)
    else if e.id in s.invs then Effect(s, s.invs[e.id], e).(invs := s.invs[e.id := Own(s.invs[e.id], e)])
    else s
  }

  function Run(max: nat, events: seq<Event>): State {
    if events == [] then State(map[], max, max, 0, 0, 0)
    else Step(Run(max, events[..|events| - 1]), events[|events| - 1])
  }

  // ------------------------------------------------------------ what every run keeps

  /** A cancelled execution still marked running is about to be marked. */
  predicate Racing(i: Inv) {
    i.cancels > 0 || i.pc.Stored? || i.pc.Cancelling?
  }

  predicate Slotted(i: Inv) {
    && (i.pc.Fresh? || i.pc.Counted? || i.pc.Taken? || i.pc.Unguarded? || i.pc.Released? ==> i.slot == None)
    && (i.pc.Stored? || i.pc.Cancelling? || i.pc.Working? || i.pc.Finishing? || i.pc.Joined? || i.pc.Leaving? ==>
         i.slot.Some?)
    && (i.slot == Some(false) && i.flag ==> Racing(i))
  }

  /** Every registered task runs, has ended, or was joined. */
  ghost predicate Tasked(spawned: set<nat>, running: set<nat>, ends: map<nat, End>, ended: seq<(nat, End)>,
      joined: set<nat>) {
    && spawned == running + ends.Keys
    && ends.Keys == Ids(ended) + joined
    && running !! ends.Keys
    && (forall p :: p in ended ==> p.0 in ends && ends[p.0] == p.1)
  }

  /** The log holds the ends of the joined tasks, and no others. */
  ghost predicate Logged(ends: map<nat, End>, joined: set<nat>, log: seq<End>) {
    && (forall t :: t in joined ==> t in ends && ends[t] in log)
    && (forall e :: e in log ==> exists t :: t in joined && t in ends && ends[t] == e)
  }

  ghost predicate Bookkept(i: Inv) {
    && Tasked(i.spawned, i.running, i.ends, i.ended, i.joined)
    && Logged(i.ends, i.joined, i.log)
    && i.failure == KeepAll(None, i.log)
  }

  predicate PastFinish(pc: Pc) {
    pc.Joined? || pc == Cancelling(ToLeave) || pc.Leaving? || pc.Taken? || pc.Unguarded? || pc.Released?
  }

  predicate PastGuest(pc: Pc) {
    PastFinish(pc) || pc.Finishing? || pc == Cancelling(ToFinish)
  }

  predicate Replied(i: Inv) {
    i.running == {} && i.ended == [] && i.reply == Some(match i.failure case None => Ok(()) case Some(f) => Err(f))
  }

  ghost predicate Finished(i: Inv) {
    && (PastGuest(i.pc) ==> i.exited)
    && (PastFinish(i.pc) ==> Replied(i))
  }

  ghost predicate Sound(i: Inv) {
    Slotted(i) && Bookkept(i) && Finished(i)
  }

  ghost predicate Exact(s: State) {
    && s.running == Count(s.invs, CountsRunning)
    && s.terminating == Count(s.invs, CountsTerminating)
    && s.free + Count(s.invs, HoldsPermit) == s.max
    && s.errors == 0
  }

  ghost predicate Invariant(s: State) {
    Exact(s) && forall id :: id in s.invs ==> Sound(s.invs[id])
  }

  lemma OwnSlotted(i: Inv, e: Event)
    requires Slotted(i)
    ensures Slotted(Own(i, e))
  {
    hide KeepAll, Ends, Ids;
  }

  lemma {:induction false} EndsJoin(q: seq<(nat, End)>, p: (nat, End))
    ensures Ids(q + [p]) == Ids(q) + {p.0}
  {
  }

  lemma {:induction false} EndsAre(q: seq<(nat, End)>)
    ensures forall p :: p in q ==> p.1 in Ends(q)
    ensures forall e :: e in Ends(q) ==> exists p :: p in q && p.1 == e
    decreases |q|
  {
    if q != [] {
      EndsAre(q[1..]);
      assert q == [q[0]] + q[1..];
      assert q[0] in q;
    }
  }

  /** Joining some ends moves their tasks and extends the log by just those ends. */
  lemma LogsJoined(ends: map<nat, End>, joined: set<nat>, log: seq<End>, q: seq<(nat, End)>)
    requires Logged(ends, joined, log) && forall p :: p in q ==> p.0 in ends && ends[p.0] == p.1
    ensures Logged(ends, joined + Ids(q), log + Ends(q))
  {
    EndsAre(q);
    forall t | t in joined + Ids(q)
      ensures t in ends && ends[t] in log + Ends(q)
    {
      if t in Ids(q) {
        var p :| p in q && p.0 == t;
        assert p.1 in Ends(q);
      }
    }
    forall e | e in log + Ends(q)
      ensures exists t :: t in joined + Ids(q) && t in ends && ends[t] == e
    {
      if e in log {
        var t :| t in joined && t in ends && ends[t] == e;
        assert t in joined + Ids(q);
      } else {
        var p :| p in q && p.1 == e;
        assert p.0 in Ids(q) && ends[p.0] == e;
      }
    }
  }

  lemma SpawnBookkept(i: Inv, e: Event)
    requires Bookkept(i) && e.Spawn?
    ensures Bookkept(Own(i, e))
  {
    hide Logged;
    KeepAllJoins(None, i.log, Ends(i.ended));
    assert Ids([]) == {};
    LogsJoined(i.ends, i.joined, i.log, i.ended);
  }

  lemma LogsOne(ends: map<nat, End>, joined: set<nat>, log: seq<End>, p: (nat, End))
    requires Logged(ends, joined, log) && p.0 in ends && ends[p.0] == p.1
    ensures Logged(ends, joined + {p.0}, log + [p.1])
  {
  }

  lemma TaskedOne(i: Inv)
    requires Tasked(i.spawned, i.running, i.ends, i.ended, i.joined) && i.ended != []
    ensures Tasked(i.spawned, i.running, i.ends, i.ended[1..], i.joined + {i.ended[0].0})
    ensures i.ended[0].0 in i.ends && i.ends[i.ended[0].0] == i.ended[0].1
  {
  }

  lemma JoinBookkept(i: Inv, e: Event)
    requires Bookkept(i) && e.JoinNext?
    ensures Bookkept(Own(i, e))
  {
    if i.ended != [] {
      KeepAllJoins(None, i.log, [i.ended[0].1]);
      assert KeepAll(i.failure, [i.ended[0].1]) == Keep(i.failure, i.ended[0].1);
      hide Logged, KeepAll, Tasked, Keep;
      TaskedOne(i);
      LogsOne(i.ends, i.joined, i.log, i.ended[0]);
    }
  }

  /** A new end of a task not yet joined disturbs no joined one. */
  lemma LogsEnd(ends: map<nat, End>, joined: set<nat>, log: seq<End>, task: nat, end: End)
    requires Logged(ends, joined, log) && task !in joined
    ensures Logged(ends[task := end], joined, log)
  {
  }

  lemma EndBookkept(i: Inv, e: Event)
    requires Bookkept(i) && e.TaskEnds?
    ensures Bookkept(Own(i, e))
  {
    hide Logged, KeepAll;
    if e.task in i.running {
      EndsJoin(i.ended, (e.task, e.end));
      LogsEnd(i.ends, i.joined, i.log, e.task, e.end);
      hide Ids;
    }
  }

  /** Nothing else touches the tasks. */
  lemma OthersLeaveTasks(i: Inv, e: Event)
    requires !e.Spawn? && !e.TaskEnds? && !e.JoinNext?
    ensures var j := Own(i, e);
      && j.spawned == i.spawned && j.running == i.running && j.ends == i.ends && j.ended == i.ended
      && j.joined == i.joined && j.log == i.log && j.failure == i.failure
  {
  }

  lemma OwnBookkept(i: Inv, e: Event)
    requires Bookkept(i)
    ensures Bookkept(Own(i, e))
  {
    if e.Spawn? {
      SpawnBookkept(i, e);
    } else if e.TaskEnds? {
      EndBookkept(i, e);
    } else if e.JoinNext? {
      JoinBookkept(i, e);
    } else {
      hide Tasked, Logged, KeepAll, Own;
      OthersLeaveTasks(i, e);
    }
  }

  lemma OwnFinished(i: Inv, e: Event)
    requires Finished(i)
    ensures Finished(Own(i, e))
  {
    hide KeepAll, Ends, Ids;
  }

  function B(b: bool): int { if b then 1 else 0 }

  ghost predicate Moves(s: State, r: State, i: Inv, j: Inv) {
    && r.running == s.running + B(CountsRunning(j)) - B(CountsRunning(i))
    && r.terminating == s.terminating + B(CountsTerminating(j)) - B(CountsTerminating(i))
    && r.free == s.free + B(HoldsPermit(i)) - B(HoldsPermit(j))
    && r.errors == s.errors && r.max == s.max && r.invs == s.invs
  }

  predicate Quiet(e: Event) {
    e.Store? || e.Check? || e.Spawn? || e.TaskEnds? || e.GuestExits? || e.JoinNext? || e.FinishDone? || e.LastCheck?
      || e.Take? || e.CancelFlag?
  }

  /** Steps that touch no counter change nothing an invocation counts as. */
  lemma QuietOwn(i: Inv, e: Event)
    requires Slotted(i) && Quiet(e)
    ensures CountsRunning(Own(i, e)) == CountsRunning(i) && CountsTerminating(Own(i, e)) == CountsTerminating(i)
    ensures HoldsPermit(Own(i, e)) == HoldsPermit(i)
  {
    hide KeepAll, Ends, Ids, Keep;
  }

  lemma QuietCounts(s: State, i: Inv, e: Event)
    requires Slotted(i) && Quiet(e)
    ensures Moves(s, Effect(s, i, e), i, Own(i, e))
  {
    hide Own, Slotted, CountsRunning, CountsTerminating, HoldsPermit;
    QuietOwn(i, e);
  }

  lemma MarkCounts(s: State, i: Inv, e: Event)
    requires Slotted(i) && (e.OwnMark? || e.CancelMark?) && (CountsRunning(i) ==> s.running > 0)
    ensures Moves(s, Effect(s, i, e), i, Own(i, e))
  {
    hide JoinAll, Keep;
  }

  lemma LoudCounts(s: State, i: Inv, e: Event)
    requires Slotted(i) && (e.CountStart? || e.OwnMark? || e.CancelMark? || e.Uncount? || e.Release?)
    requires CountsRunning(i) ==> s.running > 0
    requires CountsTerminating(i) ==> s.terminating > 0
    ensures Moves(s, Effect(s, i, e), i, Own(i, e))
  {
    if e.OwnMark? || e.CancelMark? {
      MarkCounts(s, i, e);
      hide Moves, Effect, Own;
    } else {
      hide JoinAll, Keep, Mark;
    }
  }

  lemma MovesKeep(s: State, r: State, id: nat, j: Inv)
    requires Exact(s) && id in s.invs && Moves(s, r, s.invs[id], j)
    ensures Exact(r.(invs := s.invs[id := j]))
  {
    CountReplace(s.invs, id, j, CountsRunning);
    CountReplace(s.invs, id, j, CountsTerminating);
    CountReplace(s.invs, id, j, HoldsPermit);
    hide Count;
  }

  lemma AdmitKeeps(s: State, id: nat)
    requires Exact(s) && id !in s.invs && s.free > 0
    ensures Exact(Step(s, Admit(id)))
  {
    CountAdd(s.invs, id, FRESH, CountsRunning);
    CountAdd(s.invs, id, FRESH, CountsTerminating);
    CountAdd(s.invs, id, FRESH, HoldsPermit);
    hide Count;
  }

  lemma StepExact(s: State, e: Event)
    requires Exact(s) && (!e.Admit? && e.id in s.invs ==> Slotted(s.invs[e.id]))
    ensures Exact(Step(s, e))
  {
    if e.Admit? {
      if e.id !in s.invs && s.free > 0 { AdmitKeeps(s, e.id); }
    } else if e.id in s.invs {
      var i := s.invs[e.id];
      if CountsRunning(i) { CountPositive(s.invs, e.id, CountsRunning); }
      if CountsTerminating(i) { CountPositive(s.invs, e.id, CountsTerminating); }
      hide Own, Effect, Moves, Count, CountsRunning, CountsTerminating, Slotted;
      if e.CountStart? || e.OwnMark? || e.CancelMark? || e.Uncount? || e.Release? {
        LoudCounts(s, i, e);
      } else {
        QuietCounts(s, i, e);
      }
      MovesKeep(s, Effect(s, i, e), e.id, Own(i, e));
    }
  }

  lemma OwnKeeps(i: Inv, e: Event)
    requires Sound(i)
    ensures Sound(Own(i, e))
  {
    hide Own, Slotted, Bookkept, Finished;
    OwnSlotted(i, e);
    OwnBookkept(i, e);
    OwnFinished(i, e);
  }

  lemma FreshIsSound()
    ensures Sound(FRESH)
  {
  }

  lemma StepKeeps(s: State, e: Event)
    requires Invariant(s)
    ensures Invariant(Step(s, e))
  {
    hide Own, Effect, Exact, Slotted, Bookkept, Finished;
    StepExact(s, e);
    FreshIsSound();
    if !e.Admit? && e.id in s.invs {
      OwnKeeps(s.invs[e.id], e);
    }
  }

  lemma MaxStays(s: State, e: Event)
    ensures Step(s, e).max == s.max
  {
    hide Own;
  }

  lemma StartHolds(max: nat)
    ensures Invariant(State(map[], max, max, 0, 0, 0))
  {
  }

  lemma {:induction false} RunKeeps(max: nat, events: seq<Event>)
    ensures Invariant(Run(max, events)) && Run(max, events).max == max
    decreases |events|
  {
    hide Invariant, Step;
    if events == [] {
      StartHolds(max);
    } else {
      RunKeeps(max, events[..|events| - 1]);
      StepKeeps(Run(max, events[..|events| - 1]), events[|events| - 1]);
      MaxStays(Run(max, events[..|events| - 1]), events[|events| - 1]);
    }
  }

  // ------------------------------------------------------------ theorems

  /**
    The race: in every interleaving of cancel calls with the start of an execution, a cancelled
    execution is counted as running only while a call or the start's own check is still on its way;
    once they are done it is counted as terminating. Counters and permits are exact throughout.
   */
  lemma CancelNeverLost(max: nat, events: seq<Event>)
    ensures var s := Run(max, events);
      && (forall id :: id in s.invs && s.invs[id].slot == Some(false) && s.invs[id].flag ==>
            s.invs[id].cancels > 0 || s.invs[id].pc.Stored? || s.invs[id].pc.Cancelling?)
      && s.running == Count(s.invs, CountsRunning) && s.terminating == Count(s.invs, CountsTerminating)
      && s.free + Count(s.invs, HoldsPermit) == max && s.errors == 0
  {
    RunKeeps(max, events);
    hide Run, Bookkept, Finished;
    var s := Run(max, events);
    forall id | id in s.invs
      ensures s.invs[id].slot == Some(false) && s.invs[id].flag ==> Racing(s.invs[id])
    {
      assert Sound(s.invs[id]);
    }
  }

  lemma ReplyIsFirstFailure(i: Inv)
    requires Sound(i) && PastFinish(i.pc)
    ensures i.exited && i.running == {} && i.joined == i.spawned == i.ends.Keys
    ensures i.reply == Some(Ok(())) <==> forall t :: t in i.spawned ==> !Failed(i.ends[t])
    ensures forall f :: i.reply == Some(Err(f)) ==> IsFirstFailure(i.log, Some(f))
  {
    KeepsFirst(i.log);
    assert Ids([]) == {};
    hide KeepAll, Slotted;
    if i.failure.Some? {
      assert i.failure.value in i.log;
      var t :| t in i.joined && t in i.ends && i.ends[t] == i.failure.value;
    } else {
      forall t | t in i.joined
        ensures !Failed(i.ends[t])
      {
        var k :| 0 <= k < |i.log| && i.log[k] == i.ends[t];
      }
    }
  }

  /**
    Capacity outlives cleanup: a permit is given back only after the guest has exited, every cleanup
    task ever registered has ended and been joined, and the reply of finish is an error exactly when
    some task failed, early or late, naming the first failure collected.
   */
  lemma CapacityOutlivesCleanup(max: nat, events: seq<Event>, id: nat)
    ensures var s := Run(max, events);
      id in s.invs && PastFinish(s.invs[id].pc) ==>
        var i := s.invs[id];
        && i.exited && i.running == {} && i.joined == i.spawned == i.ends.Keys
        && (i.reply == Some(Ok(())) <==> forall t :: t in i.spawned ==> !Failed(i.ends[t]))
        && (forall f :: i.reply == Some(Err(f)) ==> IsFirstFailure(i.log, Some(f)))
  {
    RunKeeps(max, events);
    hide Run;
    var s := Run(max, events);
    if id in s.invs && PastFinish(s.invs[id].pc) {
      assert Sound(s.invs[id]);
      ReplyIsFirstFailure(s.invs[id]);
      hide Count, Sound;
    }
  }

  // ------------------------------------------------------------ nothing is stuck

  function Rank(pc: Pc): nat {
    match pc
    case Fresh => 13 case Counted => 12 case Stored => 11
    case Cancelling(onward) => (match onward case ToWork => 10 case ToFinish => 7 case ToLeave => 4)
    case Working => 8 case Finishing => 6 case Joined => 5 case Leaving => 3
    case Taken(_) => 2 case Unguarded => 1 case Released => 0
  }

  /** A step that brings an invocation closer to giving its permit back; `task` is one still running, if any. */
  function Onward(id: nat, i: Inv, task: nat): Event {
    match i.pc
    case Fresh => CountStart(id)
    case Counted => Store(id)
    case Stored => Check(id, false)
    case Cancelling(_) => OwnMark(id)
    case Working => GuestExits(id, false)
    case Finishing =>
      if task in i.running then TaskEnds(id, task, Fine) else if i.ended != [] then JoinNext(id) else FinishDone(id)
    case Joined => LastCheck(id, false)
    case Leaving => Take(id)
    case Taken(_) => Uncount(id)
    case Unguarded => Release(id)
    case Released => CancelMark(id)
  }

  /** The steps an invocation still has to take: its own, and two for each task it has to join. */
  function Left(i: Inv): nat {
    Rank(i.pc) + 2 * |i.running| + |i.ended|
  }

  predicate IsSpawn(s: State, e: Event, id: nat) {
    e.Spawn? && e.id == id && Step(s, e) != s
  }

  /** A step of the invocation or of one of its tasks that does something, other than spawning another task. */
  predicate Works(s: State, e: Event, id: nat) {
    e.id == id && !e.Admit? && !e.Spawn? && !e.CancelFlag? && !e.CancelMark? && Step(s, e) != s
  }

  lemma TaskShrinks(i: Inv, e: Event)
    requires (e.TaskEnds? || e.JoinNext?) && Own(i, e) != i
    ensures Left(Own(i, e)) < Left(i)
  {
    hide Keep, KeepAll, Ends, Ids, JoinAll, Rank;
    if e.TaskEnds? {
      assert |i.running - {e.task}| == |i.running| - 1;
    }
  }

  /** The other steps of the thread move it on and leave the tasks alone. */
  lemma ThreadShrinks(i: Inv, e: Event)
    requires !e.Admit? && !e.Spawn? && !e.CancelFlag? && !e.CancelMark? && !e.TaskEnds? && !e.JoinNext?
      && Own(i, e) != i
    ensures var j := Own(i, e); Rank(j.pc) < Rank(i.pc) && j.running == i.running && j.ended == i.ended
  {
  }

  lemma OwnShrinks(i: Inv, e: Event)
    requires !e.Admit? && !e.Spawn? && !e.CancelFlag? && !e.CancelMark? && Own(i, e) != i
    ensures Left(Own(i, e)) < Left(i)
  {
    if e.TaskEnds? || e.JoinNext? {
      TaskShrinks(i, e);
    } else {
      ThreadShrinks(i, e);
      hide Own, Rank;
    }
  }

  lemma OtherShrinks(i: Inv, e: Event)
    requires e.Admit? || e.Spawn? || e.CancelFlag? || e.CancelMark?
    ensures Left(Own(i, e)) <= Left(i) + if e.Spawn? && Own(i, e) != i then 2 else 0
  {
    hide Keep, KeepAll, Ends, Ids;
    if e.Spawn? {
      assert |i.running + {e.task}| <= |i.running| + 1;
    }
  }

  lemma EffectIsOnOthers(s: State, i: Inv, e: Event)
    requires Slotted(i)
    ensures Effect(s, i, e).invs == s.invs && (Own(i, e) == i ==> Effect(s, i, e) == s)
  {
    hide Keep, KeepAll, Ends, Ids, JoinAll;
    if e.Spawn? || e.TaskEnds? || e.JoinNext? || e.FinishDone? {
      hide Own;
    }
  }

  lemma SlottedAt(s: State, id: nat)
    requires Invariant(s) && id in s.invs
    ensures Slotted(s.invs[id])
  {
    hide Exact, Slotted, Bookkept, Finished;
    assert Sound(s.invs[id]);
  }

  /** A step that leaves the invocation alone changes nothing. */
  lemma IdleEffect(s: State, id: nat, e: Event)
    requires Invariant(s) && id in s.invs && !e.Admit? && e.id == id
    ensures Step(s, e).invs == s.invs[id := Own(s.invs[id], e)]
      && (Own(s.invs[id], e) == s.invs[id] ==> Step(s, e) == s)
  {
    hide Own, Effect, Invariant, Slotted;
    SlottedAt(s, id);
    EffectIsOnOthers(s, s.invs[id], e);
    assert s.invs[id := s.invs[id]] == s.invs;
  }

  lemma LeftShrinks(s: State, id: nat, e: Event)
    requires Invariant(s) && id in s.invs
    ensures id in Step(s, e).invs
    ensures Left(Step(s, e).invs[id]) + (if Works(s, e, id) then 1 else 0)
      <= Left(s.invs[id]) + (if IsSpawn(s, e, id) then 2 else 0)
  {
    hide Own, Effect, Invariant, Left;
    if !e.Admit? && e.id == id {
      IdleEffect(s, id, e);
      hide Step;
      if !e.Spawn? && !e.CancelFlag? && !e.CancelMark? {
        if Own(s.invs[id], e) != s.invs[id] { OwnShrinks(s.invs[id], e); }
      } else {
        OtherShrinks(s.invs[id], e);
      }
    }
  }

  lemma OnwardMoves(i: Inv, id: nat, task: nat)
    requires Slotted(i) && !i.pc.Released? && (i.running != {} ==> task in i.running)
    ensures Own(i, Onward(id, i, task)) != i
  {
    hide Keep, KeepAll, Ends, Ids, JoinAll;
    if i.pc.Finishing? && task in i.running {
      assert task !in i.running - {task};
    }
  }

  lemma OnwardWorks(s: State, id: nat, task: nat)
    requires id in s.invs && !s.invs[id].pc.Released?
    requires Own(s.invs[id], Onward(id, s.invs[id], task)) != s.invs[id]
    ensures Works(s, Onward(id, s.invs[id], task), id)
  {
    hide Own, Effect;
    var e := Onward(id, s.invs[id], task);
    assert e.id == id && !e.Admit? && !e.Spawn? && !e.CancelFlag? && !e.CancelMark?;
    hide Onward;
    assert Step(s, e).invs[id] == Own(s.invs[id], e);
  }

  lemma NeverStuck(s: State, id: nat)
    requires Invariant(s) && id in s.invs && !s.invs[id].pc.Released?
    ensures exists e :: Works(s, e, id)
  {
    assert Sound(s.invs[id]);
    hide Own, Effect, Exact, Onward, Works, Bookkept, Finished;
    var task := 0;
    if s.invs[id].running != {} {
      task :| task in s.invs[id].running;
    }
    OnwardMoves(s.invs[id], id, task);
    OnwardWorks(s, id, task);
  }

  /** A run from a given state, first event first. */
  function Steps(s: State, events: seq<Event>): State
    decreases |events|
  {
    if events == [] then s else Steps(Step(s, events[0]), events[1..])
  }

  lemma {:induction false} StepsContinue(max: nat, events: seq<Event>, more: seq<Event>)
    ensures Run(max, events + more) == Steps(Run(max, events), more)
    decreases |more|
  {
    hide Step;
    if more == [] {
      assert events + more == events;
    } else {
      assert events + more == (events + [more[0]]) + more[1..];
      assert (events + [more[0]])[..|events|] == events;
      StepsContinue(max, events + [more[0]], more[1..]);
    }
  }

  /** The steps taken by one invocation and its tasks in a run, and the tasks it spawned. */
  function Worked(s: State, events: seq<Event>, id: nat): nat
    decreases |events|
  {
    if events == [] then 0 else (if Works(s, events[0], id) then 1 else 0) + Worked(Step(s, events[0]), events[1..], id)
  }

  function Spawns(s: State, events: seq<Event>, id: nat): nat
    decreases |events|
  {
    if events == [] then 0
    else (if IsSpawn(s, events[0], id) then 1 else 0) + Spawns(Step(s, events[0]), events[1..], id)
  }

  lemma {:induction false} WorkedOff(s: State, events: seq<Event>, id: nat)
    requires Invariant(s) && id in s.invs
    ensures var r := Steps(s, events);
      Invariant(r) && id in r.invs
        && Left(r.invs[id]) + Worked(s, events, id) <= Left(s.invs[id]) + 2 * Spawns(s, events, id)
    decreases |events|
  {
    hide Invariant, Step, Works, IsSpawn, Left;
    if events != [] {
      StepKeeps(s, events[0]);
      LeftShrinks(s, id, events[0]);
      WorkedOff(Step(s, events[0]), events[1..], id);
    }
  }

  /**
    Every permit returns, however the run is scheduled: until it has, some step of the invocation or of
    one of its tasks can be taken, and at most `Left` of them, and two more for each task it spawns on
    the way, whatever cancellations and other invocations come in between, give the permit back.
   */
  lemma EveryPermitReturns(max: nat, before: seq<Event>, after: seq<Event>, id: nat)
    requires id in Run(max, before).invs
    ensures var s, r := Run(max, before), Run(max, before + after);
      && id in r.invs
      && (r.invs[id].pc.Released? || exists e :: Works(r, e, id))
      && Left(r.invs[id]) + Worked(s, after, id) <= Left(s.invs[id]) + 2 * Spawns(s, after, id)
      && (Worked(s, after, id) >= Left(s.invs[id]) + 2 * Spawns(s, after, id) ==> r.invs[id].pc.Released?)
  {
    RunKeeps(max, before);
    StepsContinue(max, before, after);
    hide Invariant, Step, Run, Works, Worked, Spawns;
    WorkedOff(Run(max, before), after, id);
    var r := Run(max, before + after);
    if !r.invs[id].pc.Released? {
      NeverStuck(r, id);
    }
  }

  /**
    The thread's own checks. A start or an end past the deadline or already cancelled, and a guest that
    panics, set the flag and leave the execution terminating; otherwise neither changes.
   */
  lemma ChecksTakeEffect(i: Inv, id: nat, e: Event)
    requires Slotted(i)
    requires (e.Check? && i.pc.Stored?) || (e.LastCheck? && i.pc.Joined?) || (e.GuestExits? && i.pc.Working?)
    ensures var j := Own(Own(i, e), OwnMark(id));
      j.pc == if e.Check? then Working else if e.LastCheck? then Leaving else Finishing
    ensures var j := Own(Own(i, e), OwnMark(id));
      var stops := if e.GuestExits? then e.panicked else i.flag || e.late;
      && i.slot.Some? && j.flag == (i.flag || stops) && j.slot == Some(i.slot.value || stops)
      && j.running == i.running && j.ended == i.ended && j.failure == i.failure
  {
    hide JoinAll, Keep;
    if i.slot.value {
      assert i.slot == Some(true);
    } else {
      assert i.slot == Some(false);
    }
  }

  /** A cancel call that runs to its end leaves a stored execution counted as terminating. */
  lemma CancelTakesEffect(max: nat, events: seq<Event>, id: nat)
    requires id in Run(max, events).invs && Run(max, events).invs[id].slot.Some?
    ensures var s, r := Run(max, events), Steps(Run(max, events), [CancelFlag(id), CancelMark(id)]);
      && id in r.invs && r.invs[id].flag && r.invs[id].slot == Some(true) && r.invs[id].pc == s.invs[id].pc
      && r.invs[id].cancels == s.invs[id].cancels
      && r.running + r.terminating == s.running + s.terminating
      && r.running == s.running - (if s.invs[id].slot == Some(false) then 1 else 0)
  {
    RunKeeps(max, events);
    var s := Run(max, events);
    hide Run, Sound;
    if s.invs[id].slot == Some(false) {
      CountPositive(s.invs, id, CountsRunning);
    } else {
      assert s.invs[id].slot.value;
    }
    var a := Step(s, CancelFlag(id));
    var b := Step(a, CancelMark(id));
    assert Steps(b, [CancelMark(id)][1..]) == b;
    assert Steps(a, [CancelMark(id)]) == b;
    var es := [CancelFlag(id), CancelMark(id)];
    assert es[0] == CancelFlag(id) && es[1..] == [CancelMark(id)];
    assert Steps(s, es) == Steps(a, es[1..]);
    hide Steps, KeepAll, Ends, Ids, Keep, JoinAll;
    assert a.invs[id].cancels > 0;
  }
}
