/** What every run of the invocation supervisor keeps. */
module SupervisorSafety {
  import opened Basics
  import opened Counting
  import opened DispatchMetrics
  import opened Supervisor

  // ------------------------------------------------------------ the invariant

  predicate Matches(job: Job, task: Task) {
    match job
    case ExecutionJob(inv, _, _) => task.Execution? && task.inv == inv
    case ReplyJob(_) => task.Reply?
  }

  ghost predicate Owned(tasks: map<nat, Task>, jobs: map<nat, Job>, nextTask: nat) {
    && tasks.Keys == jobs.Keys
    && (forall id :: id in jobs ==> id < nextTask && Matches(jobs[id], tasks[id]))
  }

  /** No invocation has two executions. */
  ghost predicate OneEach(jobs: map<nat, Job>) {
    forall a, b :: a in jobs && b in jobs && a != b && jobs[a].ExecutionJob? && jobs[b].ExecutionJob? ==>
      jobs[a].inv != jobs[b].inv
  }

  /** Task ids are job keys, and each job owns a task of its kind. */
  ghost predicate Tables(tasks: map<nat, Task>, jobs: map<nat, Job>, nextTask: nat) {
    Owned(tasks, jobs, nextTask) && OneEach(jobs)
  }

  predicate HasPermit(t: Task) {
    t.Execution? && (t.phase.Working? || t.phase.Unguarded?)
  }

  predicate IsWorking(t: Task) {
    t.Execution? && t.phase.Working?
  }

  predicate ReplyEnded(t: Task) {
    t.Reply? && t.end.Some?
  }

  predicate IsTerminating(b: bool) { b }

  predicate IsRunning(b: bool) { !b }

  /** Permits: in the semaphore, in the dispatcher's hand, or with an execution that has not released. */
  ghost predicate Permits(max: nat, free: nat, tasks: map<nat, Task>, inHand: nat) {
    free + Count(tasks, HasPermit) + inHand == max
  }

  /** A guard exists exactly while its execution works, and a running one was not cancelled. */
  ghost predicate Guards(guards: map<nat, bool>, tasks: map<nat, Task>, cancelled: set<nat>) {
    && |guards| == Count(tasks, IsWorking)
    && (forall id :: id in tasks && IsWorking(tasks[id]) ==> tasks[id].inv in guards)
    && (forall inv :: inv in guards && !guards[inv] ==> inv !in cancelled)
  }

  /** The counters say what is there, and no decrement ever found a zero. */
  ghost predicate Counted(m: Counts, max: nat, tasks: map<nat, Task>, jobs: map<nat, Job>, guards: map<nat, bool>) {
    && m.tracked == |jobs|
    && m.uncollected == Count(tasks, ReplyEnded)
    && m.running == Count(guards, IsRunning)
    && m.terminating == Count(guards, IsTerminating)
    && m.started == m.reaped + |jobs|
    && m.finished == m.reaped + m.uncollected
    && m.errors == 0 && m.executionBreaches == 0 && m.trackedBreaches == 0 && m.afterStop == 0
    && m.executionLimit == max && m.taskLimit == max
  }

  ghost predicate Distinct(queue: seq<nat>) {
    forall i, j :: 0 <= i < j < |queue| ==> queue[i] != queue[j]
  }

  /** Waiting messages were never admitted nor drained; drained ones are cancelled and never admitted. */
  ghost predicate Waiting(queue: seq<nat>, nextInv: nat, cancelled: set<nat>, h: History) {
    && Distinct(queue)
    && (forall i :: i in queue ==> i < nextInv && i !in h.admitted && i !in h.drained)
    && (forall i :: i in h.admitted ==> i < nextInv)
    && (forall i :: i in h.drained ==> i < nextInv && i in cancelled && i !in h.admitted)
  }

  predicate Runs(job: Job, inv: nat) {
    job.ExecutionJob? && job.inv == inv
  }

  /** A revoked execution is in the table, revoked, or was reaped as cancelled, once; never answered. */
  ghost predicate Authority(jobs: map<nat, Job>, guards: map<nat, bool>, cancelled: set<nat>, h: History, epoch: nat) {
    && (forall id :: id in jobs && jobs[id].ExecutionJob? ==>
          && jobs[id].inv in h.admitted
          && (jobs[id].revoked <==> jobs[id].inv in h.revoked)
          && (jobs[id].revoked ==> jobs[id].inv in cancelled && h.reapedRevoked[jobs[id].inv] == 0)
          && (!jobs[id].revoked ==> jobs[id].epoch == epoch))
    && guards.Keys <= h.admitted
    && h.revoked <= h.admitted
    && (forall i :: h.reapedRevoked[i] <= 1)
    && (forall i :: i in h.revoked && h.reapedRevoked[i] == 0 ==> exists id :: id in jobs && Runs(jobs[id], i))
    && (forall i :: h.reapedRevoked[i] > 0 ==> i in h.revoked)
  }

  ghost predicate Answered(jobs: map<nat, Job>, h: History) {
    forall a :: a in h.answers ==>
      && a.epoch == a.seen && a.inv in h.admitted && a.inv !in h.revoked
      && forall id :: id in jobs ==> !Runs(jobs[id], a.inv)
  }

  /** Everything but the program counter: `held` messages and `inHand` permits are with the dispatcher. */
  ghost predicate Core(s: State, held: nat, inHand: nat, epoch: nat) {
    && Tables(s.tasks, s.jobs, s.nextTask)
    && |s.jobs| + held <= s.max
    && Permits(s.max, s.free, s.tasks, inHand)
    && Guards(s.guards, s.tasks, s.cancelled)
    && Counted(s.m, s.max, s.tasks, s.jobs, s.guards)
    && s.m.queued == |s.queue| + held
    && Waiting(s.queue, s.nextInv, s.cancelled, s.h)
    && Authority(s.jobs, s.guards, s.cancelled, s.h, epoch)
    && Answered(s.jobs, s.h)
    && s.faults == 0
  }

  predicate Holds(pc: Pc) {
    pc.Taken? || pc.Acquire? || pc.AcquirePolled? || pc.Permitted? || pc.Expired?
  }

  predicate Stopping(pc: Pc) {
    pc.Closing? || pc.Draining? || pc.Done?
  }

  /** The message in the dispatcher's hand left the queue and has no fate yet. */
  ghost predicate InHand(inv: nat, queue: seq<nat>, nextInv: nat, h: History) {
    inv < nextInv && inv !in queue && inv !in h.admitted && inv !in h.drained
  }

  ghost predicate Control(s: State) {
    && (Holds(s.pc) ==> InHand(s.pc.inv, s.queue, s.nextInv, s.h))
    && (s.m.stopped <==> Stopping(s.pc))
    && (s.pc.Draining? || s.pc.Done? ==> s.queue == [] && !s.intakeOpen)
    && (s.pc.Done? ==> s.tasks == map[])
    && s.seen <= s.version
  }

  function HeldBy(pc: Pc): nat { if Holds(pc) then 1 else 0 }

  function PermitBy(pc: Pc): nat { if pc.Permitted? then 1 else 0 }

  ghost predicate Invariant(s: State) {
    Core(s, HeldBy(s.pc), PermitBy(s.pc), s.seen) && Control(s)
  }

  lemma InitHolds(max: nat, capacity: nat)
    ensures Invariant(Init(max, capacity))
  {
  }

  // ------------------------------------------------------------ building blocks

  /** Cancelling moves at most one guard, once. */
  lemma CancelCounts(s: State, inv: nat)
    requires inv in s.guards
    requires Counted(s.m, s.max, s.tasks, s.jobs, s.guards) && Guards(s.guards, s.tasks, s.cancelled)
    ensures var c := Cancel(s, inv);
      Counted(c.m, c.max, c.tasks, c.jobs, c.guards) && Guards(c.guards, c.tasks, c.cancelled)
  {
    CountReplace(s.guards, inv, true, IsRunning);
    CountReplace(s.guards, inv, true, IsTerminating);
    if !s.guards[inv] {
      CountPositive(s.guards, inv, IsRunning);
    }
    assert s.guards[inv := true].Keys == s.guards.Keys;
    assert |s.guards[inv := true]| == |s.guards[inv := true].Keys|;
    assert |s.guards| == |s.guards.Keys|;
  }

  /** Setting a flag undoes nothing that was said about flags. */
  lemma FlagKeeps(s: State, inv: nat, epoch: nat, guards: map<nat, bool>)
    requires Waiting(s.queue, s.nextInv, s.cancelled, s.h) && Authority(s.jobs, s.guards, s.cancelled, s.h, epoch)
    requires guards.Keys == s.guards.Keys
    ensures Waiting(s.queue, s.nextInv, s.cancelled + {inv}, s.h)
    ensures Authority(s.jobs, guards, s.cancelled + {inv}, s.h, epoch)
  {
  }

  lemma CancelKeeps(s: State, inv: nat, held: nat, inHand: nat, epoch: nat)
    requires Core(s, held, inHand, epoch)
    ensures Core(Cancel(s, inv), held, inHand, epoch)
    ensures var c := Cancel(s, inv);
      && c == s.(cancelled := c.cancelled, guards := c.guards, m := c.m)
      && c.cancelled == s.cancelled + {inv} && c.m.stopped == s.m.stopped && c.m.queued == s.m.queued
  {
    hide Tables, Permits, Waiting, Authority, Answered;
    FlagKeeps(s, inv, epoch, Cancel(s, inv).guards);
    if inv in s.guards {
      CancelCounts(s, inv);
    }
  }

  lemma DropQueuedKeeps(s: State, held: nat, inHand: nat, epoch: nat)
    requires Core(s, held + 1, inHand, epoch)
    ensures Core(s.(m := DropQueued(s.m)), held, inHand, epoch)
    ensures DropQueued(s.m) == s.m.(queued := s.m.queued - 1)
  {
    hide Tables, Permits, Guards, Waiting, Authority, Answered;
  }

  lemma DiscardKeeps(s: State, inv: nat, held: nat, inHand: nat, epoch: nat)
    requires Core(s, held + 1, inHand, epoch)
    ensures Core(Discard(s, inv), held, inHand, epoch)
    ensures var d := Discard(s, inv);
      && d == s.(cancelled := d.cancelled, guards := d.guards, m := d.m)
      && d.cancelled == s.cancelled + {inv} && d.m.stopped == s.m.stopped
  {
    CancelKeeps(s, inv, held + 1, inHand, epoch);
    DropQueuedKeeps(Cancel(s, inv), held, inHand, epoch);
    hide Core, Cancel;
  }

  /** The program counter is not part of the core. */
  lemma CoreIgnoresPc(s: State, pc: Pc, held: nat, inHand: nat, epoch: nat)
    requires Core(s, held, inHand, epoch)
    ensures Core(s.(pc := pc), held, inHand, epoch)
  {
    hide Tables, Permits, Guards, Counted, Waiting, Authority, Answered;
  }

  // ------------------------------------------------------------ revocation

  predicate IsRevoked(job: Job) {
    job.ExecutionJob? ==> job.revoked
  }

  predicate AtMostRevoked(before: Job, after: Job) {
    after == before || (before.ExecutionJob? && after == before.(revoked := true))
  }

  ghost predicate Fields(s: State, r: State) {
    && r.max == s.max && r.pc == s.pc && r.intakeOpen == s.intakeOpen && r.synced == s.synced
    && r.version == s.version && r.seen == s.seen && r.nextInv == s.nextInv && r.m.stopped == s.m.stopped
  }

  /** Revoking changes flags, guards, marks and history, and no more. */
  ghost predicate OnlyRevokes(s: State, r: State) {
    && Fields(s, r) && r.queue == s.queue
    && r.jobs.Keys == s.jobs.Keys
    && (forall i :: i in s.jobs && i in r.jobs ==> AtMostRevoked(s.jobs[i], r.jobs[i]))
    && r.h.admitted == s.h.admitted && r.h.drained == s.h.drained && r.h.answers == s.h.answers
  }

  ghost predicate AllRevoked(jobs: map<nat, Job>, order: seq<nat>) {
    forall i :: i in order && i in jobs ==> IsRevoked(jobs[i])
  }

  lemma OnlyRevokesTransitive(a: State, b: State, c: State)
    requires OnlyRevokes(a, b) && OnlyRevokes(b, c)
    ensures OnlyRevokes(a, c)
  {
  }

  lemma MarkedTables(s: State, id: nat)
    requires Tables(s.tasks, s.jobs, s.nextTask) && id in s.jobs && s.jobs[id].ExecutionJob?
    ensures var jobs := s.jobs[id := s.jobs[id].(revoked := true)];
      Tables(s.tasks, jobs, s.nextTask) && |jobs| == |s.jobs|
  {
  }

  lemma MarkedAnswers(s: State, id: nat)
    requires Answered(s.jobs, s.h) && id in s.jobs && s.jobs[id].ExecutionJob?
    ensures var job := s.jobs[id];
      Answered(s.jobs[id := job.(revoked := true)], s.h.(revoked := s.h.revoked + {job.inv}))
  {
  }

  lemma MarkedAuthority(s: State, id: nat, epoch: nat)
    requires Tables(s.tasks, s.jobs, s.nextTask) && Authority(s.jobs, s.guards, s.cancelled, s.h, epoch)
    requires id in s.jobs && s.jobs[id].ExecutionJob? && s.jobs[id].inv in s.cancelled
    ensures var job := s.jobs[id];
      Authority(s.jobs[id := job.(revoked := true)], s.guards, s.cancelled, s.h.(revoked := s.h.revoked + {job.inv}),
        epoch)
  {
    var job := s.jobs[id];
    var jobs := s.jobs[id := job.(revoked := true)];
    var h := s.h.(revoked := s.h.revoked + {job.inv});
    forall i | i in h.revoked && h.reapedRevoked[i] == 0
      ensures exists k :: k in jobs && Runs(jobs[k], i)
    {
      if i == job.inv {
        assert Runs(jobs[id], i);
      } else {
        var k :| k in s.jobs && Runs(s.jobs[k], i);
        assert Runs(jobs[k], i);
      }
    }
  }

  lemma MarkRevoked(s: State, id: nat, held: nat, inHand: nat, epoch: nat)
    requires Core(s, held, inHand, epoch) && id in s.jobs && s.jobs[id].ExecutionJob? && s.jobs[id].inv in s.cancelled
    ensures var job := s.jobs[id];
      Core(s.(jobs := s.jobs[id := job.(revoked := true)], h := s.h.(revoked := s.h.revoked + {job.inv})), held, inHand,
        epoch)
  {
    hide Tables, Permits, Guards, Authority, Answered;
    MarkedTables(s, id);
    MarkedAuthority(s, id, epoch);
    MarkedAnswers(s, id);
  }

  /** A task that moves on still belongs to its job. */
  lemma MovedTables(s: State, id: nat, t: Task)
    requires Tables(s.tasks, s.jobs, s.nextTask) && id in s.tasks
    requires t.Execution? == s.tasks[id].Execution? && (t.Execution? ==> t.inv == s.tasks[id].inv)
    ensures Tables(s.tasks[id := t], s.jobs, s.nextTask)
  {
  }

  lemma MovedCounts(tasks: map<nat, Task>, id: nat, t: Task)
    requires id in tasks
    ensures Count(tasks[id := t], HasPermit) + (if HasPermit(tasks[id]) then 1 else 0) ==
      Count(tasks, HasPermit) + if HasPermit(t) then 1 else 0
    ensures Count(tasks[id := t], IsWorking) + (if IsWorking(tasks[id]) then 1 else 0) ==
      Count(tasks, IsWorking) + if IsWorking(t) then 1 else 0
    ensures Count(tasks[id := t], ReplyEnded) + (if ReplyEnded(tasks[id]) then 1 else 0) ==
      Count(tasks, ReplyEnded) + if ReplyEnded(t) then 1 else 0
  {
    CountReplace(tasks, id, t, HasPermit);
    CountReplace(tasks, id, t, IsWorking);
    CountReplace(tasks, id, t, ReplyEnded);
  }

  /** A step of a task that touches neither guards nor counters other than its own. */
  lemma MoveKeeps(s: State, id: nat, t: Task, free: nat, m: Counts, held: nat, inHand: nat, epoch: nat)
    requires Core(s, held, inHand, epoch) && id in s.tasks
    requires t.Execution? == s.tasks[id].Execution? && (t.Execution? ==> t.inv == s.tasks[id].inv)
    requires IsWorking(t) == IsWorking(s.tasks[id])
    requires free == s.free + (if HasPermit(s.tasks[id]) then 1 else 0) - (if HasPermit(t) then 1 else 0)
    requires if ReplyEnded(t) && !ReplyEnded(s.tasks[id]) then m == DropRecord(s.m)
             else m == s.m && ReplyEnded(t) == ReplyEnded(s.tasks[id])
    ensures Core(s.(tasks := s.tasks[id := t], free := free, m := m), held, inHand, epoch)
  {
    hide Tables, Waiting, Answered, Authority;
    MovedTables(s, id, t);
    MovedCounts(s.tasks, id, t);
  }

  lemma AbortKeeps(s: State, id: nat, held: nat, inHand: nat, epoch: nat)
    requires Core(s, held, inHand, epoch) && id in s.tasks && s.tasks[id].Reply?
    ensures Core(s.(tasks := s.tasks[id := s.tasks[id].(aborted := true)]), held, inHand, epoch)
  {
    hide Core;
    MoveKeeps(s, id, s.tasks[id].(aborted := true), s.free, s.m, held, inHand, epoch);
  }

  lemma OwnsTask(s: State, id: nat, held: nat, inHand: nat, epoch: nat)
    requires Core(s, held, inHand, epoch)
    ensures id in s.jobs <==> id in s.tasks
    ensures id in s.jobs ==> Matches(s.jobs[id], s.tasks[id])
  {
    hide Permits, Guards, Counted, Waiting, Authority, Answered;
  }

  lemma RevokeExecution(s: State, id: nat, held: nat, inHand: nat, epoch: nat)
    requires Core(s, held, inHand, epoch) && id in s.jobs && id in s.tasks && s.jobs[id].ExecutionJob?
    ensures Core(RevokeJob(s, id), held, inHand, epoch) && OnlyRevokes(s, RevokeJob(s, id))
    ensures AllRevoked(RevokeJob(s, id).jobs, [id])
  {
    hide Core, Terminating;
    var job := s.jobs[id];
    CancelKeeps(s, job.inv, held, inHand, epoch);
    var c := Cancel(s, job.inv);
    MarkRevoked(c, id, held, inHand, epoch);
    assert RevokeJob(s, id) ==
      c.(jobs := c.jobs[id := job.(revoked := true)], h := c.h.(revoked := c.h.revoked + {job.inv}));
  }

  lemma RevokeJobKeeps(s: State, id: nat, held: nat, inHand: nat, epoch: nat)
    requires Core(s, held, inHand, epoch)
    ensures Core(RevokeJob(s, id), held, inHand, epoch) && OnlyRevokes(s, RevokeJob(s, id))
    ensures AllRevoked(RevokeJob(s, id).jobs, [id])
  {
    OwnsTask(s, id, held, inHand, epoch);
    if id in s.jobs && s.jobs[id].ExecutionJob? {
      RevokeExecution(s, id, held, inHand, epoch);
    } else if id in s.jobs {
      AbortKeeps(s, id, held, inHand, epoch);
      hide Core;
    }
  }

  lemma StillRevoked(r: State, t: State, order: seq<nat>)
    requires order != [] && OnlyRevokes(r, t)
    requires AllRevoked(r.jobs, order[..|order| - 1]) && AllRevoked(t.jobs, [order[|order| - 1]])
    ensures AllRevoked(t.jobs, order)
  {
  }

  lemma {:induction false} RevokeJobsKeeps(s: State, order: seq<nat>, held: nat, inHand: nat, epoch: nat)
    requires Core(s, held, inHand, epoch)
    ensures Core(RevokeJobs(s, order), held, inHand, epoch) && OnlyRevokes(s, RevokeJobs(s, order))
    ensures AllRevoked(RevokeJobs(s, order).jobs, order)
    decreases |order|
  {
    hide Core, RevokeJob;
    if order != [] {
      var n := |order| - 1;
      RevokeJobsKeeps(s, order[..n], held, inHand, epoch);
      var r := RevokeJobs(s, order[..n]);
      RevokeJobKeeps(r, order[n], held, inHand, epoch);
      StillRevoked(r, RevokeJob(r, order[n]), order);
      OnlyRevokesTransitive(s, r, RevokeJob(r, order[n]));
    }
  }

  /** With every execution revoked, the epoch says nothing any more. */
  lemma EpochForgotten(s: State, held: nat, inHand: nat, epoch: nat, other: nat)
    requires Core(s, held, inHand, epoch)
    requires forall id :: id in s.jobs ==> IsRevoked(s.jobs[id])
    ensures Core(s, held, inHand, other)
  {
    hide Tables, Permits, Guards, Counted, Waiting, Answered;
  }

  lemma WaitingTail(s: State)
    requires Waiting(s.queue, s.nextInv, s.cancelled, s.h) && s.queue != []
    ensures InHand(s.queue[0], s.queue[1..], s.nextInv, s.h)
    ensures Waiting(s.queue[1..], s.nextInv, s.cancelled, s.h)
    ensures s.queue[0] in s.cancelled ==>
      Waiting(s.queue[1..], s.nextInv, s.cancelled, s.h.(drained := s.h.drained + {s.queue[0]}))
  {
    assert s.queue[0] in s.queue;
    assert forall i :: i in s.queue[1..] ==> i in s.queue;
  }

  lemma TakeHead(s: State, inHand: nat, epoch: nat)
    requires Core(s, 0, inHand, epoch) && s.queue != [] && |s.jobs| < s.max
    ensures Core(s.(queue := s.queue[1..]), 1, inHand, epoch)
    ensures InHand(s.queue[0], s.queue[1..], s.nextInv, s.h)
  {
    hide Tables, Permits, Guards, Counted, Authority, Answered, Waiting;
    WaitingTail(s);
  }

  lemma DrainedIsHistory(s: State, drained: set<nat>, epoch: nat)
    requires Authority(s.jobs, s.guards, s.cancelled, s.h, epoch) && Answered(s.jobs, s.h)
    ensures Authority(s.jobs, s.guards, s.cancelled, s.h.(drained := drained), epoch)
    ensures Answered(s.jobs, s.h.(drained := drained))
  {
  }

  /** A cancelled head may leave the queue as drained. */
  lemma DrainHead(s: State, held: nat, inHand: nat, epoch: nat)
    requires Core(s, held, inHand, epoch) && s.queue != [] && s.queue[0] in s.cancelled
    ensures Core(s.(queue := s.queue[1..], m := DropQueued(s.m), h := s.h.(drained := s.h.drained + {s.queue[0]})),
      held, inHand, epoch)
    ensures DropQueued(s.m) == s.m.(queued := s.m.queued - 1)
  {
    hide Tables, Permits, Guards, Authority, Answered, Waiting;
    WaitingTail(s);
    DrainedIsHistory(s, s.h.drained + {s.queue[0]}, epoch);
  }

  ghost predicate Drains(s: State, r: State) {
    && Fields(s, r) && r.jobs == s.jobs && r.tasks == s.tasks
    && r.h == s.h.(drained := r.h.drained)
    && s.h.drained <= r.h.drained && s.cancelled <= r.cancelled
  }

  /** One message of the draining loop. */
  lemma DrainOneKeeps(s: State, held: nat, inHand: nat, epoch: nat)
    requires Core(s, held, inHand, epoch) && s.queue != []
    ensures Core(DrainOne(s), held, inHand, epoch) && Drains(s, DrainOne(s))
    ensures s.queue[0] in DrainOne(s).h.drained && s.queue[0] in DrainOne(s).cancelled
  {
    var head := s.queue[0];
    CancelKeeps(s, head, held, inHand, epoch);
    var c := Cancel(s, head);
    DrainHead(c, held, inHand, epoch);
    hide Core;
    assert DrainOne(s) == c.(queue := s.queue[1..], m := DropQueued(c.m), h := c.h.(drained := c.h.drained + {head}));
  }

  ghost predicate AllDrained(queue: seq<nat>, r: State) {
    forall i :: i in queue ==> i in r.h.drained && i in r.cancelled
  }

  lemma DrainsChain(s: State, next: State, r: State)
    requires s.queue != [] && next.queue == s.queue[1..] && Drains(s, next) && Drains(next, r)
    requires s.queue[0] in next.h.drained && s.queue[0] in next.cancelled && AllDrained(next.queue, r)
    ensures Drains(s, r) && AllDrained(s.queue, r)
  {
  }

  lemma {:induction false} DrainMessagesKeeps(s: State, held: nat, inHand: nat, epoch: nat)
    requires Core(s, held, inHand, epoch)
    ensures Core(DrainMessages(s), held, inHand, epoch) && Drains(s, DrainMessages(s))
    ensures DrainMessages(s).queue == [] && AllDrained(s.queue, DrainMessages(s))
    decreases |s.queue|
  {
    if s.queue != [] {
      DrainOneKeeps(s, held, inHand, epoch);
      hide Core, DrainOne;
      var next := DrainOne(s);
      DrainMessagesKeeps(next, held, inHand, epoch);
      hide DrainMessages;
      DrainsChain(s, next, DrainMessages(next));
    }
  }

  /** After cancel_untrusted_work no execution is unrevoked and no message waits. */
  lemma RevocationKeeps(s: State, order: seq<nat>, held: nat, inHand: nat, epoch: nat, other: nat)
    requires Core(s, held, inHand, epoch) && Enumerates(order, s.jobs)
    ensures var r := CancelUntrustedWork(s, order);
      && Core(r, held, inHand, other) && Fields(s, r) && r.queue == []
      && AllRevoked(r.jobs, order) && Enumerates(order, r.jobs) && AllDrained(s.queue, r)
  {
    RevokeJobsKeeps(s, order, held, inHand, epoch);
    var r := RevokeJobs(s, order);
    hide RevokeJobs, DrainMessages, Core;
    assert Enumerates(order, r.jobs);
    EpochForgotten(r, held, inHand, epoch, other);
    DrainMessagesKeeps(r, held, inHand, other);
  }
}
