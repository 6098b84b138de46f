/** Every step of the supervisor keeps its invariant. */
module SupervisorSteps {
  import opened Basics
  import opened Counting
  import opened DispatchMetrics
  import opened Supervisor
  import opened SupervisorSafety

  // ------------------------------------------------------------ tasks

  /** The guard goes with its execution; other executions have other guards. */
  lemma UnguardedGuards(s: State, id: nat, panicked: bool)
    requires Tables(s.tasks, s.jobs, s.nextTask) && Guards(s.guards, s.tasks, s.cancelled)
    requires id in s.tasks && IsWorking(s.tasks[id])
    ensures var inv := s.tasks[id].inv;
      && inv in s.guards
      && Guards(s.guards - {inv}, s.tasks[id := Execution(inv, Unguarded(panicked))], s.cancelled)
      && |s.guards - {inv}| == |s.guards| - 1
  {
    var inv := s.tasks[id].inv;
    var guards, tasks := s.guards - {inv}, s.tasks[id := Execution(inv, Unguarded(panicked))];
    CountReplace(s.tasks, id, tasks[id], IsWorking);
    assert guards.Keys == s.guards.Keys - {inv};
    assert |guards| == |guards.Keys| && |s.guards| == |s.guards.Keys|;
    forall k | k in tasks && IsWorking(tasks[k])
      ensures tasks[k].inv in guards
    {
      assert k != id && Matches(s.jobs[k], s.tasks[k]) && Matches(s.jobs[id], s.tasks[id]);
    }
  }

  lemma UnguardedCounts(s: State, id: nat, panicked: bool)
    requires Counted(s.m, s.max, s.tasks, s.jobs, s.guards) && id in s.tasks && IsWorking(s.tasks[id])
    requires s.tasks[id].inv in s.guards
    ensures var inv := s.tasks[id].inv;
      var m := DropExecution(s.m, s.guards[inv]);
      && Counted(m, s.max, s.tasks[id := Execution(inv, Unguarded(panicked))], s.jobs, s.guards - {inv})
      && m.queued == s.m.queued && m.stopped == s.m.stopped
  {
    var inv := s.tasks[id].inv;
    CountDrop(s.guards, inv, IsRunning);
    CountDrop(s.guards, inv, IsTerminating);
    MovedCounts(s.tasks, id, Execution(inv, Unguarded(panicked)));
  }

  lemma UnguardKeeps(s: State, id: nat, panicked: bool, held: nat, inHand: nat, epoch: nat)
    requires Core(s, held, inHand, epoch) && id in s.tasks && IsWorking(s.tasks[id]) && s.tasks[id].inv in s.guards
    ensures var inv := s.tasks[id].inv;
      var r := s.(tasks := s.tasks[id := Execution(inv, Unguarded(panicked))], guards := s.guards - {inv},
                  m := DropExecution(s.m, s.guards[inv]));
      Core(r, held, inHand, epoch) && r.m.stopped == s.m.stopped
  {
    var inv := s.tasks[id].inv;
    hide Tables, Guards, Counted, Waiting, Answered, Count, DropExecution;
    MovedTables(s, id, Execution(inv, Unguarded(panicked)));
    UnguardedGuards(s, id, panicked);
    UnguardedCounts(s, id, panicked);
    MovedCounts(s.tasks, id, Execution(inv, Unguarded(panicked)));
  }

  lemma DropGuardKeeps(s: State, id: nat, panicked: bool)
    requires Invariant(s)
    ensures Invariant(RunTask(s, DropGuard(id, panicked)))
  {
    hide Core, DropExecution;
    if id in s.tasks && IsWorking(s.tasks[id]) && s.tasks[id].inv in s.guards {
      if panicked {
        CancelKeeps(s, s.tasks[id].inv, HeldBy(s.pc), PermitBy(s.pc), s.seen);
        UnguardKeeps(Cancel(s, s.tasks[id].inv), id, true, HeldBy(s.pc), PermitBy(s.pc), s.seen);
        hide Terminating;
      } else {
        UnguardKeeps(s, id, false, HeldBy(s.pc), PermitBy(s.pc), s.seen);
      }
    }
  }

  lemma DropPermitKeeps(s: State, id: nat)
    requires Invariant(s)
    ensures Invariant(RunTask(s, DropPermit(id)))
  {
    hide Core;
    if id in s.tasks && s.tasks[id].Execution? && s.tasks[id].phase.Unguarded? {
      MoveKeeps(s, id, Execution(s.tasks[id].inv, Released(s.tasks[id].phase.panicked)), s.free + 1, s.m,
                HeldBy(s.pc), PermitBy(s.pc), s.seen);
    }
  }

  /** An execution ends, after its invocation was cancelled or not. */
  lemma EndsAs(s: State, id: nat, completion: Completion)
    requires Invariant(s) && id in s.tasks && s.tasks[id].Execution? && s.tasks[id].phase.Released?
    ensures Invariant(s.(tasks := s.tasks[id := Execution(s.tasks[id].inv, Exited(completion))]))
  {
    hide Core;
    MoveKeeps(s, id, Execution(s.tasks[id].inv, Exited(completion)), s.free, s.m, HeldBy(s.pc), PermitBy(s.pc), s.seen);
  }

  lemma CancelInvariant(s: State, inv: nat)
    requires Invariant(s)
    ensures Invariant(Cancel(s, inv)) && Cancel(s, inv).tasks == s.tasks
  {
    hide Core;
    CancelKeeps(s, inv, HeldBy(s.pc), PermitBy(s.pc), s.seen);
    hide Cancel;
  }

  lemma ExecutionEndsKeeps(s: State, id: nat, ok: bool, late: bool, expired: bool)
    requires Invariant(s)
    ensures Invariant(RunTask(s, ExecutionEnds(id, ok, late, expired)))
  {
    hide Invariant, Cancel;
    if id in s.tasks && s.tasks[id].Execution? && s.tasks[id].phase.Released? {
      var inv := s.tasks[id].inv;
      if s.tasks[id].phase.panicked {
        EndsAs(s, id, Panicked);
      } else if inv in s.cancelled || late {
        CancelInvariant(s, inv);
        EndsAs(Cancel(s, inv), id, Finished(ok, true, late || expired));
      } else {
        EndsAs(s, id, Finished(ok, false, late || expired));
      }
    }
  }

  lemma ReplyEndsKeeps(s: State, id: nat, end: JoinEnd)
    requires Invariant(s)
    ensures Invariant(RunTask(s, ReplyEnds(id, end)))
  {
    hide Core;
    if id in s.tasks && s.tasks[id].Reply? && s.tasks[id].end.None? {
      MoveKeeps(s, id, s.tasks[id].(end := Some(end)), s.free, DropRecord(s.m), HeldBy(s.pc), PermitBy(s.pc), s.seen);
    }
  }

  lemma TaskKeeps(s: State, e: Event)
    requires Invariant(s) && IsTaskEvent(e)
    ensures Invariant(RunTask(s, e))
  {
    hide Invariant, RunTask;
    match e
    case DropGuard(id, panicked) => DropGuardKeeps(s, id, panicked);
    case DropPermit(id) => DropPermitKeeps(s, id);
    case ExecutionEnds(id, ok, late, expired) => ExecutionEndsKeeps(s, id, ok, late, expired);
    case ReplyEnds(id, end) => ReplyEndsKeeps(s, id, end);
  }

  // ------------------------------------------------------------ the outside

  lemma WaitingMore(s: State)
    requires Waiting(s.queue, s.nextInv, s.cancelled, s.h)
    ensures Waiting(s.queue + [s.nextInv], s.nextInv + 1, s.cancelled, s.h)
  {
    var queue := s.queue + [s.nextInv];
    forall i, j | 0 <= i < j < |queue|
      ensures queue[i] != queue[j]
    {
      assert queue[i] == s.queue[i] && s.queue[i] in s.queue;
    }
    assert forall i :: i in queue ==> i in s.queue || i == s.nextInv;
  }

  lemma SendKeeps(s: State)
    requires Invariant(s)
    ensures Invariant(Outside(s, Send))
  {
    hide Tables, Guards, Waiting, Authority, Answered, Permits;
    WaitingMore(s);
  }

  lemma SignalKeeps(s: State, e: Event)
    requires Invariant(s) && (e.IntakeEnds? || e.Change?)
    ensures Invariant(Outside(s, e))
  {
    hide Tables, Guards, Waiting, Authority, Answered, Permits, Counted, Cancel, Queued;
  }

  lemma OutsideKeeps(s: State, e: Event)
    requires Invariant(s) && IsOutsideEvent(e)
    ensures Invariant(Outside(s, e))
  {
    match e
    case Send => SendKeeps(s);
    case CancelInvocation(inv) =>
      CancelKeeps(s, inv, HeldBy(s.pc), PermitBy(s.pc), s.seen);
      hide Core;
    case _ => SignalKeeps(s, e);
  }

  // ------------------------------------------------------------ collecting

  lemma RemovedCounts(tasks: map<nat, Task>, id: nat)
    requires id in tasks
    ensures Count(tasks, HasPermit) == Count(tasks - {id}, HasPermit) + if HasPermit(tasks[id]) then 1 else 0
    ensures Count(tasks, IsWorking) == Count(tasks - {id}, IsWorking) + if IsWorking(tasks[id]) then 1 else 0
    ensures Count(tasks, ReplyEnded) == Count(tasks - {id}, ReplyEnded) + if ReplyEnded(tasks[id]) then 1 else 0
  {
    CountDrop(tasks, id, HasPermit);
    CountDrop(tasks, id, IsWorking);
    CountDrop(tasks, id, ReplyEnded);
  }

  lemma AddedCounts(tasks: map<nat, Task>, id: nat, t: Task)
    requires id !in tasks
    ensures Count(tasks[id := t], HasPermit) == Count(tasks, HasPermit) + if HasPermit(t) then 1 else 0
    ensures Count(tasks[id := t], IsWorking) == Count(tasks, IsWorking) + if IsWorking(t) then 1 else 0
    ensures Count(tasks[id := t], ReplyEnded) == Count(tasks, ReplyEnded) + if ReplyEnded(t) then 1 else 0
  {
    CountAdd(tasks, id, t, HasPermit);
    CountAdd(tasks, id, t, IsWorking);
    CountAdd(tasks, id, t, ReplyEnded);
  }

  lemma RemovedTables(s: State, id: nat)
    requires Tables(s.tasks, s.jobs, s.nextTask) && id in s.jobs
    ensures Tables(s.tasks - {id}, s.jobs - {id}, s.nextTask)
    ensures |s.jobs - {id}| == |s.jobs| - 1 && id in s.tasks && Matches(s.jobs[id], s.tasks[id])
    ensures s.jobs[id].ExecutionJob? ==> forall k :: k in s.jobs - {id} ==> !Runs(s.jobs[k], s.jobs[id].inv)
  {
  }

  lemma RemovedGuards(s: State, id: nat)
    requires Guards(s.guards, s.tasks, s.cancelled) && id in s.tasks && !IsWorking(s.tasks[id])
    ensures Guards(s.guards, s.tasks - {id}, s.cancelled)
  {
    RemovedCounts(s.tasks, id);
  }

  /** An unrevoked execution, or a reply, leaves no trace in the authority history. */
  lemma RemovedAuthority(s: State, id: nat, epoch: nat)
    requires Authority(s.jobs, s.guards, s.cancelled, s.h, epoch) && id in s.jobs
    requires s.jobs[id].ExecutionJob? ==> !s.jobs[id].revoked
    ensures Authority(s.jobs - {id}, s.guards, s.cancelled, s.h, epoch)
  {
    forall i | i in s.h.revoked && s.h.reapedRevoked[i] == 0
      ensures exists k :: k in s.jobs - {id} && Runs((s.jobs - {id})[k], i)
    {
      var k :| k in s.jobs && Runs(s.jobs[k], i);
      assert k != id;
      assert Runs((s.jobs - {id})[k], i);
    }
  }

  /** A revoked execution is reaped once. */
  lemma ReapedAuthority(s: State, id: nat, epoch: nat)
    requires Tables(s.tasks, s.jobs, s.nextTask) && Authority(s.jobs, s.guards, s.cancelled, s.h, epoch)
    requires id in s.jobs && s.jobs[id].ExecutionJob? && s.jobs[id].revoked
    ensures Authority(s.jobs - {id}, s.guards, s.cancelled,
      s.h.(reapedRevoked := s.h.reapedRevoked + multiset{s.jobs[id].inv}), epoch)
  {
    RemovedTables(s, id);
    hide Tables;
    var jobs := s.jobs - {id};
    assert forall k :: k in jobs && jobs[k].ExecutionJob? ==> jobs[k].inv != s.jobs[id].inv by {
      forall k | k in jobs && jobs[k].ExecutionJob? ensures jobs[k].inv != s.jobs[id].inv {
        assert !Runs(jobs[k], s.jobs[id].inv);
      }
    }
    forall i | i in s.h.revoked && i != s.jobs[id].inv && s.h.reapedRevoked[i] == 0
      ensures exists k :: k in jobs && Runs(jobs[k], i)
    {
      var k :| k in s.jobs && Runs(s.jobs[k], i);
      assert k in jobs && Runs(jobs[k], i);
    }
  }

  /** The counters after a reply was reaped. */
  lemma ReplyReaped(s: State, id: nat)
    requires Counted(s.m, s.max, s.tasks, s.jobs, s.guards) && id in s.tasks && ReplyEnded(s.tasks[id])
    requires |s.jobs - {id}| == |s.jobs| - 1
    ensures Counted(TaskReaped(s.m), s.max, s.tasks - {id}, s.jobs - {id}, s.guards)
    ensures TaskReaped(s.m).stopped == s.m.stopped && TaskReaped(s.m).queued == s.m.queued
  {
    RemovedCounts(s.tasks, id);
  }

  /** The counters after a revoked execution was finished and reaped in one go. */
  lemma RevokedReaped(s: State, id: nat)
    requires Counted(s.m, s.max, s.tasks, s.jobs, s.guards) && id in s.tasks && !ReplyEnded(s.tasks[id])
    requires |s.jobs - {id}| == |s.jobs| - 1
    ensures Counted(TaskReaped(DropRecord(s.m)), s.max, s.tasks - {id}, s.jobs - {id}, s.guards)
    ensures TaskReaped(DropRecord(s.m)).stopped == s.m.stopped && TaskReaped(DropRecord(s.m)).queued == s.m.queued
  {
    RemovedCounts(s.tasks, id);
  }

  lemma RemovedPermits(s: State, id: nat, inHand: nat)
    requires Permits(s.max, s.free, s.tasks, inHand) && id in s.tasks && !HasPermit(s.tasks[id])
    ensures Permits(s.max, s.free, s.tasks - {id}, inHand)
  {
    RemovedCounts(s.tasks, id);
  }

  lemma RemovedAnswers(s: State, id: nat, h: History)
    requires Answered(s.jobs, s.h) && h.answers == s.h.answers && h.admitted == s.h.admitted && h.revoked == s.h.revoked
    ensures Answered(s.jobs - {id}, h)
  {
  }

  lemma ReplyCollected(s: State, id: nat, held: nat, inHand: nat, epoch: nat)
    requires Core(s, held, inHand, epoch) && id in s.jobs && s.jobs[id].ReplyJob? && id in s.tasks && Ended(s.tasks[id])
    ensures Core(s.(tasks := s.tasks - {id}, jobs := s.jobs - {id}, m := TaskReaped(s.m)), held, inHand, epoch)
    ensures TaskReaped(s.m).stopped == s.m.stopped
  {
    hide Tables, Waiting, Authority, Answered, Guards, Permits, Counted, TaskReaped;
    RemovedTables(s, id);
    RemovedGuards(s, id);
    RemovedPermits(s, id, inHand);
    RemovedAuthority(s, id, epoch);
    RemovedAnswers(s, id, s.h);
    ReplyReaped(s, id);
  }

  lemma WaitingIgnoresReaping(s: State, reaped: multiset<nat>, answers: seq<Answer>)
    requires Waiting(s.queue, s.nextInv, s.cancelled, s.h)
    ensures Waiting(s.queue, s.nextInv, s.cancelled, s.h.(reapedRevoked := reaped))
    ensures Waiting(s.queue, s.nextInv, s.cancelled, s.h.(answers := answers))
  {
  }

  lemma RevokedCollected(s: State, id: nat, held: nat, inHand: nat, epoch: nat)
    requires Core(s, held, inHand, epoch) && id in s.jobs && s.jobs[id].ExecutionJob? && s.jobs[id].revoked
    requires id in s.tasks && Ended(s.tasks[id])
    ensures Core(s.(tasks := s.tasks - {id}, jobs := s.jobs - {id}, m := TaskReaped(DropRecord(s.m)),
      h := s.h.(reapedRevoked := s.h.reapedRevoked + multiset{s.jobs[id].inv})), held, inHand, epoch)
    ensures TaskReaped(DropRecord(s.m)).stopped == s.m.stopped
  {
    hide Tables, Waiting, Authority, Answered, Guards, Permits, Counted, TaskReaped, DropRecord;
    RemovedTables(s, id);
    ReapedAuthority(s, id, epoch);
    RemovedGuards(s, id);
    RemovedPermits(s, id, inHand);
    RemovedAnswers(s, id, s.h.(reapedRevoked := s.h.reapedRevoked + multiset{s.jobs[id].inv}));
    WaitingIgnoresReaping(s, s.h.reapedRevoked + multiset{s.jobs[id].inv}, []);
    RevokedReaped(s, id);
  }

  /** A new job takes an unused key; an execution's invocation is not in the table yet. */
  lemma AddedTables(tasks: map<nat, Task>, jobs: map<nat, Job>, next: nat, task: Task, job: Job)
    requires Tables(tasks, jobs, next) && Matches(job, task)
    requires job.ExecutionJob? ==> forall id :: id in jobs ==> !Runs(jobs[id], job.inv)
    ensures Tables(tasks[next := task], jobs[next := job], next + 1)
    ensures |jobs[next := job]| == |jobs| + 1 && next !in tasks && next !in jobs
  {
  }

  lemma ReplyTables(s: State, outcome: JoinEnd)
    requires Tables(s.tasks, s.jobs, s.nextTask)
    ensures var r := SpawnReply(s, outcome);
      && Tables(r.tasks, r.jobs, r.nextTask) && |r.jobs| == |s.jobs| + 1 && s.nextTask !in s.tasks
      && s.nextTask !in s.jobs
  {
    hide Tables;
    AddedTables(s.tasks, s.jobs, s.nextTask, Reply(false, None), ReplyJob(outcome));
  }

  /** A reply job says nothing about executions. */
  lemma ReplyAuthority(s: State, outcome: JoinEnd, epoch: nat)
    requires Authority(s.jobs, s.guards, s.cancelled, s.h, epoch) && Answered(s.jobs, s.h) && s.nextTask !in s.jobs
    ensures var r := SpawnReply(s, outcome);
      Authority(r.jobs, s.guards, s.cancelled, s.h, epoch) && Answered(r.jobs, s.h)
  {
    var r := SpawnReply(s, outcome);
    forall i | i in s.h.revoked && s.h.reapedRevoked[i] == 0
      ensures exists k :: k in r.jobs && Runs(r.jobs[k], i)
    {
      var k :| k in s.jobs && Runs(s.jobs[k], i);
      assert Runs(r.jobs[k], i);
    }
  }

  lemma ReplyGuards(s: State, outcome: JoinEnd)
    requires Guards(s.guards, s.tasks, s.cancelled) && s.nextTask !in s.tasks
    ensures Guards(s.guards, SpawnReply(s, outcome).tasks, s.cancelled)
  {
    AddedCounts(s.tasks, s.nextTask, Reply(false, None));
  }

  /** The answer carries the epoch it was admitted under, and its execution is gone. */
  lemma AnswerIsCurrent(s: State, id: nat, epoch: nat)
    requires Tables(s.tasks, s.jobs, s.nextTask) && Authority(s.jobs, s.guards, s.cancelled, s.h, epoch)
    requires Answered(s.jobs, s.h) && id in s.jobs && s.jobs[id].ExecutionJob? && !s.jobs[id].revoked && s.seen == epoch
    ensures Answered(s.jobs - {id}, s.h.(answers := s.h.answers + [Answer(s.jobs[id].inv, s.jobs[id].epoch, s.seen)]))
    ensures Answered(s.jobs - {id}, s.h)
  {
  }

  /** A reply spawned for a task that left: the counters do not notice. */
  lemma SpawnedCounts(s: State, id: nat, mid: State, outcome: JoinEnd, inHand: nat)
    requires Counted(s.m, s.max, s.tasks, s.jobs, s.guards) && Permits(s.max, s.free, s.tasks, inHand)
    requires id in s.tasks && !HasPermit(s.tasks[id]) && !ReplyEnded(s.tasks[id])
    requires mid.tasks == s.tasks - {id} && mid.m == s.m && mid.max == s.max && mid.free == s.free
    requires mid.nextTask !in mid.tasks && |SpawnReply(mid, outcome).jobs| == |s.jobs|
    ensures Permits(s.max, s.free, SpawnReply(mid, outcome).tasks, inHand)
    ensures Counted(s.m, s.max, SpawnReply(mid, outcome).tasks, SpawnReply(mid, outcome).jobs, s.guards)
  {
    RemovedCounts(s.tasks, id);
    AddedCounts(mid.tasks, mid.nextTask, Reply(false, None));
  }

  lemma AuthorityIgnoresAnswers(s: State, answers: seq<Answer>, epoch: nat)
    requires Authority(s.jobs, s.guards, s.cancelled, s.h, epoch)
    ensures Authority(s.jobs, s.guards, s.cancelled, s.h.(answers := answers), epoch)
  {
  }

  /** An unrevoked execution leaves; a reply takes its place in the table. */
  lemma ExecutionCollected(s: State, id: nat, answers: seq<Answer>, outcome: JoinEnd, held: nat, inHand: nat)
    requires Core(s, held, inHand, s.seen) && id in s.jobs && s.jobs[id].ExecutionJob? && !s.jobs[id].revoked
    requires id in s.tasks && Ended(s.tasks[id])
    requires answers == s.h.answers || answers == s.h.answers + [Answer(s.jobs[id].inv, s.jobs[id].epoch, s.seen)]
    ensures Core(SpawnReply(s.(tasks := s.tasks - {id}, jobs := s.jobs - {id}, h := s.h.(answers := answers)), outcome),
                 held, inHand, s.seen)
  {
    hide Tables, Waiting, Authority, Answered, Guards, Permits, Counted;
    var h := s.h.(answers := answers);
    RemovedTables(s, id);
    RemovedAuthority(s, id, s.seen);
    AnswerIsCurrent(s, id, s.seen);
    assert s.h == s.h.(answers := s.h.answers);
    RemovedGuards(s, id);
    WaitingIgnoresReaping(s, s.h.reapedRevoked, answers);
    var gone := s.(tasks := s.tasks - {id}, jobs := s.jobs - {id});
    AuthorityIgnoresAnswers(gone, answers, s.seen);
    var mid := gone.(h := h);
    ReplyTables(mid, outcome);
    ReplyAuthority(mid, outcome, s.seen);
    ReplyGuards(mid, outcome);
    SpawnedCounts(s, id, mid, outcome, inHand);
  }

  /** Collecting returns to the select it came from. */
  lemma CollectControl(s: State, r: State)
    requires Control(s) && Collecting(s.pc)
    requires r == s.(pc := AfterCollect(s.pc), tasks := r.tasks, jobs := r.jobs, nextTask := r.nextTask, m := r.m,
      h := r.h)
    requires r.m.stopped == s.m.stopped && r.h.admitted == s.h.admitted && r.h.drained == s.h.drained
    ensures Control(r) && HeldBy(r.pc) == HeldBy(s.pc) && PermitBy(r.pc) == PermitBy(s.pc)
  {
  }

  function Collected(s: State, id: nat): State
    requires id in s.tasks
  {
    CollectTask(s.(tasks := s.tasks - {id}, pc := AfterCollect(s.pc)), id, s.tasks[id])
  }

  lemma CollectReply(s: State, id: nat)
    requires Invariant(s) && Collecting(s.pc) && id in s.tasks && Ended(s.tasks[id]) && id in s.jobs
      && s.jobs[id].ReplyJob?
    ensures Invariant(Collected(s, id))
  {
    hide Core, Control, Ended, TaskReaped;
    var r := Collected(s, id);
    ReplyCollected(s, id, HeldBy(s.pc), PermitBy(s.pc), s.seen);
    CoreIgnoresPc(s.(tasks := s.tasks - {id}, jobs := s.jobs - {id}, m := TaskReaped(s.m)), r.pc, HeldBy(s.pc),
      PermitBy(s.pc), s.seen);
    CollectControl(s, r);
  }

  lemma CollectRevoked(s: State, id: nat)
    requires Invariant(s) && Collecting(s.pc) && id in s.tasks && Ended(s.tasks[id])
    requires id in s.jobs && s.jobs[id].ExecutionJob? && s.jobs[id].revoked
    ensures Invariant(Collected(s, id))
  {
    hide Core, Control, Ended, TaskReaped, DropRecord;
    var r := Collected(s, id);
    RevokedCollected(s, id, HeldBy(s.pc), PermitBy(s.pc), s.seen);
    CoreIgnoresPc(s.(tasks := s.tasks - {id}, jobs := s.jobs - {id}, m := TaskReaped(DropRecord(s.m)),
                     h := s.h.(reapedRevoked := s.h.reapedRevoked + multiset{s.jobs[id].inv})),
                  r.pc, HeldBy(s.pc), PermitBy(s.pc), s.seen);
    CollectControl(s, r);
  }

  lemma CollectExecution(s: State, id: nat)
    requires Invariant(s) && Collecting(s.pc) && id in s.tasks && Ended(s.tasks[id])
    requires id in s.jobs && s.jobs[id].ExecutionJob? && !s.jobs[id].revoked && s.tasks[id].Execution?
    ensures Invariant(Collected(s, id))
  {
    hide Core, Control;
    var r := Collected(s, id);
    var outcome := JoinOutcome(s.tasks[id].phase.completion);
    ExecutionCollected(s, id, r.h.answers, outcome, HeldBy(s.pc), PermitBy(s.pc));
    hide JoinOutcome;
    CoreIgnoresPc(SpawnReply(s.(tasks := s.tasks - {id}, jobs := s.jobs - {id}, h := s.h.(answers := r.h.answers)),
                             outcome),
                  r.pc, HeldBy(s.pc), PermitBy(s.pc), s.seen);
    CollectControl(s, r);
  }

  lemma CollectKeeps(s: State, id: nat)
    requires Invariant(s) && Collecting(s.pc) && id in s.tasks && Ended(s.tasks[id])
    ensures Invariant(Collected(s, id))
  {
    OwnsTask(s, id, HeldBy(s.pc), PermitBy(s.pc), s.seen);
    hide Core, Control, Ended, Collected;
    if s.jobs[id].ReplyJob? {
      CollectReply(s, id);
    } else if s.jobs[id].revoked {
      CollectRevoked(s, id);
    } else {
      CollectExecution(s, id);
    }
  }

  // ------------------------------------------------------------ the dispatcher

  lemma AdmittedTables(s: State, inv: nat, epoch: nat)
    requires Tables(s.tasks, s.jobs, s.nextTask) && inv !in s.h.admitted
    requires forall id :: id in s.jobs && s.jobs[id].ExecutionJob? ==> s.jobs[id].inv in s.h.admitted
    ensures var tasks, jobs := s.tasks[s.nextTask := Execution(inv, Working)],
      s.jobs[s.nextTask := ExecutionJob(inv, false, epoch)];
      && Tables(tasks, jobs, s.nextTask + 1) && |jobs| == |s.jobs| + 1 && s.nextTask !in s.tasks
      && s.nextTask !in s.jobs
  {
  }

  lemma AdmittedGuards(s: State, inv: nat)
    requires Guards(s.guards, s.tasks, s.cancelled) && s.nextTask !in s.tasks && inv !in s.guards
    ensures Guards(s.guards[inv := inv in s.cancelled], s.tasks[s.nextTask := Execution(inv, Working)], s.cancelled)
  {
    AddedCounts(s.tasks, s.nextTask, Execution(inv, Working));
    var guards := s.guards[inv := inv in s.cancelled];
    assert guards.Keys == s.guards.Keys + {inv};
    assert |guards| == |guards.Keys| && |s.guards| == |s.guards.Keys|;
  }

  lemma AdmittedAuthority(s: State, inv: nat)
    requires Authority(s.jobs, s.guards, s.cancelled, s.h, s.seen) && s.nextTask !in s.jobs && inv !in s.h.admitted
    ensures Authority(s.jobs[s.nextTask := ExecutionJob(inv, false, s.seen)], s.guards[inv := inv in s.cancelled],
                      s.cancelled, s.h.(admitted := s.h.admitted + {inv}), s.seen)
  {
    var jobs := s.jobs[s.nextTask := ExecutionJob(inv, false, s.seen)];
    forall i | i in s.h.revoked && s.h.reapedRevoked[i] == 0
      ensures exists k :: k in jobs && Runs(jobs[k], i)
    {
      var k :| k in s.jobs && Runs(s.jobs[k], i);
      assert Runs(jobs[k], i);
    }
  }

  lemma AdmittedWaiting(s: State, inv: nat)
    requires Waiting(s.queue, s.nextInv, s.cancelled, s.h) && InHand(inv, s.queue, s.nextInv, s.h)
    requires Answered(s.jobs, s.h) && s.nextTask !in s.jobs
    ensures Waiting(s.queue, s.nextInv, s.cancelled, s.h.(admitted := s.h.admitted + {inv}))
    ensures Answered(s.jobs[s.nextTask := ExecutionJob(inv, false, s.seen)], s.h.(admitted := s.h.admitted + {inv}))
  {
  }

  function AdmittedCounts(m: Counts, cancelled: bool): Counts {
    var started := ExecutionStarted(TaskStarted(DropQueued(m)));
    if cancelled then Terminating(started, false) else started
  }

  lemma {:induction false} RunningPlusTerminating(guards: map<nat, bool>)
    ensures Count(guards, IsRunning) + Count(guards, IsTerminating) == |guards|
  {
    var running, terminating := Matching(guards, IsRunning), Matching(guards, IsTerminating);
    assert running + terminating == guards.Keys;
    assert running !! terminating;
    assert |guards| == |guards.Keys|;
  }

  /** Admission stays within both limits, so nothing is recorded as a breach. */
  lemma AdmittedCounted(s: State, inv: nat, inHand: nat)
    requires Counted(s.m, s.max, s.tasks, s.jobs, s.guards) && Guards(s.guards, s.tasks, s.cancelled)
    requires Permits(s.max, s.free, s.tasks, inHand + 1) && s.m.queued > 0 && !s.m.stopped && |s.jobs| < s.max
    requires s.nextTask !in s.tasks && inv !in s.guards
    requires |s.jobs[s.nextTask := ExecutionJob(inv, false, s.seen)]| == |s.jobs| + 1
    ensures var tasks, jobs := s.tasks[s.nextTask := Execution(inv, Working)],
      s.jobs[s.nextTask := ExecutionJob(inv, false, s.seen)];
      var m := AdmittedCounts(s.m, inv in s.cancelled);
      && Counted(m, s.max, tasks, jobs, s.guards[inv := inv in s.cancelled])
      && Permits(s.max, s.free, tasks, inHand) && m.queued == s.m.queued - 1 && !m.stopped
  {
    AddedCounts(s.tasks, s.nextTask, Execution(inv, Working));
    CountAdd(s.guards, inv, inv in s.cancelled, IsRunning);
    CountAdd(s.guards, inv, inv in s.cancelled, IsTerminating);
    CountImplies(s.tasks, IsWorking, HasPermit);
    RunningPlusTerminating(s.guards);
  }

  /** The message in hand becomes a job with its guard and its task. */
  lemma AdmitCore(s: State, inv: nat)
    requires Core(s, 1, 1, s.seen) && InHand(inv, s.queue, s.nextInv, s.h) && !s.m.stopped
    ensures var r := s.(m := AdmittedCounts(s.m, inv in s.cancelled), guards := s.guards[inv := inv in s.cancelled],
         tasks := s.tasks[s.nextTask := Execution(inv, Working)],
         jobs := s.jobs[s.nextTask := ExecutionJob(inv, false, s.seen)],
         nextTask := s.nextTask + 1, h := s.h.(admitted := s.h.admitted + {inv}));
      Core(r, 0, 0, s.seen) && !r.m.stopped
  {
    assert inv !in s.guards && forall id :: id in s.jobs && s.jobs[id].ExecutionJob? ==> s.jobs[id].inv in s.h.admitted;
    hide Tables, Waiting, Authority, Answered, Guards, Permits, Counted, AdmittedCounts;
    AdmittedTables(s, inv, s.seen);
    AdmittedGuards(s, inv);
    AdmittedAuthority(s, inv);
    AdmittedWaiting(s, inv);
    AdmittedCounted(s, inv, 0);
  }

  /** Putting a permit back. */
  lemma PermitBack(s: State, held: nat, inHand: nat, epoch: nat)
    requires Core(s, held, inHand + 1, epoch)
    ensures Core(s.(free := s.free + 1), held, inHand, epoch)
  {
    hide Tables, Waiting, Authority, Answered, Guards, Counted;
  }

  lemma AdmitKeeps(s: State)
    requires Invariant(s) && s.pc.Permitted?
    ensures Invariant(AdmitStep(s, s.pc.inv))
  {
    hide Core;
    var inv := s.pc.inv;
    if !s.synced || s.version != s.seen {
      PermitBack(s, 1, 0, s.seen);
      CoreIgnoresPc(s.(free := s.free + 1), Select, 1, 0, s.seen);
      DiscardKeeps(s.(free := s.free + 1, pc := Select), inv, 0, 0, s.seen);
      hide Discard;
    } else {
      AdmitCore(s, inv);
      CoreIgnoresPc(AdmitStep(s, inv).(pc := s.pc), Select, 0, 0, s.seen);
    }
  }

  lemma RejectKeeps(s: State)
    requires Invariant(s) && s.pc.Permitted?
    ensures Invariant(s.(free := s.free + 1, m := DropQueued(s.m), pc := Select))
  {
  }

  lemma AdmissionKeeps(s: State, late: bool)
    requires Invariant(s) && s.pc.AcquirePolled?
    ensures Invariant(AdmissionStep(s, s.pc.inv, late))
  {
    hide Tables, Waiting, Authority, Answered, Guards, Counted;
    var inv := s.pc.inv;
    if inv in s.cancelled || late {
      CancelKeeps(s, inv, 1, 0, s.seen);
      hide Core;
      CoreIgnoresPc(Cancel(s, inv), Expired(inv), 1, 0, s.seen);
    }
  }

  /** A timed-out message gets a reply task of its own, under the record it was admitted with. */
  lemma TimeoutCounted(s: State)
    requires Counted(s.m, s.max, s.tasks, s.jobs, s.guards) && s.m.queued > 0 && !s.m.stopped && |s.jobs| < s.max
    requires s.nextTask !in s.tasks && |SpawnReply(s, Joined).jobs| == |s.jobs| + 1
    ensures Counted(TaskStarted(DropQueued(s.m)), s.max, SpawnReply(s, Joined).tasks, SpawnReply(s, Joined).jobs,
      s.guards)
  {
    AddedCounts(s.tasks, s.nextTask, Reply(false, None));
  }

  lemma TimeoutPermits(s: State, inHand: nat)
    requires Permits(s.max, s.free, s.tasks, inHand) && s.nextTask !in s.tasks
    ensures Permits(s.max, s.free, SpawnReply(s, Joined).tasks, inHand)
  {
    AddedCounts(s.tasks, s.nextTask, Reply(false, None));
  }

  lemma ReplyTimeoutKeeps(s: State)
    requires Invariant(s) && s.pc.Expired?
    ensures Invariant(ReplyTimeoutStep(s))
  {
    hide Tables, Waiting, Authority, Answered, Guards, Permits, Counted;
    ReplyTables(s, Joined);
    ReplyAuthority(s, Joined, s.seen);
    ReplyGuards(s, Joined);
    TimeoutCounted(s);
    TimeoutPermits(s, 0);
  }

  lemma CheckSyncKeeps(s: State)
    requires Invariant(s) && s.pc.Taken?
    ensures Invariant(Dispatch(s, CheckSync))
  {
    hide Core;
    if !s.synced {
      CoreIgnoresPc(s, Select, 1, 0, s.seen);
      DiscardKeeps(s.(pc := Select), s.pc.inv, 0, 0, s.seen);
      hide Discard;
    } else {
      CoreIgnoresPc(s, Acquire(s.pc.inv), 1, 0, s.seen);
    }
  }

  lemma SeenIsNotCore(s: State, seen: nat, held: nat, inHand: nat, epoch: nat)
    requires Core(s, held, inHand, epoch)
    ensures Core(s.(seen := seen), held, inHand, epoch)
  {
    hide Tables, Permits, Guards, Counted, Waiting, Authority, Answered;
  }

  /** The revocation sweep, entered from a state holding nothing. */
  lemma SweepKeeps(s: State, order: seq<nat>, epoch: nat)
    requires Core(s, 0, 0, epoch) && Enumerates(order, s.jobs) && s.pc == Select && !s.m.stopped && s.seen == s.version
    ensures Invariant(CancelUntrustedWork(s, order)) && CancelUntrustedWork(s, order).pc == Select
  {
    RevocationKeeps(s, order, 0, 0, epoch, s.seen);
    hide Core, CancelUntrustedWork;
  }

  lemma StopKeeps(s: State)
    requires Core(s, 0, 0, s.seen) && s.seen <= s.version
    ensures Invariant(Stop(s))
  {
    hide Tables, Permits, Guards, Waiting, Authority, Answered;
  }

  /** Revocation seen at either select. */
  lemma SweepFromSelect(s: State, order: seq<nat>)
    requires Invariant(s) && s.pc.Select? && Enumerates(order, s.jobs)
    ensures var r := CancelUntrustedWork(s.(seen := s.version), order); Invariant(r) && r.pc == Select
  {
    hide Core, CancelUntrustedWork;
    SeenIsNotCore(s, s.version, 0, 0, s.seen);
    SweepKeeps(s.(seen := s.version), order, s.seen);
  }

  lemma SweepFromAcquire(s: State, order: seq<nat>)
    requires Invariant(s) && s.pc.Acquire? && Enumerates(order, s.jobs)
    ensures var r := CancelUntrustedWork(Discard(s.(seen := s.version, pc := Select), s.pc.inv), order);
      Invariant(r) && r.pc == Select
  {
    hide Core, CancelUntrustedWork;
    CoreIgnoresPc(s, Select, 1, 0, s.seen);
    SeenIsNotCore(s.(pc := Select), s.version, 1, 0, s.seen);
    var t := s.(seen := s.version, pc := Select);
    DiscardKeeps(t, s.pc.inv, 0, 0, s.seen);
    hide Discard;
    SweepKeeps(Discard(t, s.pc.inv), order, s.seen);
  }

  lemma SelectIsCore(s: State)
    requires Invariant(s) && !Holds(s.pc)
    ensures Core(s, 0, 0, s.seen) && s.seen <= s.version
  {
    hide Core;
  }

  lemma PollKeeps(s: State, order: seq<nat>)
    requires Invariant(s)
    ensures Invariant(PollStep(s, order))
  {
    hide Core, CancelUntrustedWork, Discard;
    if Enumerates(order, s.jobs) && s.pc.Select? {
      SweepFromSelect(s, order);
      CoreIgnoresPc(s, Polled, 0, 0, s.seen);
    } else if Enumerates(order, s.jobs) && s.pc.Acquire? {
      SweepFromAcquire(s, order);
      CoreIgnoresPc(s, AcquirePolled(s.pc.inv), 1, 0, s.seen);
    }
  }

  lemma SyncLostKeeps(s: State, order: seq<nat>)
    requires Invariant(s)
    ensures Invariant(Dispatch(s, SyncLost(order)))
  {
    if Enumerates(order, s.jobs) && s.pc.Select? {
      SweepFromSelect(s, order);
      hide CancelUntrustedWork, Core;
      var r := CancelUntrustedWork(s.(seen := s.version), order);
      SelectIsCore(r);
      StopKeeps(r);
    } else if Enumerates(order, s.jobs) && s.pc.Acquire? {
      SweepFromAcquire(s, order);
      hide CancelUntrustedWork, Discard, Core;
      var r := CancelUntrustedWork(Discard(s.(seen := s.version, pc := Select), s.pc.inv), order);
      SelectIsCore(r);
      StopKeeps(r);
    }
  }

  lemma ShutdownKeeps(s: State)
    requires Invariant(s)
    ensures Invariant(Dispatch(s, Shutdown))
  {
    hide Core;
    if s.pc.Select? {
      StopKeeps(s);
    } else if s.pc.Acquire? {
      DiscardKeeps(s, s.pc.inv, 0, 0, s.seen);
      hide Discard;
      StopKeeps(Discard(s, s.pc.inv));
    }
  }

  lemma ReceiveKeeps(s: State)
    requires Invariant(s)
    ensures Invariant(Dispatch(s, Receive))
  {
    hide Core;
    if s.pc.Polled? && |s.jobs| < s.max && s.queue != [] {
      TakeHead(s, 0, s.seen);
      CoreIgnoresPc(s.(queue := s.queue[1..]), Taken(s.queue[0]), 1, 0, s.seen);
    }
  }

  lemma DrainQueueKeeps(s: State)
    requires Invariant(s)
    ensures Invariant(Dispatch(s, DrainQueue))
  {
    hide Core, DrainMessages;
    if s.pc.Closing? && !s.intakeOpen {
      CoreIgnoresPc(s, Draining, 0, 0, s.seen);
      DrainMessagesKeeps(s.(pc := Draining), 0, 0, s.seen);
    }
  }

  /** The events that only move the program counter. */
  lemma MovesKeep(s: State, e: Event)
    requires Invariant(s) && (e.Rest? || e.DrainDone? || e.QueueClosed?)
    ensures Invariant(Dispatch(s, e))
  {
    hide Core;
    CoreIgnoresPc(s, Dispatch(s, e).pc, HeldBy(s.pc), PermitBy(s.pc), s.seen);
    if e.QueueClosed? && s.pc.Polled? {
      StopKeeps(s);
    }
  }

  lemma DispatchKeeps(s: State, e: Event)
    requires Invariant(s) && !IsTaskEvent(e) && !IsOutsideEvent(e)
    ensures Invariant(Dispatch(s, e))
  {
    hide Invariant, PollStep, CollectTask, AdmissionStep, ReplyTimeoutStep, AdmitStep;
    hide Stop, Discard, CancelUntrustedWork, DrainMessages, Enumerates, DropQueued;
    match e
    case Shutdown => ShutdownKeeps(s);
    case SyncLost(order) => SyncLostKeeps(s, order);
    case Poll(order) => PollKeeps(s, order);
    case Collect(id) => if Collecting(s.pc) && id in s.tasks && Ended(s.tasks[id]) { CollectKeeps(s, id); }
    case Receive => ReceiveKeeps(s);
    case CheckSync => if s.pc.Taken? { CheckSyncKeeps(s); }
    case Admission(late) => if s.pc.AcquirePolled? { AdmissionKeeps(s, late); }
    case ReplyTimeout => if s.pc.Expired? { ReplyTimeoutKeeps(s); }
    case Reject => if s.pc.Permitted? { RejectKeeps(s); }
    case Admit => if s.pc.Permitted? { AdmitKeeps(s); }
    case DrainQueue => DrainQueueKeeps(s);
    case _ => MovesKeep(s, e);
  }

  lemma StepKeeps(s: State, e: Event)
    requires Invariant(s)
    ensures Invariant(Step(s, e))
  {
    hide Invariant, RunTask, Outside, Dispatch;
    if IsTaskEvent(e) {
      TaskKeeps(s, e);
    } else if IsOutsideEvent(e) {
      OutsideKeeps(s, e);
    } else {
      DispatchKeeps(s, e);
    }
  }

  /** Every state of every run of a supervisor of any size. */
  lemma {:induction false} RunKeeps(max: nat, capacity: nat, events: seq<Event>)
    ensures Invariant(Run(Init(max, capacity), events))
    decreases |events|
  {
    hide Invariant, Step, Init;
    if events == [] {
      InitHolds(max, capacity);
    } else {
      RunKeeps(max, capacity, events[..|events| - 1]);
      StepKeeps(Run(Init(max, capacity), events[..|events| - 1]), events[|events| - 1]);
    }
  }
}
