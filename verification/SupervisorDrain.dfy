/** The drain after a stop: bounded, clean at its end, and finished by every schedule that keeps working. */
module SupervisorDrain {
  import opened Basics
  import opened Counting
  import opened Totals
  import opened DispatchMetrics
  import opened Supervisor
  import opened SupervisorSafety
  import opened SupervisorSteps
  import opened SupervisorTheorems

  predicate IsExecutionJob(job: Job) { job.ExecutionJob? }

  predicate IsReplyJob(job: Job) { job.ReplyJob? }

  /** An execution may still become a reply; a reply only leaves. */
  ghost function Work(jobs: map<nat, Job>): nat {
    2 * Count(jobs, IsExecutionJob) + Count(jobs, IsReplyJob)
  }

  predicate Collects(s: State, e: Event) {
    e.Collect? && s.pc.Draining? && e.task in s.tasks && Ended(s.tasks[e.task])
  }

  lemma CollectShrinksWork(s: State, id: nat)
    requires Invariant(s) && id in s.tasks && Ended(s.tasks[id])
    ensures var c := s.(tasks := s.tasks - {id}, pc := AfterCollect(s.pc));
      Work(CollectTask(c, id, s.tasks[id]).jobs) < Work(s.jobs)
  {
    hide Permits, Guards, Counted, Waiting, Authority, Answered, OneEach;
    assert id in s.jobs && s.nextTask !in s.jobs;
    CountDrop(s.jobs, id, IsExecutionJob);
    CountDrop(s.jobs, id, IsReplyJob);
    CountAdd(s.jobs - {id}, s.nextTask, ReplyJob(Joined), IsExecutionJob);
    CountAdd(s.jobs - {id}, s.nextTask, ReplyJob(Joined), IsReplyJob);
    CountAdd(s.jobs - {id}, s.nextTask, ReplyJob(JoinPanicked), IsExecutionJob);
    CountAdd(s.jobs - {id}, s.nextTask, ReplyJob(JoinPanicked), IsReplyJob);
  }

  lemma CollectStep(s: State, id: nat)
    requires Collects(s, Collect(id))
    ensures var r := Step(s, Collect(id)); var c := s.(tasks := s.tasks - {id}, pc := AfterCollect(s.pc));
      r == CollectTask(c, id, s.tasks[id]) && r.pc.Draining? && r.h.admitted == s.h.admitted
  {
    CollectGrows(s.(tasks := s.tasks - {id}, pc := AfterCollect(s.pc)), id, s.tasks[id]);
    hide CollectTask, RunTask, Outside;
  }

  lemma OtherwiseIdle(s: State, e: Event)
    requires (s.pc.Draining? || s.pc.Done?) && !IsTaskEvent(e) && !IsOutsideEvent(e) && !Collects(s, e)
    ensures var r := Step(s, e); (r == s || r == s.(pc := Done))
  {
    hide RunTask, Outside, CollectTask, CancelUntrustedWork, DrainMessages, Enumerates, AdmitStep, Discard, Ended;
  }

  /** While draining nothing is admitted and every collected task is progress. */
  lemma DrainStep(s: State, e: Event)
    requires Invariant(s) && (s.pc.Draining? || s.pc.Done?)
    ensures var r := Step(s, e);
      && (r.pc.Draining? || r.pc.Done?) && r.h.admitted == s.h.admitted
      && Work(r.jobs) + (if Collects(s, e) then 1 else 0) <= Work(s.jobs)
  {
    hide Work, Step, Invariant;
    if IsTaskEvent(e) || IsOutsideEvent(e) {
      QuietStep(s, e);
    } else if Collects(s, e) {
      CollectStep(s, e.task);
      CollectShrinksWork(s, e.task);
    } else {
      OtherwiseIdle(s, e);
    }
  }

  function Collections(s: State, events: seq<Event>): nat {
    if events == [] then 0
    else
      var rest := events[..|events| - 1];
      Collections(s, rest) + if Collects(Run(s, rest), events[|events| - 1]) then 1 else 0
  }

  lemma {:induction false} DrainRun(s: State, events: seq<Event>)
    requires Invariant(s) && (s.pc.Draining? || s.pc.Done?)
    ensures var r := Run(s, events);
      && Invariant(r) && (r.pc.Draining? || r.pc.Done?) && r.h.admitted == s.h.admitted
      && Work(r.jobs) + Collections(s, events) <= Work(s.jobs)
    decreases |events|
  {
    hide Invariant, Step, Work, Collects;
    if events != [] {
      var rest := events[..|events| - 1];
      DrainRun(s, rest);
      StepKeeps(Run(s, rest), events[|events| - 1]);
      DrainStep(Run(s, rest), events[|events| - 1]);
    }
  }

  lemma WorkIsBounded(jobs: map<nat, Job>)
    ensures Work(jobs) <= 2 * |jobs|
  {
    var executions, replies := Matching(jobs, IsExecutionJob), Matching(jobs, IsReplyJob);
    assert executions + replies == jobs.Keys && executions !! replies;
    assert |jobs| == |jobs.Keys|;
  }

  /** However the drain is scheduled, at most 2 * max collections empty the table; none admits anything. */
  lemma DrainIsBounded(max: nat, capacity: nat, before: seq<Event>, after: seq<Event>)
    ensures var s := Run(Init(max, capacity), before);
      s.pc.Draining? ==>
        && Collections(s, after) <= 2 * max
        && Run(Init(max, capacity), before + after).h.admitted == s.h.admitted
        && (Run(Init(max, capacity), before + after).pc.Draining? || Run(Init(max, capacity), before + after).pc.Done?)
  {
    var s := Run(Init(max, capacity), before);
    RunKeeps(max, capacity, before);
    Capacity(max, capacity, before);
    RunJoins(Init(max, capacity), before, after);
    hide Invariant, Run, Init, Collections;
    if s.pc.Draining? {
      DrainRun(s, after);
      WorkIsBounded(s.jobs);
    }
  }

  /** When the drain is done nothing is left: no job, no task, no guard, every permit back, every record balanced. */
  lemma DoneIsEmpty(max: nat, capacity: nat, events: seq<Event>)
    ensures var s := Run(Init(max, capacity), events);
      s.pc.Done? ==>
        && s.jobs == map[] && s.tasks == map[] && s.queue == [] && s.guards == map[] && s.free == max
        && s.m.started == s.m.finished == s.m.reaped && s.m.running == s.m.terminating == s.m.queued == s.m.tracked == 0
  {
    var s := Run(Init(max, capacity), events);
    RunKeeps(max, capacity, events);
    Capacity(max, capacity, events);
    AccountingIsExact(max, capacity, events);
    hide Run, Init, Waiting, Authority, Answered;
    if s.pc.Done? {
      assert s.jobs.Keys == {};
      CountAtMost(s.tasks, HasPermit);
      CountAtMost(s.tasks, ReplyEnded);
      assert |s.guards| == 0;
    }
  }

  // ------------------------------------------------------------ every schedule finishes

  /** How many steps a task still has to take, its collection and the reply it may become included. */
  function StepsLeft(t: Task): nat {
    match t
    case Reply(_, end) => if end.Some? then 1 else 2
    case Execution(_, phase) =>
      match phase case Working => 6 case Unguarded(_) => 5 case Released(_) => 4 case Exited(_) => 3
  }

  ghost function Sizes(tasks: map<nat, Task>): map<nat, nat> {
    map id | id in tasks :: StepsLeft(tasks[id])
  }

  /** The steps the drain still has to take, the last one included. */
  ghost function Left(s: State): nat {
    if s.pc.Done? then 0 else 1 + Sum(Sizes(s.tasks))
  }

  /** A step of a task or of the drain loop that does something. */
  predicate Works(s: State, e: Event) {
    (IsTaskEvent(e) || e.Collect? || e.DrainDone?) && Step(s, e) != s
  }

  lemma SizesPut(tasks: map<nat, Task>, id: nat, t: Task)
    ensures Sum(Sizes(tasks[id := t])) == Sum(Sizes(tasks - {id})) + StepsLeft(t)
  {
    assert Sizes(tasks[id := t]) == Sizes(tasks - {id})[id := StepsLeft(t)];
    SumPut(Sizes(tasks - {id}), id, StepsLeft(t));
    assert Sizes(tasks - {id}) - {id} == Sizes(tasks - {id});
  }

  lemma SizesDrop(tasks: map<nat, Task>, id: nat)
    requires id in tasks
    ensures Sum(Sizes(tasks)) == Sum(Sizes(tasks - {id})) + StepsLeft(tasks[id])
  {
    assert tasks == tasks[id := tasks[id]];
    SizesPut(tasks, id, tasks[id]);
  }

  /** What a step of a task does to the tasks: nothing, or one of them moves on. */
  lemma TaskShrinks(s: State, e: Event)
    requires IsTaskEvent(e)
    ensures var r := Step(s, e);
      r == s || (r.pc == s.pc && e.task in s.tasks && e.task in r.tasks
                 && r.tasks == s.tasks[e.task := r.tasks[e.task]]
                 && StepsLeft(r.tasks[e.task]) < StepsLeft(s.tasks[e.task]))
  {
    hide DropExecution, DropRecord, Cancel, Outside, Dispatch;
    if e.task in s.tasks && s.tasks[e.task].Execution? {
      CancelFrame(s, s.tasks[e.task].inv);
    }
  }

  /** Collecting spawns at most one reply, and only for an execution. */
  lemma CollectTasks(s: State, id: nat, task: Task)
    requires id in s.jobs && Matches(s.jobs[id], task)
    ensures var r := CollectTask(s, id, task);
      r.pc == s.pc && (r.tasks == s.tasks || (task.Execution? && r.tasks == s.tasks[s.nextTask := Reply(false, None)]))
  {
    hide TaskReaped, DropRecord, CarriesResult, JoinOutcome;
    if s.jobs[id].ReplyJob? || s.jobs[id].revoked {
      hide SpawnReply;
    } else if task.Execution? && task.phase.Exited? {
      if CarriesResult(task.phase.completion) {
      } else {
      }
    }
  }

  lemma CollectIs(s: State, id: nat)
    requires s.pc.Draining? && id in s.tasks
    ensures Step(s, Collect(id)) ==
      if Ended(s.tasks[id]) then CollectTask(s.(tasks := s.tasks - {id}), id, s.tasks[id]) else s
  {
    hide CollectTask;
    assert s.(tasks := s.tasks - {id}, pc := AfterCollect(s.pc)) == s.(tasks := s.tasks - {id});
  }

  lemma Owner(s: State, id: nat)
    requires Invariant(s) && id in s.tasks
    ensures id in s.jobs && Matches(s.jobs[id], s.tasks[id]) && s.nextTask !in s.tasks
  {
    hide Permits, Guards, Counted, Waiting, Authority, Answered, OneEach, Control;
  }

  lemma SizesSwap(tasks: map<nat, Task>, id: nat, next: nat, t: Task)
    requires id in tasks && next !in tasks
    ensures Sum(Sizes((tasks - {id})[next := t])) == Sum(Sizes(tasks)) - StepsLeft(tasks[id]) + StepsLeft(t)
  {
    SizesDrop(tasks, id);
    SizesPut(tasks - {id}, next, t);
    assert tasks - {id} - {next} == tasks - {id};
  }

  /** Collecting removes a task, or puts a reply with less to do in its place. */
  lemma CollectShrinks(s: State, id: nat)
    requires Invariant(s) && s.pc.Draining? && id in s.tasks && Ended(s.tasks[id])
    ensures var r := Step(s, Collect(id)); r.pc.Draining? && Sum(Sizes(r.tasks)) < Sum(Sizes(s.tasks))
  {
    hide Invariant, Sizes, Step, CollectTask, Matches;
    Owner(s, id);
    CollectIs(s, id);
    CollectTasks(s.(tasks := s.tasks - {id}), id, s.tasks[id]);
    SizesDrop(s.tasks, id);
    SizesSwap(s.tasks, id, s.nextTask, Reply(false, None));
  }

  /** The other events leave a draining supervisor's tasks and place alone. */
  lemma IdleStep(s: State, e: Event)
    requires (s.pc.Draining? || s.pc.Done?) && !IsTaskEvent(e) && !e.Collect? && !e.DrainDone?
    ensures Step(s, e).tasks == s.tasks && Step(s, e).pc == s.pc
  {
    hide Cancel, CancelUntrustedWork, DrainMessages, Enumerates, RunTask;
    if e.CancelInvocation? {
      CancelFrame(s, e.inv);
    }
  }

  lemma TaskWorkShrinks(s: State, e: Event)
    requires s.pc.Draining? && IsTaskEvent(e)
    ensures Left(Step(s, e)) + (if Works(s, e) then 1 else 0) <= Left(s)
  {
    TaskShrinks(s, e);
    hide Step, Sizes;
    if Step(s, e) != s {
      SizesDrop(s.tasks, e.task);
      SizesPut(s.tasks, e.task, Step(s, e).tasks[e.task]);
    }
  }

  lemma CollectNothing(s: State, id: nat)
    requires id !in s.tasks
    ensures Step(s, Collect(id)) == s
  {
    hide CollectTask;
  }

  lemma CollectWorkShrinks(s: State, id: nat)
    requires Invariant(s) && s.pc.Draining?
    ensures Left(Step(s, Collect(id))) + (if Works(s, Collect(id)) then 1 else 0) <= Left(s)
  {
    hide Step, Sizes, Invariant, CollectTask;
    if id !in s.tasks {
      CollectNothing(s, id);
    } else if Ended(s.tasks[id]) {
      CollectShrinks(s, id);
    } else {
      CollectIs(s, id);
    }
  }

  lemma LastShrinks(s: State)
    requires s.pc.Draining?
    ensures Left(Step(s, DrainDone)) + (if Works(s, DrainDone) then 1 else 0) <= Left(s)
  {
    hide Sizes, CollectTask, CancelUntrustedWork, DrainMessages, Cancel;
  }

  lemma WorkShrinks(s: State, e: Event)
    requires Invariant(s) && s.pc.Draining?
    ensures Left(Step(s, e)) + (if Works(s, e) then 1 else 0) <= Left(s)
  {
    hide Step, Sizes, Invariant;
    if IsTaskEvent(e) {
      TaskWorkShrinks(s, e);
    } else if e.Collect? {
      CollectWorkShrinks(s, e.task);
    } else if e.DrainDone? {
      LastShrinks(s);
    } else {
      IdleStep(s, e);
    }
  }

  function Worked(s: State, events: seq<Event>): nat {
    if events == [] then 0
    else
      var rest := events[..|events| - 1];
      Worked(s, rest) + if Works(Run(s, rest), events[|events| - 1]) then 1 else 0
  }

  lemma DoneStays(s: State, e: Event)
    requires Invariant(s) && s.pc.Done?
    ensures Step(s, e).pc.Done? && !Works(s, e)
  {
    assert s.tasks == map[];
    hide Invariant, RunTask;
    if IsTaskEvent(e) {
      TaskShrinks(s, e);
    } else if !e.Collect? && !e.DrainDone? {
      IdleStep(s, e);
      hide Step;
    }
  }

  lemma {:induction false} WorkedOff(s: State, events: seq<Event>)
    requires Invariant(s) && (s.pc.Draining? || s.pc.Done?)
    ensures Left(Run(s, events)) + Worked(s, events) <= Left(s)
    decreases |events|
  {
    if events != [] {
      var rest, e := events[..|events| - 1], events[|events| - 1];
      WorkedOff(s, rest);
      DrainRun(s, rest);
      var r := Run(s, rest);
      if r.pc.Done? {
        DoneStays(r, e);
      } else {
        WorkShrinks(r, e);
      }
      hide Invariant, Step, Works, Sizes;
    }
  }

  lemma EndedWorks(s: State, id: nat)
    requires Invariant(s) && s.pc.Draining? && id in s.tasks && Ended(s.tasks[id])
    ensures Works(s, Collect(id))
  {
    CollectShrinks(s, id);
    hide Invariant, Step, Sizes, Ended;
  }

  lemma GuardMoves(s: State, id: nat)
    requires id in s.tasks && IsWorking(s.tasks[id]) && s.tasks[id].inv in s.guards
    ensures var r := Step(s, DropGuard(id, false));
      id in r.tasks && r.tasks[id] == Execution(s.tasks[id].inv, Unguarded(false)) && r.pc == s.pc
  {
    hide DropExecution, Cancel, Outside, Dispatch;
  }

  lemma PermitMoves(s: State, id: nat)
    requires id in s.tasks && s.tasks[id].Execution? && s.tasks[id].phase.Unguarded?
    ensures var r := Step(s, DropPermit(id));
      id in r.tasks && r.tasks[id] == Execution(s.tasks[id].inv, Released(s.tasks[id].phase.panicked)) && r.pc == s.pc
  {
    hide Outside, Dispatch;
  }

  lemma EndMoves(s: State, id: nat)
    requires id in s.tasks && s.tasks[id].Execution? && s.tasks[id].phase.Released?
    ensures var r := Step(s, ExecutionEnds(id, true, false, false));
      id in r.tasks && Ended(r.tasks[id]) && r.pc == s.pc
  {
    hide Cancel, Outside, Dispatch;
    CancelFrame(s, s.tasks[id].inv);
  }

  lemma ReplyMoves(s: State, id: nat)
    requires id in s.tasks && s.tasks[id].Reply? && s.tasks[id].end.None?
    ensures var r := Step(s, ReplyEnds(id, Joined));
      id in r.tasks && Ended(r.tasks[id]) && r.pc == s.pc
  {
    hide DropRecord, Outside, Dispatch;
  }

  lemma MovingWorks(s: State, id: nat)
    requires id in s.tasks && !Ended(s.tasks[id]) && (IsWorking(s.tasks[id]) ==> s.tasks[id].inv in s.guards)
    ensures exists e :: Works(s, e)
  {
    hide Step;
    var t := s.tasks[id];
    if t.Reply? {
      ReplyMoves(s, id);
      assert Works(s, ReplyEnds(id, Joined));
    } else if t.phase.Working? {
      GuardMoves(s, id);
      assert Works(s, DropGuard(id, false));
    } else if t.phase.Unguarded? {
      PermitMoves(s, id);
      assert Works(s, DropPermit(id));
    } else {
      EndMoves(s, id);
      assert Works(s, ExecutionEnds(id, true, false, false));
    }
  }

  lemma LastWorks(s: State)
    requires s.pc.Draining? && s.tasks == map[]
    ensures Works(s, DrainDone)
  {
    hide CollectTask, CancelUntrustedWork, DrainMessages, Cancel;
    assert Step(s, DrainDone) == s.(pc := Done);
  }

  lemma GuardExists(s: State, id: nat)
    requires Invariant(s) && id in s.tasks && IsWorking(s.tasks[id])
    ensures s.tasks[id].inv in s.guards
  {
  }

  /** Until it is done, some step of a task or of the loop can be taken. */
  lemma DrainNeverStuck(s: State)
    requires Invariant(s) && s.pc.Draining?
    ensures exists e :: Works(s, e)
  {
    hide Invariant, Works;
    if s.tasks == map[] {
      LastWorks(s);
    } else {
      var id :| id in s.tasks;
      if Ended(s.tasks[id]) {
        EndedWorks(s, id);
      } else {
        if IsWorking(s.tasks[id]) { GuardExists(s, id); }
        MovingWorks(s, id);
      }
    }
  }

  lemma {:induction false} SizesBounded(tasks: map<nat, Task>)
    ensures Sum(Sizes(tasks)) <= 6 * |tasks|
    decreases |tasks|
  {
    if tasks == map[] {
      assert Sizes(tasks) == map[];
    } else {
      var id :| id in tasks;
      var rest := tasks - {id};
      assert rest.Keys == tasks.Keys - {id};
      assert |rest| == |rest.Keys| && |tasks| == |tasks.Keys|;
      SizesDrop(tasks, id);
      SizesBounded(rest);
    }
  }

  /**
    Every schedule finishes the drain: until it is done some step of a task or of the loop can be
    taken, and after at most 6 * max + 1 such steps, whatever else happens in between, it is done.
   */
  lemma DrainMustFinish(max: nat, capacity: nat, before: seq<Event>, after: seq<Event>)
    ensures var s := Run(Init(max, capacity), before); var r := Run(Init(max, capacity), before + after);
      s.pc.Draining? ==>
        && (r.pc.Done? || exists e :: Works(r, e))
        && (Worked(s, after) > 6 * max ==> r.pc.Done?)
        && Worked(s, after) <= 6 * max + 1
  {
    var s := Run(Init(max, capacity), before);
    RunKeeps(max, capacity, before);
    Capacity(max, capacity, before);
    RunJoins(Init(max, capacity), before, after);
    hide Invariant, Run, Init, Worked, Sizes, Works;
    if s.pc.Draining? {
      assert |s.tasks| == |s.tasks.Keys| && |s.jobs| == |s.jobs.Keys|;
      DrainRun(s, after);
      WorkedOff(s, after);
      SizesBounded(s.tasks);
      if !Run(s, after).pc.Done? {
        DrainNeverStuck(Run(s, after));
      }
    }
  }
}
