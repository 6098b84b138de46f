/** What the supervisor promises, over every run of every interleaving. */
module SupervisorTheorems {
  import opened Basics
  import opened Counting
  import opened DispatchMetrics
  import opened Supervisor
  import opened SupervisorSafety
  import opened SupervisorSteps

  // ------------------------------------------------------------ capacity

  ghost predicate Grows(h: History, k: History) {
    && h.admitted <= k.admitted && h.drained <= k.drained && h.revoked <= k.revoked
    && h.reapedRevoked <= k.reapedRevoked && h.answers <= k.answers
  }

  lemma CancelFrame(s: State, inv: nat)
    ensures var c := Cancel(s, inv); c == s.(cancelled := c.cancelled, guards := c.guards, m := c.m)
    ensures (inv in Cancel(s, inv).guards <==> inv in s.guards) && Cancel(s, inv).cancelled == s.cancelled + {inv}
  {
    hide Terminating;
  }

  ghost predicate Untouched(s: State, r: State) {
    r.h == s.h && r.max == s.max && r.pc == s.pc && r.jobs == s.jobs
  }

  lemma TaskLeaves(s: State, e: Event)
    requires IsTaskEvent(e)
    ensures Untouched(s, RunTask(s, e))
  {
    hide DropExecution, DropRecord, Cancel;
    if e.task in s.tasks && s.tasks[e.task].Execution? {
      CancelFrame(s, s.tasks[e.task].inv);
    }
  }

  lemma OutsideLeaves(s: State, e: Event)
    requires IsOutsideEvent(e)
    ensures Untouched(s, Outside(s, e))
  {
    hide Queued, Cancel;
    if e.CancelInvocation? {
      CancelFrame(s, e.inv);
    }
  }

  /** Task steps and the outside touch neither the table nor the history. */
  lemma QuietStep(s: State, e: Event)
    requires IsTaskEvent(e) || IsOutsideEvent(e)
    ensures Untouched(s, Step(s, e))
  {
    hide RunTask, Outside, Dispatch;
    if IsTaskEvent(e) {
      TaskLeaves(s, e);
    } else {
      OutsideLeaves(s, e);
    }
  }

  lemma GrowsItself(h: History)
    ensures Grows(h, h)
  {
  }

  lemma AdmitGrows(s: State, inv: nat)
    ensures Grows(s.h, AdmitStep(s, inv).h) && AdmitStep(s, inv).max == s.max
  {
    hide DropQueued, TaskStarted, ExecutionStarted, Terminating, Cancel;
    CancelFrame(s.(free := s.free + 1, pc := Select), inv);
  }

  lemma TimeoutGrows(s: State)
    ensures ReplyTimeoutStep(s).h == s.h && ReplyTimeoutStep(s).max == s.max
  {
  }

  lemma DiscardGrows(s: State, e: Event)
    requires e.Shutdown? || e.CheckSync? || e.Admission?
    ensures Dispatch(s, e).h == s.h && Dispatch(s, e).max == s.max
  {
    hide DropQueued, Cancel, CollectTask, CancelUntrustedWork, DrainMessages, AdmitStep;
    match e
    case Shutdown => if s.pc.Acquire? { CancelFrame(s, s.pc.inv); }
    case CheckSync => if s.pc.Taken? { CancelFrame(s.(pc := Select), s.pc.inv); }
    case Admission(_) => if s.pc.AcquirePolled? { CancelFrame(s, s.pc.inv); }
  }

  /** What a sweep leaves alone, and that flags are only set. */
  ghost predicate Spared(s: State, r: State) {
    && r.pc == s.pc && r.nextInv == s.nextInv && r.seen == s.seen && r.version == s.version
    && r.h.admitted == s.h.admitted && s.cancelled <= r.cancelled
  }

  lemma {:induction false} DrainMessagesGrow(s: State)
    ensures Grows(s.h, DrainMessages(s).h) && DrainMessages(s).max == s.max
    ensures Spared(s, DrainMessages(s)) && DrainMessages(s).queue == []
    decreases |s.queue|
  {
    if s.queue != [] {
      DrainMessagesGrow(DrainOne(s));
    }
  }

  lemma CollectGrows(s: State, id: nat, task: Task)
    ensures var r := CollectTask(s, id, task);
      && Grows(s.h, r.h) && r.max == s.max && r.h.admitted == s.h.admitted && r.pc == s.pc
      && r.queue == s.queue && r.nextInv == s.nextInv
  {
    hide TaskReaped, DropRecord, CarriesResult, JoinOutcome;
    if id !in s.jobs {
    } else if s.jobs[id].ReplyJob? {
    } else if s.jobs[id].revoked {
      hide SpawnReply;
    } else if task.Execution? && task.phase.Exited? {
      if CarriesResult(task.phase.completion) {
        assert CollectTask(s, id, task).h ==
          s.h.(answers := s.h.answers + [Answer(s.jobs[id].inv, s.jobs[id].epoch, s.seen)]);
      } else {
        assert CollectTask(s, id, task).h == s.h;
      }
    }
  }

  lemma RevokeJobGrows(s: State, id: nat)
    ensures var r := RevokeJob(s, id); Grows(s.h, r.h) && r.max == s.max && Spared(s, r) && r.queue == s.queue
  {
    hide Cancel;
    if id in s.jobs && id in s.tasks && s.jobs[id].ExecutionJob? {
      var job := s.jobs[id];
      var t := s.(jobs := s.jobs[id := ExecutionJob(job.inv, true, job.epoch)],
                  h := s.h.(revoked := s.h.revoked + {job.inv}));
      CancelFrame(t, job.inv);
    }
  }

  lemma {:induction false} RevokeJobsGrow(s: State, order: seq<nat>)
    ensures var r := RevokeJobs(s, order); Grows(s.h, r.h) && r.max == s.max && Spared(s, r) && r.queue == s.queue
    decreases |order|
  {
    if order != [] {
      RevokeJobsGrow(s, order[..|order| - 1]);
      RevokeJobGrows(RevokeJobs(s, order[..|order| - 1]), order[|order| - 1]);
      hide RevokeJob;
    }
  }

  lemma CancelGrows(s: State, order: seq<nat>)
    ensures var r := CancelUntrustedWork(s, order); Grows(s.h, r.h) && r.max == s.max
  {
    hide RevokeJobs, DrainMessages;
    RevokeJobsGrow(s, order);
    DrainMessagesGrow(RevokeJobs(s, order));
  }

  lemma SweepGrows(s: State, order: seq<nat>)
    ensures var t := s.(seen := s.version); var r := CancelUntrustedWork(t, order); Grows(s.h, r.h) && r.max == s.max
    ensures s.pc.Acquire? ==>
      var t := Discard(s.(seen := s.version, pc := Select), s.pc.inv);
      var r := CancelUntrustedWork(t, order);
      Grows(s.h, r.h) && r.max == s.max
  {
    CancelGrows(s.(seen := s.version), order);
    if s.pc.Acquire? {
      CancelFrame(s.(seen := s.version, pc := Select), s.pc.inv);
      hide CancelUntrustedWork, Grows, DropQueued, Cancel;
      CancelGrows(Discard(s.(seen := s.version, pc := Select), s.pc.inv), order);
    }
  }

  lemma DrainGrows(s: State, e: Event)
    requires e.SyncLost? || e.Poll? || e.DrainQueue? || e.Collect?
    ensures Grows(s.h, Dispatch(s, e).h) && Dispatch(s, e).max == s.max
  {
    hide Ended, Collecting, CollectTask, CancelUntrustedWork, DrainMessages, Enumerates, AdmitStep, Cancel, Grows;
    GrowsItself(s.h);
    match e
    case SyncLost(order) => SweepGrows(s, order);
    case Poll(order) => SweepGrows(s, order);
    case DrainQueue => DrainMessagesGrow(s.(pc := Draining));
    case Collect(id) =>
      if id in s.tasks { CollectGrows(s.(tasks := s.tasks - {id}, pc := AfterCollect(s.pc)), id, s.tasks[id]); }
  }

  lemma DispatchGrows(s: State, e: Event)
    ensures Grows(s.h, Dispatch(s, e).h) && Dispatch(s, e).max == s.max
  {
    hide CollectTask, CancelUntrustedWork, DrainMessages, Enumerates, AdmitStep, Discard, ReplyTimeoutStep, Grows;
    GrowsItself(s.h);
    match e
    case Shutdown => hide Dispatch; DiscardGrows(s, e);
    case CheckSync => hide Dispatch; DiscardGrows(s, e);
    case Admission(_) => hide Dispatch; DiscardGrows(s, e);
    case SyncLost(_) => hide Dispatch; DrainGrows(s, e);
    case Poll(_) => hide Dispatch; DrainGrows(s, e);
    case DrainQueue => hide Dispatch; DrainGrows(s, e);
    case Collect(_) => hide Dispatch; DrainGrows(s, e);
    case Admit => if s.pc.Permitted? { AdmitGrows(s, s.pc.inv); }
    case ReplyTimeout => TimeoutGrows(s);
    case _ =>
  }

  lemma GrowsBy(s: State, e: Event)
    ensures Grows(s.h, Step(s, e).h) && Step(s, e).max == s.max
  {
    hide Dispatch, RunTask, Outside;
    if IsTaskEvent(e) || IsOutsideEvent(e) {
      QuietStep(s, e);
    } else {
      DispatchGrows(s, e);
    }
  }

  lemma {:induction false} MaxIsFixed(s: State, events: seq<Event>)
    ensures Run(s, events).max == s.max
    decreases |events|
  {
    if events != [] {
      MaxIsFixed(s, events[..|events| - 1]);
      GrowsBy(Run(s, events[..|events| - 1]), events[|events| - 1]);
      hide Step;
    }
  }

  /** At most `max` jobs, and every permit is free, in hand, or with one unreleased execution. */
  lemma Capacity(max: nat, capacity: nat, events: seq<Event>)
    ensures var s := Run(Init(max, capacity), events);
      && |s.jobs| + HeldBy(s.pc) <= s.max == max && s.tasks.Keys == s.jobs.Keys
      && s.free + Count(s.tasks, HasPermit) + PermitBy(s.pc) == max
      && |s.guards| <= Count(s.tasks, HasPermit)
  {
    RunKeeps(max, capacity, events);
    var s := Run(Init(max, capacity), events);
    MaxIsFixed(Init(max, capacity), events);
    hide Run, Waiting, Authority, Answered, Counted, OneEach;
    CountImplies(s.tasks, IsWorking, HasPermit);
  }

  /** With a message in hand, some permit is free. */
  lemma PermitIsFree(max: nat, capacity: nat, events: seq<Event>)
    ensures var s := Run(Init(max, capacity), events); s.pc.AcquirePolled? ==> s.free > 0
  {
    Capacity(max, capacity, events);
    hide Run, Init, HasPermit;
    var s := Run(Init(max, capacity), events);
    CountAtMost(s.tasks, HasPermit);
    assert |s.tasks| == |s.tasks.Keys| && |s.jobs| == |s.jobs.Keys|;
  }

  lemma AdmissionOutcome(s: State, late: bool)
    requires s.pc.AcquirePolled? && s.free > 0
    ensures var r := Step(s, Admission(late));
      && (r.pc == Permitted(s.pc.inv) <==> !late && s.pc.inv !in s.cancelled)
      && (r.pc == Expired(s.pc.inv) <==> late || s.pc.inv in s.cancelled)
  {
    hide Cancel;
  }

  /** A message at the permit is never made to wait: only its own cancellation or deadline stops it. */
  lemma AdmissionNeverWaits(max: nat, capacity: nat, events: seq<Event>, late: bool)
    ensures var s := Run(Init(max, capacity), events);
      var r := Run(Init(max, capacity), events + [Admission(late)]);
      s.pc.AcquirePolled? ==>
        && s.free > 0
        && (r.pc == Permitted(s.pc.inv) <==> !late && s.pc.inv !in s.cancelled)
        && (r.pc == Expired(s.pc.inv) <==> late || s.pc.inv in s.cancelled)
  {
    PermitIsFree(max, capacity, events);
    assert (events + [Admission(late)])[..|events|] == events;
    var s := Run(Init(max, capacity), events);
    assert Run(Init(max, capacity), events + [Admission(late)]) == Step(s, Admission(late));
    hide Run, Init, Step;
    if s.pc.AcquirePolled? {
      AdmissionOutcome(s, late);
    }
  }

  // ------------------------------------------------------------ accounting

  /** Every gauge equals the number of things it describes; no counter was ever driven below zero or over a limit. */
  lemma AccountingIsExact(max: nat, capacity: nat, events: seq<Event>)
    ensures var s := Run(Init(max, capacity), events);
      && s.m.tracked == |s.jobs|
      && s.m.uncollected == Count(s.tasks, ReplyEnded)
      && s.m.running == Count(s.guards, IsRunning) && s.m.terminating == Count(s.guards, IsTerminating)
      && s.m.running + s.m.terminating == Count(s.tasks, IsWorking) <= max
      && s.m.queued == |s.queue| + HeldBy(s.pc)
      && s.m.started == s.m.reaped + |s.jobs| && s.m.finished == s.m.reaped + s.m.uncollected
      && s.m.errors == s.m.executionBreaches == s.m.trackedBreaches == s.m.afterStop == s.faults == 0
  {
    Capacity(max, capacity, events);
    RunKeeps(max, capacity, events);
    var s := Run(Init(max, capacity), events);
    hide Run, Waiting, Authority, Answered, Tables;
    RunningPlusTerminating(s.guards);
  }

  // ------------------------------------------------------------ history only grows

  lemma {:induction false} RunGrows(s: State, events: seq<Event>)
    ensures Grows(s.h, Run(s, events).h)
    decreases |events|
  {
    if events != [] {
      RunGrows(s, events[..|events| - 1]);
      GrowsBy(Run(s, events[..|events| - 1]), events[|events| - 1]);
      hide Step;
    }
  }

  lemma {:induction false} RunJoins(s: State, a: seq<Event>, b: seq<Event>)
    ensures Run(s, a + b) == Run(Run(s, a), b)
    decreases |b|
  {
    hide Step;
    if b == [] {
      assert a + b == a;
    } else {
      RunJoins(s, a, b[..|b| - 1]);
      assert (a + b)[..|a + b| - 1] == a + b[..|b| - 1];
    }
  }

  // ------------------------------------------------------------ revocation

  /** Every reply that carries a result was admitted under the authority the dispatcher still sees. */
  lemma AnswersAreCurrent(max: nat, capacity: nat, events: seq<Event>)
    ensures var s := Run(Init(max, capacity), events); var h := s.h;
      && (forall a :: a in h.answers ==>
           a.epoch == a.seen && a.inv in h.admitted && a.inv !in h.revoked && a.inv !in h.drained)
      && h.drained !! h.admitted && h.drained <= s.cancelled
  {
    RunKeeps(max, capacity, events);
    hide Run;
  }

  /** It ran to its end, reported success, and was not cancelled by then. */
  predicate Earned(c: Completion) {
    match c case Finished(ok, cancelled, _) => ok && !cancelled case Panicked => false
  }

  lemma CollectAnswers(s: State, id: nat)
    requires Collecting(s.pc) && id in s.tasks && s.tasks[id].Execution? && Ended(s.tasks[id])
    requires id in s.jobs && s.jobs[id].ExecutionJob? && id < s.nextTask
    ensures var r := Step(s, Collect(id));
      && id !in r.jobs
      && r.h.answers == (if !s.jobs[id].revoked && Earned(s.tasks[id].phase.completion)
                         then s.h.answers + [Answer(s.jobs[id].inv, s.jobs[id].epoch, s.seen)] else s.h.answers)
      && (s.jobs[id].revoked ==>
           r.h.reapedRevoked == s.h.reapedRevoked + multiset{s.jobs[id].inv} && r.jobs == s.jobs - {id})
      && (!s.jobs[id].revoked ==>
           r.jobs == (s.jobs - {id})[s.nextTask := ReplyJob(JoinOutcome(s.tasks[id].phase.completion))])
  {
    hide TaskReaped, DropRecord, JoinOutcome;
    if s.jobs[id].revoked {
      hide SpawnReply;
    } else if CarriesResult(s.tasks[id].phase.completion) {
      assert s.tasks[id].phase.Exited?;
    } else {
      assert s.tasks[id].phase.Exited?;
    }
  }

  /** Collecting an execution answers with its result exactly when it was not revoked and has one to give. */
  lemma AnswersExactlyUnrevoked(max: nat, capacity: nat, events: seq<Event>, id: nat)
    requires var s := Run(Init(max, capacity), events);
      Collecting(s.pc) && id in s.tasks && s.tasks[id].Execution? && Ended(s.tasks[id])
    ensures var s := Run(Init(max, capacity), events); var r := Step(s, Collect(id));
      && id in s.jobs && s.jobs[id].ExecutionJob? && id !in r.jobs
      && r.h.answers == (if !s.jobs[id].revoked && Earned(s.tasks[id].phase.completion)
                         then s.h.answers + [Answer(s.jobs[id].inv, s.jobs[id].epoch, s.seen)] else s.h.answers)
      && (s.jobs[id].revoked ==>
           r.h.reapedRevoked == s.h.reapedRevoked + multiset{s.jobs[id].inv} && r.jobs == s.jobs - {id})
      && (!s.jobs[id].revoked ==>
           r.jobs == (s.jobs - {id})[s.nextTask := ReplyJob(JoinOutcome(s.tasks[id].phase.completion))])
  {
    RunKeeps(max, capacity, events);
    var s := Run(Init(max, capacity), events);
    hide Run, Init;
    OwnsTask(s, id, HeldBy(s.pc), PermitBy(s.pc), s.seen);
    assert id < s.nextTask;
    CollectAnswers(s, id);
  }

  lemma RevokedByAll(s: State, r: State, order: seq<nat>, epoch: nat)
    requires Core(r, 0, 0, epoch) && OnlyRevokes(s, r) && AllRevoked(r.jobs, order) && Enumerates(order, s.jobs)
    ensures forall id :: id in s.jobs && s.jobs[id].ExecutionJob? ==> s.jobs[id].inv in r.h.revoked
  {
  }

  // ------------------------------------------------------------ sweeps, at both selects

  /** A change of `synced` is seen, or its sender is gone, while selecting or with a message in hand. */
  predicate Sweeps(s: State, e: Event) {
    && (s.pc.Select? || s.pc.Acquire?)
    && ((e.Poll? && s.version != s.seen && Enumerates(e.order, s.jobs)) || (e.SyncLost? && Enumerates(e.order, s.jobs)))
  }

  /** The state the sweep starts from: a message in hand is let go first. */
  function BeforeSweep(s: State): State {
    if s.pc.Acquire? then Discard(s.(seen := s.version, pc := Select), s.pc.inv) else s.(seen := s.version)
  }

  lemma SweepIs(s: State, e: Event)
    requires Sweeps(s, e)
    ensures var r := CancelUntrustedWork(BeforeSweep(s), e.order);
      Step(s, e) == if e.SyncLost? then Stop(r) else r
  {
    hide CancelUntrustedWork, Discard;
  }

  lemma BeforeSweepHolds(s: State)
    requires Invariant(s) && (s.pc.Select? || s.pc.Acquire?)
    ensures var t := BeforeSweep(s);
      && Core(t, 0, 0, s.seen) && t.jobs == s.jobs && t.queue == s.queue && t.pc == Select
      && t.seen == s.version && t.version == s.version && t.nextInv == s.nextInv && t.h == s.h
      && (s.pc.Acquire? ==> s.pc.inv in t.cancelled)
  {
    hide Core;
    if s.pc.Acquire? {
      CoreIgnoresPc(s, Select, 1, 0, s.seen);
      SeenIsNotCore(s.(pc := Select), s.version, 1, 0, s.seen);
      DiscardKeeps(s.(seen := s.version, pc := Select), s.pc.inv, 0, 0, s.seen);
      hide Discard;
    } else {
      SeenIsNotCore(s, s.version, 0, 0, s.seen);
    }
  }

  /** A task a sweep has passed over: a reply may be aborted, nothing else changes. */
  predicate AtMostAborted(t: Task, u: Task) {
    u == t || (t.Reply? && u == t.(aborted := true))
  }

  /** What a sweep does to the tasks, and what it leaves of the history. */
  ghost predicate TasksSwept(s: State, r: State) {
    && r.tasks.Keys == s.tasks.Keys && r.jobs.Keys == s.jobs.Keys && r.h.answers == s.h.answers
    && (forall id :: id in s.tasks ==> AtMostAborted(s.tasks[id], r.tasks[id]))
    && (forall id :: id in s.jobs ==> r.jobs[id].ReplyJob? == s.jobs[id].ReplyJob?)
  }

  lemma RevokeJobTasks(s: State, id: nat)
    ensures var r := RevokeJob(s, id);
      && TasksSwept(s, r)
      && (id in s.jobs && s.jobs[id].ReplyJob? && id in s.tasks && s.tasks[id].Reply? ==> r.tasks[id].aborted)
  {
    if id in s.jobs && s.jobs[id].ExecutionJob? {
      var inv := s.jobs[id].inv;
      CancelFrame(s.(jobs := s.jobs[id := ExecutionJob(inv, true, s.jobs[id].epoch)],
                     h := s.h.(revoked := s.h.revoked + {inv})), inv);
    }
    hide Cancel;
  }

  lemma {:induction false} RevokeJobsTasks(s: State, order: seq<nat>)
    ensures var r := RevokeJobs(s, order);
      && TasksSwept(s, r)
      && forall id :: id in order && id in s.jobs && s.jobs[id].ReplyJob? && id in s.tasks && s.tasks[id].Reply? ==>
           r.tasks[id].Reply? && r.tasks[id].aborted
    decreases |order|
  {
    if order != [] {
      var rest := order[..|order| - 1];
      RevokeJobsTasks(s, rest);
      RevokeJobTasks(RevokeJobs(s, rest), order[|order| - 1]);
      hide RevokeJob;
      assert order == rest + [order[|order| - 1]];
    }
  }

  lemma {:induction false} DrainMessagesLeaves(s: State)
    ensures var r := DrainMessages(s); r.tasks == s.tasks && r.jobs == s.jobs && r.h.answers == s.h.answers
    decreases |s.queue|
  {
    if s.queue != [] {
      CancelFrame(s.(queue := s.queue[1..]), s.queue[0]);
      DrainMessagesLeaves(DrainOne(s));
      hide Cancel;
    }
  }

  /** A sweep over the whole table aborts every reply. */
  lemma SweptReplies(t: State, order: seq<nat>)
    requires Enumerates(order, t.jobs)
    ensures var r := CancelUntrustedWork(t, order);
      && TasksSwept(t, r)
      && forall id :: id in t.jobs && t.jobs[id].ReplyJob? && id in t.tasks && t.tasks[id].Reply? ==>
           r.tasks[id].Reply? && r.tasks[id].aborted
  {
    hide RevokeJobs, DrainMessages, AtMostAborted;
    RevokeJobsTasks(t, order);
    DrainMessagesLeaves(RevokeJobs(t, order));
  }

  /** What a sweep over the whole table does to it and to the queue. */
  lemma SweptAll(t: State, order: seq<nat>, epoch: nat)
    requires Core(t, 0, 0, epoch) && Enumerates(order, t.jobs)
    ensures var r := CancelUntrustedWork(t, order);
      && (forall id :: id in t.jobs && t.jobs[id].ExecutionJob? ==> t.jobs[id].inv in r.h.revoked)
      && (forall i :: i in t.queue ==> i in r.h.drained && i in r.cancelled)
      && r.queue == [] && Spared(t, r)
  {
    hide Core, RevokeJobs, DrainMessages;
    RevokeJobsKeeps(t, order, 0, 0, epoch);
    var r := RevokeJobs(t, order);
    RevokedByAll(t, r, order, epoch);
    DrainMessagesKeeps(r, 0, 0, epoch);
    RevokeJobsGrow(t, order);
    DrainMessagesGrow(r);
    hide OnlyRevokes, AllRevoked, Enumerates, Fields;
  }

  /** Issued, and neither waiting, in hand, nor ever admitted. */
  predicate Absent(s: State, inv: nat) {
    inv < s.nextInv && inv !in s.queue && !(Holds(s.pc) && s.pc.inv == inv) && inv !in s.h.admitted
  }

  lemma BeforeSweepTasks(s: State)
    requires s.pc.Select? || s.pc.Acquire?
    ensures BeforeSweep(s).tasks == s.tasks && BeforeSweep(s).jobs == s.jobs
  {
    if s.pc.Acquire? {
      CancelFrame(s.(seen := s.version, pc := Select), s.pc.inv);
    }
    hide Cancel, DropQueued;
  }

  lemma RepliesHaveTasks(s: State)
    requires Invariant(s)
    ensures forall id :: id in s.jobs && s.jobs[id].ReplyJob? ==> id in s.tasks && s.tasks[id].Reply?
  {
    hide Permits, Guards, Counted, Waiting, Authority, Answered, Control;
  }

  lemma HeldIsNew(s: State)
    requires Invariant(s) && s.pc.Acquire?
    ensures s.pc.inv < s.nextInv && s.pc.inv !in s.queue && s.pc.inv !in s.h.admitted
  {
    hide Core;
  }

  /**
    A sweep takes everything: every execution in the table is revoked, every waiting message is
    cancelled and drained, and a message in hand is cancelled and let go unadmitted.
   */
  lemma SweepTakesAll(s: State, e: Event)
    requires Invariant(s) && Sweeps(s, e)
    ensures var r := Step(s, e);
      && (forall id :: id in s.jobs && s.jobs[id].ExecutionJob? ==> s.jobs[id].inv in r.h.revoked)
      && (forall i :: i in s.queue ==> i in r.h.drained && i in r.cancelled)
      && (forall id :: id in s.jobs && s.jobs[id].ReplyJob? ==>
            id in r.tasks && r.tasks[id].Reply? && r.tasks[id].aborted)
      && (s.pc.Acquire? ==> s.pc.inv in r.cancelled && Absent(r, s.pc.inv))
      && r.seen == r.version && r.queue == []
  {
    hide Invariant, Core, Step, BeforeSweep, CancelUntrustedWork, Enumerates, AtMostAborted;
    SweepIs(s, e);
    BeforeSweepHolds(s);
    BeforeSweepTasks(s);
    SweptAll(BeforeSweep(s), e.order, s.seen);
    SweptReplies(BeforeSweep(s), e.order);
    RepliesHaveTasks(s);
    if s.pc.Acquire? {
      HeldIsNew(s);
    }
  }

  // ------------------------------------------------------------ an absent invocation stays absent

  /** Task steps leave the queue; the outside only appends fresh invocations to it. */
  lemma QuietQueue(s: State, e: Event)
    requires IsTaskEvent(e) || IsOutsideEvent(e)
    ensures var r := Step(s, e);
      (r.queue == s.queue && r.nextInv == s.nextInv) || (r.queue == s.queue + [s.nextInv] && r.nextInv == s.nextInv + 1)
  {
    hide DropExecution, DropRecord, Queued, Cancel, Dispatch;
    match e
    case DropGuard(id, panicked) =>
      hide Outside;
      if id in s.tasks && s.tasks[id].Execution? { CancelFrame(s, s.tasks[id].inv); }
    case ExecutionEnds(id, _, _, _) =>
      hide Outside;
      if id in s.tasks && s.tasks[id].Execution? { CancelFrame(s, s.tasks[id].inv); }
    case CancelInvocation(inv) => hide RunTask; CancelFrame(s, inv);
    case _ =>
  }

  lemma BeforeSweepSpares(s: State)
    requires s.pc.Select? || s.pc.Acquire?
    ensures var t := BeforeSweep(s); t.pc == Select && t.queue == s.queue && t.nextInv == s.nextInv && t.h == s.h
  {
    if s.pc.Acquire? {
      CancelFrame(s.(seen := s.version, pc := Select), s.pc.inv);
    }
    hide Cancel, DropQueued;
  }

  lemma SweepAbsent(s: State, e: Event, inv: nat)
    requires Absent(s, inv) && Sweeps(s, e)
    ensures Absent(Step(s, e), inv)
  {
    hide Step, RevokeJobs, DrainMessages, BeforeSweep, Enumerates, Grows;
    SweepIs(s, e);
    BeforeSweepSpares(s);
    var t := BeforeSweep(s);
    RevokeJobsGrow(t, e.order);
    DrainMessagesGrow(RevokeJobs(t, e.order));
  }

  lemma AdmitAbsent(s: State, inv: nat)
    requires Absent(s, inv) && s.pc.Permitted?
    ensures Absent(AdmitStep(s, s.pc.inv), inv)
  {
    hide DropQueued, TaskStarted, ExecutionStarted, Terminating, Cancel;
    CancelFrame(s.(free := s.free + 1, pc := Select), s.pc.inv);
  }

  lemma ReceiveAbsent(s: State, inv: nat)
    requires Absent(s, inv) && s.queue != []
    ensures Absent(s.(pc := Taken(s.queue[0]), queue := s.queue[1..]), inv)
  {
    assert s.queue[0] in s.queue;
  }

  /** A message let go is gone, and nothing else moves. */
  lemma DiscardAbsent(s: State, e: Event, inv: nat)
    requires Absent(s, inv) && (e.Shutdown? || e.CheckSync? || e.Admission?)
    ensures Absent(Dispatch(s, e), inv)
  {
    hide DropQueued, Cancel, CollectTask, CancelUntrustedWork, DrainMessages, AdmitStep;
    match e
    case Shutdown => if s.pc.Acquire? { CancelFrame(s, s.pc.inv); }
    case CheckSync => if s.pc.Taken? { CancelFrame(s.(pc := Select), s.pc.inv); }
    case Admission(_) => if s.pc.AcquirePolled? { CancelFrame(s, s.pc.inv); }
  }

  lemma CollectAbsent(s: State, e: Event, inv: nat)
    requires Absent(s, inv) && (e.DrainQueue? || e.Collect?)
    ensures Absent(Dispatch(s, e), inv)
  {
    hide CollectTask, DrainMessages, CancelUntrustedWork, AdmitStep, Cancel, Ended, Collecting;
    match e
    case DrainQueue => DrainMessagesGrow(s.(pc := Draining));
    case Collect(id) =>
      if id in s.tasks { CollectGrows(s.(tasks := s.tasks - {id}, pc := AfterCollect(s.pc)), id, s.tasks[id]); }
  }

  lemma DispatchAbsent(s: State, e: Event, inv: nat)
    requires Absent(s, inv) && !Sweeps(s, e)
    ensures Absent(Dispatch(s, e), inv)
  {
    hide CollectTask, CancelUntrustedWork, DrainMessages, Enumerates, AdmitStep, Discard;
    match e
    case Shutdown => hide Dispatch, Absent; DiscardAbsent(s, e, inv);
    case CheckSync => hide Dispatch, Absent; DiscardAbsent(s, e, inv);
    case Admission(_) => hide Dispatch, Absent; DiscardAbsent(s, e, inv);
    case DrainQueue => hide Dispatch, Absent; CollectAbsent(s, e, inv);
    case Collect(_) => hide Dispatch, Absent; CollectAbsent(s, e, inv);
    case Admit => if s.pc.Permitted? { AdmitAbsent(s, inv); }
    case Receive => if s.queue != [] { ReceiveAbsent(s, inv); }
    case _ =>
  }

  lemma AbsentStep(s: State, e: Event, inv: nat)
    requires Absent(s, inv)
    ensures Absent(Step(s, e), inv)
  {
    hide Dispatch, RunTask, Outside;
    if IsTaskEvent(e) || IsOutsideEvent(e) {
      QuietStep(s, e);
      QuietQueue(s, e);
    } else if Sweeps(s, e) {
      SweepAbsent(s, e, inv);
    } else {
      DispatchAbsent(s, e, inv);
    }
  }

  /** However it left, an invocation that is neither waiting nor in hand nor admitted is never admitted. */
  lemma {:induction false} AbsentForever(s: State, inv: nat, events: seq<Event>)
    requires Absent(s, inv)
    ensures Absent(Run(s, events), inv)
    decreases |events|
  {
    hide Step, Absent;
    if events != [] {
      AbsentForever(s, inv, events[..|events| - 1]);
      AbsentStep(Run(s, events[..|events| - 1]), events[|events| - 1], inv);
    }
  }

  lemma RevokedIsReaped(s: State, inv: nat)
    requires Invariant(s) && inv in s.h.revoked
    ensures s.h.reapedRevoked[inv] <= 1
    ensures s.pc.Done? ==> s.h.reapedRevoked[inv] == 1
  {
  }

  /** What a sweep of `s` means for a later state `t`. */
  ghost predicate Final(s: State, t: State) {
    && (forall id, a :: id in s.jobs && s.jobs[id].ExecutionJob? && a in t.h.answers ==> a.inv != s.jobs[id].inv)
    && (forall i :: i in s.queue ==> i !in t.h.admitted)
    && (s.pc.Acquire? ==> s.pc.inv !in t.h.admitted)
    && (forall id :: id in s.jobs && s.jobs[id].ExecutionJob? ==>
          && t.h.reapedRevoked[s.jobs[id].inv] <= 1
          && (t.pc.Done? ==> t.h.reapedRevoked[s.jobs[id].inv] == 1))
  }

  lemma AbsentIsUnadmitted(s: State, inv: nat)
    requires Absent(s, inv)
    ensures inv !in s.h.admitted
  {
  }

  /**
    A sweep is final, wherever it is made and whatever happens afterwards. An execution in the table
    then never answers and is reaped exactly once by the time the drain is done; a message waiting
    or in hand then is never admitted.
   */
  lemma RevocationIsFinal(max: nat, capacity: nat, before: seq<Event>, e: Event, after: seq<Event>)
    ensures var s := Run(Init(max, capacity), before);
      var t := Run(Init(max, capacity), before + [e] + after);
      Sweeps(s, e) ==> Final(s, t)
  {
    var init := Init(max, capacity);
    var s, t := Run(init, before), Run(init, before + [e] + after);
    RunKeeps(max, capacity, before);
    RunKeeps(max, capacity, before + [e] + after);
    AnswersAreCurrent(max, capacity, before + [e] + after);
    assert (before + [e])[..|before|] == before;
    RunJoins(init, before + [e], after);
    assert Run(init, before + [e]) == Step(s, e);
    hide Invariant, Step, Init, Run, Sweeps, Absent;
    if Sweeps(s, e) {
      SweepTakesAll(s, e);
      RunGrows(Step(s, e), after);
      if s.pc.Acquire? {
        AbsentForever(Step(s, e), s.pc.inv, after);
        AbsentIsUnadmitted(t, s.pc.inv);
      }
      forall id | id in s.jobs && s.jobs[id].ExecutionJob?
        ensures t.h.reapedRevoked[s.jobs[id].inv] <= 1 && (t.pc.Done? ==> t.h.reapedRevoked[s.jobs[id].inv] == 1)
      {
        RevokedIsReaped(t, s.jobs[id].inv);
      }
    }
  }
}
