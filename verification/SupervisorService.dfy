/** What becomes of one message: taken, refused, timed out, or served to its answer and its reaping. */
module SupervisorService {
  import opened Basics
  import opened Counting
  import opened DispatchMetrics
  import opened Supervisor
  import opened SupervisorSafety
  import opened SupervisorSteps
  import opened SupervisorTheorems

  lemma RunMore(s: State, events: seq<Event>, e: Event)
    ensures Run(s, events + [e]) == Step(Run(s, events), e)
  {
    hide Step;
    assert (events + [e])[..|events|] == events;
  }

  lemma RunOne(s: State, e: Event)
    ensures Run(s, [e]) == Step(s, e)
  {
    hide Step;
    RunMore(s, [], e);
    assert [] + [e] == [e];
  }

  lemma RunTwo(s: State, d: Event, e: Event)
    ensures Run(s, [d, e]) == Step(Step(s, d), e)
  {
    hide Step, Run;
    RunOne(s, d);
    RunMore(s, [d], e);
    assert [d] + [e] == [d, e];
  }

  lemma RunThree(s: State, d: Event, e: Event, f: Event)
    ensures Run(s, [d, e, f]) == Step(Step(Step(s, d), e), f)
  {
    hide Step, Run;
    RunTwo(s, d, e);
    RunMore(s, [d, e], f);
    assert [d, e] + [f] == [d, e, f];
  }

  // ------------------------------------------------------------ taken

  /** A message may be taken: the loop has polled, a slot in the table is free, and one waits. */
  predicate Ready(s: State) {
    s.pc.Polled? && |s.jobs| < s.max && s.queue != []
  }

  lemma ReceiveIs(s: State)
    requires Ready(s)
    ensures Step(s, Receive) == s.(pc := Taken(s.queue[0]), queue := s.queue[1..])
  {
    hide RunTask, Outside, CollectTask, CancelUntrustedWork, DrainMessages, AdmitStep, Discard;
  }

  lemma CheckIs(s: State)
    requires s.pc.Taken?
    ensures Step(s, CheckSync) ==
      if s.synced then s.(pc := Acquire(s.pc.inv)) else Discard(s.(pc := Select), s.pc.inv)
  {
    hide RunTask, Outside, CollectTask, CancelUntrustedWork, DrainMessages, AdmitStep, Discard;
  }

  /** The message at the head of the queue is issued, once, and was never admitted. */
  lemma HeadIsNew(s: State)
    requires Invariant(s) && s.queue != []
    ensures s.queue[0] < s.nextInv && s.queue[0] !in s.queue[1..] && s.queue[0] !in s.h.admitted
  {
    WaitingTail(s);
    hide Tables, Permits, Counted, Authority, Answered;
  }

  /**
    In every run, a message taken goes on to its permit exactly when the host is synced; on any other
    host it is cancelled, dropped and never admitted.
   */
  lemma TakenExactlyWhenSynced(max: nat, capacity: nat, events: seq<Event>)
    requires Ready(Run(Init(max, capacity), events))
    ensures var s := Run(Init(max, capacity), events); var q := s.queue[0];
      var r := Run(Init(max, capacity), events + [Receive, CheckSync]);
      && (r.pc == Acquire(q) <==> s.synced) && r.queue == s.queue[1..]
      && (s.synced ==> r == s.(pc := Acquire(q), queue := s.queue[1..]))
      && (!s.synced ==> r.pc == Select && q in r.cancelled && Absent(r, q) && r.jobs == s.jobs && r.tasks == s.tasks)
  {
    var s := Run(Init(max, capacity), events);
    RunKeeps(max, capacity, events);
    RunJoins(Init(max, capacity), events, [Receive, CheckSync]);
    RunTwo(s, Receive, CheckSync);
    hide Run, Init, Step;
    HeadIsNew(s);
    ReceiveIs(s);
    var t := Step(s, Receive);
    CheckIs(t);
    CancelFrame(t.(pc := Select), s.queue[0]);
    hide Cancel, Invariant;
  }

  // ------------------------------------------------------------ timed out, rejected

  lemma ExpiryIs(s: State)
    requires s.pc.AcquirePolled?
    ensures var inv := s.pc.inv; var r := Step(s, Admission(true)); r == Cancel(s, inv).(pc := Expired(inv))
  {
    hide RunTask, Outside, CollectTask, CancelUntrustedWork, DrainMessages, AdmitStep, Discard, Cancel;
  }

  lemma TimeoutIs(s: State)
    requires s.pc.Expired?
    ensures Step(s, ReplyTimeout) == ReplyTimeoutStep(s)
  {
    hide RunTask, Outside, CollectTask, CancelUntrustedWork, DrainMessages, AdmitStep, Discard, ReplyTimeoutStep;
  }

  lemma CancelKeepsTracked(s: State, inv: nat)
    ensures var m := Cancel(s, inv).m; m.tracked == s.m.tracked && m.queued == s.m.queued
  {
  }

  /** The message in hand is issued, no longer queued, and was never admitted. */
  lemma InHandIsNew(s: State)
    requires Invariant(s) && (s.pc.AcquirePolled? || s.pc.Permitted? || s.pc.Acquire?)
    ensures s.pc.inv < s.nextInv && s.pc.inv !in s.queue && s.pc.inv !in s.h.admitted
    ensures s.nextTask !in s.jobs && s.nextTask !in s.tasks
  {
    hide Permits, Counted, Authority, Answered;
  }

  /** In every run, a message whose deadline passes at the permit is cancelled and answered by a reply task. */
  lemma LateIsRepliedTo(max: nat, capacity: nat, events: seq<Event>)
    requires Run(Init(max, capacity), events).pc.AcquirePolled?
    ensures var s := Run(Init(max, capacity), events); var inv := s.pc.inv;
      var r := Run(Init(max, capacity), events + [Admission(true), ReplyTimeout]);
      && r.pc == Select && inv in r.cancelled && Absent(r, inv) && r.free == s.free
      && r.tasks == s.tasks[s.nextTask := Reply(false, None)] && r.jobs == s.jobs[s.nextTask := ReplyJob(Joined)]
      && s.nextTask !in s.jobs && r.m.queued + 1 == s.m.queued && r.m.tracked == s.m.tracked + 1
  {
    var s := Run(Init(max, capacity), events);
    RunKeeps(max, capacity, events);
    AccountingIsExact(max, capacity, events);
    RunJoins(Init(max, capacity), events, [Admission(true), ReplyTimeout]);
    RunTwo(s, Admission(true), ReplyTimeout);
    hide Run, Init, Step;
    InHandIsNew(s);
    ExpiryIs(s);
    TimeoutIs(Step(s, Admission(true)));
    CancelFrame(s, s.pc.inv);
    CancelKeepsTracked(s, s.pc.inv);
    hide Cancel, Invariant, Count;
  }

  /** A message without a route or a loaded module gives its permit back and is let go, not cancelled. */
  lemma RejectIs(s: State)
    requires Invariant(s) && s.pc.Permitted?
    ensures var r := Step(s, Reject);
      && r.pc == Select && r.free == s.free + 1 && r.tasks == s.tasks && r.jobs == s.jobs
      && r.cancelled == s.cancelled && Absent(r, s.pc.inv)
  {
    InHandIsNew(s);
    hide RunTask, Outside, CollectTask, CancelUntrustedWork, DrainMessages, AdmitStep, Discard, Invariant, DropQueued;
  }

  // ------------------------------------------------------------ admitted

  lemma PollIs(s: State, order: seq<nat>)
    requires Enumerates(order, s.jobs) && s.version == s.seen && (s.pc.Select? || s.pc.Acquire?)
    ensures Step(s, Poll(order)) == s.(pc := if s.pc.Select? then Polled else AcquirePolled(s.pc.inv))
  {
    hide RunTask, Outside, CollectTask, CancelUntrustedWork, DrainMessages, AdmitStep, Discard, Enumerates;
  }

  lemma PermitIs(s: State)
    requires s.pc.AcquirePolled? && s.free > 0 && s.pc.inv !in s.cancelled
    ensures Step(s, Admission(false)) == s.(free := s.free - 1, pc := Permitted(s.pc.inv))
  {
    hide RunTask, Outside, CollectTask, CancelUntrustedWork, DrainMessages, AdmitStep, Discard, Cancel;
  }

  /** The state after an admission: one working execution, its job and its guard, and nothing else new. */
  predicate Admits(s: State, r: State, inv: nat) {
    && r.tasks == s.tasks[s.nextTask := Execution(inv, Working)]
    && r.jobs == s.jobs[s.nextTask := ExecutionJob(inv, false, s.seen)]
    && r.guards == s.guards[inv := false] && r.nextTask == s.nextTask + 1 && r.free + 1 == s.free
    && r.h == s.h.(admitted := s.h.admitted + {inv})
    && r.max == s.max && r.pc == Select && r.synced == s.synced && r.version == s.version && r.seen == s.seen
    && r.cancelled == s.cancelled
  }

  lemma AdmitIs(s: State)
    requires s.pc.Permitted? && s.synced && s.version == s.seen && s.pc.inv !in s.cancelled
    ensures var r := Step(s, Admit); Admits(s.(free := s.free + 1), r, s.pc.inv) && r.queue == s.queue
  {
    hide RunTask, Outside, CollectTask, CancelUntrustedWork, DrainMessages, Discard, DropQueued, TaskStarted;
    hide ExecutionStarted, Terminating;
  }

  /** A slot in the table leaves a permit in the semaphore. */
  lemma FreeForHeld(s: State)
    requires Invariant(s) && s.pc.Acquire?
    ensures s.free > 0
  {
    CountAtMost(s.tasks, HasPermit);
    hide Guards, Counted, Waiting, Authority, Answered, Count;
    assert s.tasks.Keys <= s.jobs.Keys;
    SubsetSize(s.tasks.Keys, s.jobs.Keys);
    assert |s.tasks| == |s.tasks.Keys| && |s.jobs| == |s.jobs.Keys|;
  }

  lemma {:induction false} AdmittedFrom(s: State, order: seq<nat>)
    requires Invariant(s) && s.pc.Acquire? && s.synced && s.version == s.seen && s.pc.inv !in s.cancelled
    requires Enumerates(order, s.jobs)
    ensures var r := Run(s, [Poll(order), Admission(false), Admit]); Admits(s, r, s.pc.inv) && r.queue == s.queue
  {
    hide Run, Step;
    RunThree(s, Poll(order), Admission(false), Admit);
    PollIs(s, order);
    var t := Step(s, Poll(order));
    FreeForHeld(s);
    PermitIs(t);
    AdmitIs(Step(t, Admission(false)));
    hide Invariant, Enumerates;
  }

  lemma SameAdmission(s: State, t: State, r: State, inv: nat)
    requires t == s.(pc := t.pc, queue := t.queue) && Admits(t, r, inv)
    ensures Admits(s, r, inv)
  {
  }

  /**
    A message is served. In every run, on a synced host with a slot free and no change of `synced`
    unseen, the message at the head of the queue, if not cancelled, is admitted by the next steps of
    the loop, with one new working execution and nothing else changed.
   */
  lemma MessageIsAdmitted(max: nat, capacity: nat, events: seq<Event>, order: seq<nat>)
    requires var s := Run(Init(max, capacity), events);
      Ready(s) && s.synced && s.version == s.seen && s.queue[0] !in s.cancelled && Enumerates(order, s.jobs)
    ensures var s := Run(Init(max, capacity), events); var q := s.queue[0];
      var r := Run(Init(max, capacity), events + ([Receive, CheckSync] + [Poll(order), Admission(false), Admit]));
      q !in s.h.admitted && Admits(s, r, q) && r.queue == s.queue[1..]
  {
    var s := Run(Init(max, capacity), events);
    var es, fs := [Receive, CheckSync], [Poll(order), Admission(false), Admit];
    hide Init, Step, Invariant, Admits, Enumerates;
    RunKeeps(max, capacity, events);
    RunKeeps(max, capacity, events + es);
    TakenExactlyWhenSynced(max, capacity, events);
    HeadIsNew(s);
    RunJoins(Init(max, capacity), events, es + fs);
    RunJoins(s, es, fs);
    RunJoins(Init(max, capacity), events, es);
    var t := Run(s, es);
    AdmittedFrom(t, order);
    SameAdmission(s, t, Run(t, fs), s.queue[0]);
  }

  // ------------------------------------------------------------ answered

  lemma DropGuardIs(s: State, id: nat)
    requires id in s.tasks && s.tasks[id].Execution? && s.tasks[id].phase.Working? && s.tasks[id].inv in s.guards
    ensures var inv := s.tasks[id].inv; var r := Step(s, DropGuard(id, false));
      r == s.(tasks := s.tasks[id := Execution(inv, Unguarded(false))], guards := s.guards - {inv}, m := r.m)
  {
    hide Dispatch, Outside, DropExecution, Cancel;
  }

  lemma DropPermitIs(s: State, id: nat)
    requires id in s.tasks && s.tasks[id].Execution? && s.tasks[id].phase.Unguarded?
    ensures var t := s.tasks[id];
      Step(s, DropPermit(id)) ==
        s.(tasks := s.tasks[id := Execution(t.inv, Released(t.phase.panicked))], free := s.free + 1)
  {
    hide Dispatch, Outside, DropExecution, Cancel;
  }

  lemma EndsIs(s: State, id: nat)
    requires id in s.tasks && s.tasks[id].Execution? && s.tasks[id].phase == Released(false)
    requires s.tasks[id].inv !in s.cancelled
    ensures var inv := s.tasks[id].inv;
      Step(s, ExecutionEnds(id, true, false, false)) ==
        s.(tasks := s.tasks[id := Execution(inv, Exited(Finished(true, false, false)))])
  {
    hide Dispatch, Outside, DropExecution, Cancel;
  }

  /** The execution returns its guard and its permit and ends well, in time and uncancelled. */
  lemma WorksThrough(s: State, id: nat, inv: nat)
    requires id in s.tasks && s.tasks[id] == Execution(inv, Working) && inv in s.guards && inv !in s.cancelled
    ensures var r := Run(s, [DropGuard(id, false), DropPermit(id), ExecutionEnds(id, true, false, false)]);
      && r == s.(tasks := r.tasks, guards := s.guards - {inv}, free := s.free + 1, m := r.m)
      && r.tasks == s.tasks[id := Execution(inv, Exited(Finished(true, false, false)))]
  {
    hide Run, Step;
    RunThree(s, DropGuard(id, false), DropPermit(id), ExecutionEnds(id, true, false, false));
    DropGuardIs(s, id);
    var a := Step(s, DropGuard(id, false));
    DropPermitIs(a, id);
    EndsIs(Step(a, DropPermit(id)), id);
  }

  lemma CollectExecutionIs(s: State, id: nat)
    requires s.pc.Polled? && id in s.tasks && id in s.jobs && s.jobs[id].ExecutionJob? && !s.jobs[id].revoked
    requires s.tasks[id] == Execution(s.jobs[id].inv, Exited(Finished(true, false, false)))
    ensures var job := s.jobs[id];
      Step(s, Collect(id)) ==
        s.(pc := Select, nextTask := s.nextTask + 1,
           tasks := (s.tasks - {id})[s.nextTask := Reply(false, None)],
           jobs := (s.jobs - {id})[s.nextTask := ReplyJob(Joined)],
           h := s.h.(answers := s.h.answers + [Answer(job.inv, job.epoch, s.seen)]))
  {
    hide RunTask, Outside, CancelUntrustedWork, DrainMessages, AdmitStep, Discard;
  }

  lemma CollectReplyIs(s: State, id: nat)
    requires s.pc.Polled? && id in s.tasks && id in s.jobs && s.jobs[id].ReplyJob?
    requires s.tasks[id].Reply? && s.tasks[id].end.Some?
    ensures var r := Step(s, Collect(id));
      r == s.(pc := Select, tasks := s.tasks - {id}, jobs := s.jobs - {id}, m := r.m)
  {
    hide RunTask, Outside, CancelUntrustedWork, DrainMessages, AdmitStep, Discard, TaskReaped;
  }

  lemma ReplyEndsIs(s: State, id: nat)
    requires id in s.tasks && s.tasks[id] == Reply(false, None)
    ensures var r := Step(s, ReplyEnds(id, Joined));
      r == s.(tasks := s.tasks[id := Reply(false, Some(Joined))], m := r.m)
  {
    hide Dispatch, Outside, DropRecord;
  }

  lemma Enumerating(order: seq<nat>, jobs: map<nat, Job>, id: nat, job: Job)
    requires Enumerates(order, jobs)
    ensures Enumerates(order + [id], jobs[id := job])
  {
  }

  /** An execution that ends well, its collection, and its reply. */
  function Labour(t: nat): seq<Event> {
    [DropGuard(t, false), DropPermit(t), ExecutionEnds(t, true, false, false)]
  }

  function Collection(t: nat, order: seq<nat>): seq<Event> {
    [Poll(order + [t]), Collect(t)]
  }

  function Reaping(t: nat, order: seq<nat>): seq<Event> {
    [ReplyEnds(t, Joined), Poll(order + [t]), Collect(t)]
  }

  /** From the admission to the reply task: the execution's own result is the answer. */
  lemma AnswersAfter(s: State, r: State, inv: nat, order: seq<nat>)
    requires Admits(s, r, inv) && inv !in s.cancelled && s.version == s.seen && Enumerates(order, s.jobs)
    requires s.nextTask !in s.tasks && s.nextTask !in s.jobs
    ensures var t := s.nextTask; var a := Run(r, Labour(t) + Collection(t, order));
      && a.pc == Select && a.queue == r.queue && a.version == a.seen && a.free == s.free
      && a.tasks == s.tasks[t + 1 := Reply(false, None)] && a.jobs == s.jobs[t + 1 := ReplyJob(Joined)]
      && a.h == r.h.(answers := s.h.answers + [Answer(inv, s.seen, s.seen)])
  {
    var t := s.nextTask;
    hide Run, Step;
    RunJoins(r, Labour(t), Collection(t, order));
    WorksThrough(r, t, inv);
    var p := Run(r, Labour(t));
    RunTwo(p, Poll(order + [t]), Collect(t));
    Enumerating(order, s.jobs, t, r.jobs[t]);
    hide Enumerates;
    PollIs(p, order + [t]);
    CollectExecutionIs(Step(p, Poll(order + [t])), t);
    assert p.tasks - {t} == s.tasks && p.jobs - {t} == s.jobs;
  }

  /** The reply ends and is reaped. */
  lemma ReapsAfter(a: State, tasks: map<nat, Task>, jobs: map<nat, Job>, id: nat, order: seq<nat>)
    requires a.pc.Select? && a.version == a.seen && Enumerates(order, jobs) && id !in tasks && id !in jobs
    requires a.tasks == tasks[id := Reply(false, None)] && a.jobs == jobs[id := ReplyJob(Joined)]
    ensures var r := Run(a, Reaping(id, order));
      r.tasks == tasks && r.jobs == jobs && r.pc == a.pc && r.queue == a.queue && r.free == a.free && r.h == a.h
  {
    hide Run, Step;
    RunThree(a, ReplyEnds(id, Joined), Poll(order + [id]), Collect(id));
    ReplyEndsIs(a, id);
    var b := Step(a, ReplyEnds(id, Joined));
    Enumerating(order, jobs, id, ReplyJob(Joined));
    hide Enumerates;
    PollIs(b, order + [id]);
    CollectReplyIs(Step(b, Poll(order + [id])), id);
    assert b.tasks - {id} == tasks && b.jobs - {id} == jobs;
  }

  /** What follows the admission of a message, up to the reaping of its reply. */
  function Service(t: nat, order: seq<nat>): seq<Event> {
    Labour(t) + Collection(t, order) + Reaping(t + 1, order)
  }

  lemma ServedAfter(s: State, r: State, inv: nat, order: seq<nat>)
    requires Admits(s, r, inv) && inv !in s.cancelled && s.version == s.seen && Enumerates(order, s.jobs)
    requires s.nextTask !in s.tasks && s.nextTask !in s.jobs && s.nextTask + 1 !in s.tasks && s.nextTask + 1 !in s.jobs
    ensures var e := Run(r, Service(s.nextTask, order));
      && e.tasks == s.tasks && e.jobs == s.jobs && e.free == s.free && e.pc == Select && e.queue == r.queue
      && e.h == r.h.(answers := s.h.answers + [Answer(inv, s.seen, s.seen)])
  {
    hide Run, Enumerates, Admits, Labour, Collection, Reaping;
    var t := s.nextTask;
    var es := Labour(t) + Collection(t, order);
    RunJoins(r, es, Reaping(t + 1, order));
    AnswersAfter(s, r, inv, order);
    ReapsAfter(Run(r, es), s.tasks, s.jobs, t + 1, order);
  }

  /** Task ids from the next one on are free. */
  lemma FreshIds(s: State)
    requires Invariant(s)
    ensures forall id :: id >= s.nextTask ==> id !in s.tasks && id !in s.jobs
  {
    hide Permits, Guards, Counted, Waiting, Authority, Answered, Control;
  }

  /**
    A message is served to the end. In every run, on a synced host with a slot free and no unseen change
    of `synced`, the message at the head of the queue, if neither cancelled nor late and well executed, is
    admitted and answered with its own result; afterwards the tables and the permits are as before.
   */
  lemma MessageIsAnswered(max: nat, capacity: nat, events: seq<Event>, order: seq<nat>)
    requires var s := Run(Init(max, capacity), events);
      Ready(s) && s.synced && s.version == s.seen && s.queue[0] !in s.cancelled && Enumerates(order, s.jobs)
    ensures var s := Run(Init(max, capacity), events); var q := s.queue[0];
      var es := [Receive, CheckSync] + [Poll(order), Admission(false), Admit];
      var r := Run(Init(max, capacity), events + (es + Service(s.nextTask, order)));
      && q !in s.h.admitted && r.h.admitted == s.h.admitted + {q} && r.queue == s.queue[1..]
      && r.h.answers == s.h.answers + [Answer(q, s.seen, s.seen)]
      && r.tasks == s.tasks && r.jobs == s.jobs && r.free == s.free && r.pc == Select
  {
    var s := Run(Init(max, capacity), events);
    var es := [Receive, CheckSync] + [Poll(order), Admission(false), Admit];
    hide Init, Step, Invariant, Enumerates, Service;
    RunKeeps(max, capacity, events);
    FreshIds(s);
    MessageIsAdmitted(max, capacity, events, order);
    RunJoins(Init(max, capacity), events, es + Service(s.nextTask, order));
    RunJoins(s, es, Service(s.nextTask, order));
    RunJoins(Init(max, capacity), events, es);
    hide Run;
    ServedAfter(s, Run(s, es), s.queue[0], order);
  }

  // ------------------------------------------------------------ answers are earned

  /** The step that ended this execution, and what was known of its invocation then. */
  ghost predicate EndedBy(start: State, events: seq<Event>, i: nat, id: nat, inv: nat, ok: bool, cancelled: bool) {
    && i < |events| && events[i].ExecutionEnds? && events[i].task == id && events[i].ok == ok
    && var s := Run(start, events[..i]);
       && id in s.tasks && s.tasks[id] == Execution(inv, Released(false))
       && cancelled == (inv in s.cancelled || events[i].late)
  }

  predicate HasFinished(t: Task) {
    t.Execution? && t.phase.Exited? && t.phase.completion.Finished?
  }

  lemma SpawnedTasks(s: State, outcome: JoinEnd)
    ensures SpawnReply(s, outcome).tasks == s.tasks[s.nextTask := Reply(false, None)]
  {
  }

  /** Collecting adds at most a reply task, and changes none. */
  lemma CollectionAdds(s: State, id: nat, task: Task)
    ensures var r := CollectTask(s, id, task);
      r.tasks == s.tasks || r.tasks == s.tasks[s.nextTask := Reply(false, None)]
  {
    hide TaskReaped, DropRecord, CarriesResult, JoinOutcome, SpawnReply;
    if id in s.jobs && s.jobs[id].ExecutionJob? && !s.jobs[id].revoked && task.Execution? && task.phase.Exited? {
      var owned := s.(jobs := s.jobs - {id});
      var answered := owned.(h := s.h.(answers := s.h.answers + [Answer(s.jobs[id].inv, s.jobs[id].epoch, s.seen)]));
      SpawnedTasks(owned, JoinOutcome(task.phase.completion));
      SpawnedTasks(answered, JoinOutcome(task.phase.completion));
    }
  }

  lemma CollectedTasks(s: State, id: nat, task: Task, k: nat)
    requires k in CollectTask(s, id, task).tasks && HasFinished(CollectTask(s, id, task).tasks[k])
    ensures k in s.tasks && s.tasks[k] == CollectTask(s, id, task).tasks[k]
  {
    CollectionAdds(s, id, task);
    hide CollectTask;
  }

  lemma SweptFinished(s: State, order: seq<nat>, k: nat)
    requires Enumerates(order, s.jobs)
    requires k in CancelUntrustedWork(s, order).tasks && HasFinished(CancelUntrustedWork(s, order).tasks[k])
    ensures k in s.tasks && s.tasks[k] == CancelUntrustedWork(s, order).tasks[k]
  {
    SweptReplies(s, order);
    hide CancelUntrustedWork, Enumerates;
  }

  lemma DiscardLeaves(s: State, e: Event)
    requires e.Shutdown? || e.CheckSync? || e.Admission?
    ensures Dispatch(s, e).tasks == s.tasks && Dispatch(s, e).h == s.h
  {
    hide DropQueued, Cancel, CollectTask, CancelUntrustedWork, DrainMessages, AdmitStep;
    match e
    case Shutdown => if s.pc.Acquire? { CancelFrame(s, s.pc.inv); }
    case CheckSync => if s.pc.Taken? { CancelFrame(s.(pc := Select), s.pc.inv); }
    case Admission(_) => if s.pc.AcquirePolled? { CancelFrame(s, s.pc.inv); }
  }

  lemma SweepLeaves(s: State, e: Event, k: nat)
    requires Sweeps(s, e) && k in Step(s, e).tasks && HasFinished(Step(s, e).tasks[k])
    ensures k in s.tasks && s.tasks[k] == Step(s, e).tasks[k]
  {
    hide Step, CancelUntrustedWork, BeforeSweep, HasFinished;
    SweepIs(s, e);
    BeforeSweepTasks(s);
    SweptFinished(BeforeSweep(s), e.order, k);
  }

  lemma AdmitLeaves(s: State, inv: nat, k: nat)
    requires k in AdmitStep(s, inv).tasks && HasFinished(AdmitStep(s, inv).tasks[k])
    ensures k in s.tasks && s.tasks[k] == AdmitStep(s, inv).tasks[k]
  {
    CancelFrame(s.(free := s.free + 1, pc := Select), inv);
    hide DropQueued, TaskStarted, ExecutionStarted, Terminating, Cancel;
  }

  lemma CollectLeaves(s: State, id: nat, k: nat)
    requires k in Step(s, Collect(id)).tasks && HasFinished(Step(s, Collect(id)).tasks[k])
    ensures k in s.tasks && s.tasks[k] == Step(s, Collect(id)).tasks[k]
  {
    hide CollectTask, CancelUntrustedWork, DrainMessages, AdmitStep, Discard, RunTask, Outside, HasFinished;
    if Step(s, Collect(id)) != s {
      CollectedTasks(s.(tasks := s.tasks - {id}, pc := AfterCollect(s.pc)), id, s.tasks[id], k);
    }
  }

  lemma RestLeaves(s: State, e: Event, k: nat)
    requires e.Rest? || e.Receive? || e.QueueClosed? || e.ReplyTimeout? || e.Reject? || e.DrainDone? || e.DrainQueue?
    requires k in Dispatch(s, e).tasks && HasFinished(Dispatch(s, e).tasks[k])
    ensures k in s.tasks && s.tasks[k] == Dispatch(s, e).tasks[k]
  {
    hide CollectTask, CancelUntrustedWork, DrainMessages, AdmitStep, Discard, DropQueued, TaskStarted;
    if e.DrainQueue? {
      DrainMessagesLeaves(s.(pc := Draining));
    }
  }

  lemma PollLeaves(s: State, e: Event)
    requires (e.Poll? || e.SyncLost?) && !Sweeps(s, e)
    ensures Step(s, e).tasks == s.tasks && Step(s, e).h == s.h
  {
    hide CollectTask, CancelUntrustedWork, DrainMessages, AdmitStep, Discard, RunTask, Outside, Enumerates;
  }

  lemma AdmitIsStep(s: State)
    ensures Dispatch(s, Admit) == if s.pc.Permitted? then AdmitStep(s, s.pc.inv) else s
  {
    hide CollectTask, CancelUntrustedWork, DrainMessages, AdmitStep, Discard;
  }

  /** The dispatcher ends nothing. */
  lemma DispatchEndsNothing(s: State, e: Event, k: nat)
    requires !IsTaskEvent(e) && !IsOutsideEvent(e) && !Sweeps(s, e)
    requires k in Step(s, e).tasks && HasFinished(Step(s, e).tasks[k])
    ensures k in s.tasks && s.tasks[k] == Step(s, e).tasks[k]
  {
    hide Dispatch, HasFinished, Sweeps, AdmitStep;
    match e
    case Shutdown => DiscardLeaves(s, e);
    case CheckSync => DiscardLeaves(s, e);
    case Admission(_) => DiscardLeaves(s, e);
    case Collect(id) => hide Step; CollectLeaves(s, id, k);
    case Admit => AdmitIsStep(s); if s.pc.Permitted? { AdmitLeaves(s, s.pc.inv, k); }
    case Poll(_) => hide Step; PollLeaves(s, e);
    case SyncLost(_) => hide Step; PollLeaves(s, e);
    case _ => RestLeaves(s, e, k);
  }

  lemma TaskEndsOne(s: State, e: Event, k: nat)
    requires IsTaskEvent(e) && k in Step(s, e).tasks && HasFinished(Step(s, e).tasks[k])
    ensures var t := Step(s, e).tasks[k];
      || (k in s.tasks && s.tasks[k] == t)
      || (e.ExecutionEnds? && e.task == k && k in s.tasks && s.tasks[k] == Execution(t.inv, Released(false))
          && t.phase.completion.ok == e.ok && t.phase.completion.cancelled == (t.inv in s.cancelled || e.late))
  {
    hide DropExecution, DropRecord, Cancel, Outside, Dispatch;
    if e.task in s.tasks && s.tasks[e.task].Execution? {
      CancelFrame(s, s.tasks[e.task].inv);
    }
  }

  lemma OutsideEndsNothing(s: State, e: Event)
    requires IsOutsideEvent(e)
    ensures Step(s, e).tasks == s.tasks
  {
    hide RunTask, Dispatch, Queued, Cancel;
    if e.CancelInvocation? {
      CancelFrame(s, e.inv);
    }
  }

  /** A finished execution was ended by one step, or had ended before. */
  lemma EndsOnce(s: State, e: Event, k: nat)
    requires k in Step(s, e).tasks && HasFinished(Step(s, e).tasks[k])
    ensures var t := Step(s, e).tasks[k];
      || (k in s.tasks && s.tasks[k] == t)
      || (e.ExecutionEnds? && e.task == k && k in s.tasks && s.tasks[k] == Execution(t.inv, Released(false))
          && t.phase.completion.ok == e.ok && t.phase.completion.cancelled == (t.inv in s.cancelled || e.late))
  {
    hide Step, HasFinished, Sweeps;
    if IsTaskEvent(e) {
      TaskEndsOne(s, e, k);
    } else if IsOutsideEvent(e) {
      OutsideEndsNothing(s, e);
    } else if Sweeps(s, e) {
      SweepLeaves(s, e, k);
    } else {
      DispatchEndsNothing(s, e, k);
    }
  }

  ghost predicate HasCause(start: State, events: seq<Event>, inv: nat, ok: bool, cancelled: bool) {
    exists i, id :: EndedBy(start, events, i, id, inv, ok, cancelled)
  }

  lemma CausesStay(start: State, events: seq<Event>, e: Event, inv: nat, ok: bool, cancelled: bool)
    requires HasCause(start, events, inv, ok, cancelled)
    ensures HasCause(start, events + [e], inv, ok, cancelled)
  {
    var i: nat, id: nat :| EndedBy(start, events, i, id, inv, ok, cancelled);
    hide Step;
    assert i < |events|;
    assert (events + [e])[..i] == events[..i] && (events + [e])[i] == events[i];
    assert EndedBy(start, events + [e], i, id, inv, ok, cancelled);
  }

  lemma EndedNow(start: State, rest: seq<Event>, e: Event, k: nat, inv: nat, ok: bool, cancelled: bool)
    requires e.ExecutionEnds? && e.task == k && e.ok == ok
    requires var s := Run(start, rest);
      && k in s.tasks && s.tasks[k] == Execution(inv, Released(false)) && cancelled == (inv in s.cancelled || e.late)
    ensures HasCause(start, rest + [e], inv, ok, cancelled)
  {
    hide Step;
    var events := rest + [e];
    assert events[..|rest|] == rest && events[|rest|] == e;
    assert EndedBy(start, events, |rest|, k, inv, ok, cancelled);
  }

  /** Every finished execution has its cause. */
  lemma {:induction false} FinishedHaveCauses(start: State, events: seq<Event>, k: nat)
    requires start.tasks == map[] && k in Run(start, events).tasks && HasFinished(Run(start, events).tasks[k])
    ensures var t := Run(start, events).tasks[k];
      HasCause(start, events, t.inv, t.phase.completion.ok, t.phase.completion.cancelled)
    decreases |events|
  {
    hide Step, HasCause;
    var rest, e := events[..|events| - 1], events[|events| - 1];
    assert events == rest + [e];
    var s, t := Run(start, rest), Run(start, events).tasks[k];
    EndsOnce(s, e, k);
    if k in s.tasks && s.tasks[k] == t {
      FinishedHaveCauses(start, rest, k);
      CausesStay(start, rest, e, t.inv, t.phase.completion.ok, t.phase.completion.cancelled);
    } else {
      EndedNow(start, rest, e, k, t.inv, t.phase.completion.ok, t.phase.completion.cancelled);
    }
  }

  lemma SweepAnswersNothing(s: State, e: Event)
    requires Sweeps(s, e)
    ensures Step(s, e).h.answers == s.h.answers
  {
    hide Step, CancelUntrustedWork, BeforeSweep, Enumerates;
    SweepIs(s, e);
    BeforeSweepSpares(s);
    BeforeSweepTasks(s);
    SweptReplies(BeforeSweep(s), e.order);
  }

  lemma DiscardHistory(s: State, inv: nat)
    ensures Discard(s, inv).h == s.h
  {
    CancelFrame(s, inv);
    hide Cancel;
  }

  /** Only collecting answers. */
  lemma OnlyCollectingAnswers(s: State, e: Event)
    requires !e.Collect?
    ensures Step(s, e).h.answers == s.h.answers
  {
    if IsTaskEvent(e) || IsOutsideEvent(e) {
      QuietStep(s, e);
      hide Step;
    } else if Sweeps(s, e) {
      SweepAnswersNothing(s, e);
      hide Step;
    } else {
      hide CancelUntrustedWork, DrainMessages, Enumerates, Discard, DropQueued, TaskStarted, CollectTask, Cancel;
      hide ExecutionStarted, Terminating;
      match e
      case Shutdown => DiscardLeaves(s, e); hide Dispatch;
      case CheckSync => DiscardLeaves(s, e); hide Dispatch;
      case Admission(_) => DiscardLeaves(s, e); hide Dispatch;
      case DrainQueue => DrainMessagesLeaves(s.(pc := Draining));
      case Admit =>
        if s.pc.Permitted? { CancelFrame(s.(free := s.free + 1, pc := Select), s.pc.inv); }
        DiscardHistory(s.(free := s.free + 1, pc := Select), if s.pc.Permitted? then s.pc.inv else 0);
      case _ =>
    }
  }

  lemma CollectAnswersOne(s: State, id: nat)
    requires Invariant(s)
    ensures var r := Step(s, Collect(id));
      || r.h.answers == s.h.answers
      || (id in s.tasks && HasFinished(s.tasks[id]) && s.tasks[id].phase.completion.ok
          && !s.tasks[id].phase.completion.cancelled
          && r.h.answers == s.h.answers + [Answer(s.tasks[id].inv, s.jobs[id].epoch, s.seen)])
  {
    if Collecting(s.pc) && id in s.tasks && Ended(s.tasks[id]) {
      OwnsTask(s, id, HeldBy(s.pc), PermitBy(s.pc), s.seen);
      hide Invariant;
      if s.tasks[id].Execution? {
        CollectAnswers(s, id);
        hide Step;
      } else {
        hide RunTask, Outside, CancelUntrustedWork, DrainMessages, AdmitStep, Discard, TaskReaped;
      }
    } else {
      hide RunTask, Outside, CancelUntrustedWork, DrainMessages, AdmitStep, Discard, CollectTask, Invariant;
    }
  }

  lemma InitIsEmpty(max: nat, capacity: nat)
    ensures Init(max, capacity).tasks == map[]
  {
  }

  /**
    Answers are earned. In every run, an invocation answered with its own result had ended with success,
    and at that step it was neither cancelled nor past its deadline.
   */
  lemma {:induction false} AnswersAreEarned(max: nat, capacity: nat, events: seq<Event>)
    ensures forall a :: a in Run(Init(max, capacity), events).h.answers ==>
      HasCause(Init(max, capacity), events, a.inv, true, false)
    decreases |events|
  {
    var start := Init(max, capacity);
    if events != [] {
      var rest, e := events[..|events| - 1], events[|events| - 1];
      assert events == rest + [e];
      AnswersAreEarned(max, capacity, rest);
      RunKeeps(max, capacity, rest);
      hide Init, Step, HasCause, Invariant;
      var s := Run(start, rest);
      forall a | a in Run(start, events).h.answers
        ensures HasCause(start, events, a.inv, true, false)
      {
        if a in s.h.answers {
          CausesStay(start, rest, e, a.inv, true, false);
        } else if e.Collect? {
          CollectAnswersOne(s, e.task);
          InitIsEmpty(max, capacity);
          FinishedHaveCauses(start, rest, e.task);
          CausesStay(start, rest, e, a.inv, true, false);
        } else {
          OnlyCollectingAnswers(s, e);
        }
      }
    }
  }

}
