/**
  The invocation supervisor: intake, execution slots, the job table, revocation and drain.

  One event is one step of the dispatcher, of an execution on its blocking thread, of a
  reply task, or of the world outside; every interleaving of them is a run.
 */
module Supervisor {
  import opened Basics
  import opened DispatchMetrics

  /** How a task ended, as the join reports it. */
  datatype JoinEnd = Joined | JoinPanicked | JoinCancelled

  datatype Completion = Finished(ok: bool, cancelled: bool, expired: bool) | Panicked

  /** An execution drops its accounting guard, then its permit, then ends. */
  datatype Phase = Working | Unguarded(panicked: bool) | Released(panicked: bool) | Exited(completion: Completion)

  datatype Task =
    | Execution(inv: nat, phase: Phase)
    | Reply(aborted: bool, end: Option<JoinEnd>)

  /** `epoch` is history: the change of `synced` the dispatcher had seen at admission. */
  datatype Job =
    | ExecutionJob(inv: nat, revoked: bool, epoch: nat)
    | ReplyJob(outcome: JoinEnd)

  datatype Pc =
    | Select
    | Polled
    | Taken(inv: nat)
    | Acquire(inv: nat)
    | AcquirePolled(inv: nat)
    | Permitted(inv: nat)
    | Expired(inv: nat)
    | Closing
    | Draining
    | Done

  /** A reply that carries an execution's own result: admitted at `epoch`, collected at `seen`. */
  datatype Answer = Answer(inv: nat, epoch: nat, seen: nat)

  datatype History = History(
    admitted: set<nat>, drained: set<nat>, revoked: set<nat>, reapedRevoked: multiset<nat>, answers: seq<Answer>)

  datatype State = State(
    max: nat,
    pc: Pc,
    queue: seq<nat>,
    intakeOpen: bool,
    synced: bool,
    version: nat,               // changes of `synced` so far
    seen: nat,                  // the one the dispatcher has observed
    free: nat,                  // permits in the semaphore
    tasks: map<nat, Task>,
    jobs: map<nat, Job>,
    nextTask: nat,
    nextInv: nat,
    cancelled: set<nat>,        // invocations whose flag is set
    guards: map<nat, bool>,     // live Execution guards: whether terminating
    m: Counts,
    faults: nat,                // completions without owner or of the wrong kind
    h: History)

  datatype Event =
    // outside
    | Send
    | IntakeEnds
    | Change(value: bool)
    | CancelInvocation(inv: nat)
    // dispatcher
    | Shutdown
    | SyncLost(order: seq<nat>)
    | Poll(order: seq<nat>)
    | Rest
    | Collect(task: nat)
    | Receive
    | QueueClosed
    | CheckSync
    | Admission(late: bool)
    | ReplyTimeout
    | Reject
    | Admit
    | DrainQueue
    | DrainDone
    // tasks
    | DropGuard(task: nat, panicked: bool)
    | DropPermit(task: nat)
    | ExecutionEnds(task: nat, ok: bool, late: bool, expired: bool)
    | ReplyEnds(task: nat, end: JoinEnd)

  function Init(max: nat, capacity: nat): State {
    State(max, Select, [], true, false, 0, 0, max, map[], map[], 0, 0, {}, map[],
          Configured(capacity + 1, max, max), 0, History({}, {}, {}, multiset{}, []))
  }

  // ------------------------------------------------------------ invocations

  /** Invocation::cancel: set the flag, and move a live guard once. */
  function Cancel(s: State, inv: nat): State {
    var flagged := s.(cancelled := s.cancelled + {inv});
    if inv in s.guards then
      flagged.(guards := s.guards[inv := true], m := Terminating(s.m, s.guards[inv]))
    else flagged
  }

  /** Drop a message with its QueuedWork guard, cancelled. */
  function Discard(s: State, inv: nat): State {
    var c := Cancel(s, inv);
    c.(m := DropQueued(c.m))
  }

  // ------------------------------------------------------------ revocation and shutdown

  function RevokeJob(s: State, id: nat): State {
    if id !in s.jobs || id !in s.tasks then s
    else match s.jobs[id]
      case ExecutionJob(inv, _, epoch) =>
        Cancel(s.(jobs := s.jobs[id := ExecutionJob(inv, true, epoch)],
                  h := s.h.(revoked := s.h.revoked + {inv})), inv)
      case ReplyJob(_) =>
        if s.tasks[id].Reply? then s.(tasks := s.tasks[id := s.tasks[id].(aborted := true)]) else s
  }

  function RevokeJobs(s: State, order: seq<nat>): State {
    if order == [] then s
    else RevokeJob(RevokeJobs(s, order[..|order| - 1]), order[|order| - 1])
  }

  /** Drop the oldest waiting message, cancelled. */
  function DrainOne(s: State): State
    requires s.queue != []
    ensures DrainOne(s).queue == s.queue[1..]
  {
    var d := Discard(s.(queue := s.queue[1..]), s.queue[0]);
    d.(h := d.h.(drained := d.h.drained + {s.queue[0]}))
  }

  function DrainMessages(s: State): State
    decreases |s.queue|
  {
    if s.queue == [] then s else DrainMessages(DrainOne(s))
  }

  /** cancel_untrusted_work, over the job table in some order. */
  function CancelUntrustedWork(s: State, order: seq<nat>): State {
    DrainMessages(RevokeJobs(s, order))
  }

  predicate Enumerates(order: seq<nat>, jobs: map<nat, Job>) {
    forall id :: id in jobs ==> id in order
  }

  function Stop(s: State): State {
    s.(pc := Closing, m := s.m.(stopped := true))
  }

  // ------------------------------------------------------------ collecting

  function JoinOutcome(c: Completion): JoinEnd {
    match c case Finished(_, _, _) => Joined case Panicked => JoinPanicked
  }

  function SpawnReply(s: State, outcome: JoinEnd): State {
    s.(tasks := s.tasks[s.nextTask := Reply(false, None)],
       jobs := s.jobs[s.nextTask := ReplyJob(outcome)],
       nextTask := s.nextTask + 1)
  }

  predicate CarriesResult(c: Completion) {
    c.Finished? && !c.cancelled && c.ok
  }

  /** collect, after the joined task left the set. */
  function CollectTask(s: State, id: nat, task: Task): State {
    if id !in s.jobs then s.(faults := s.faults + 1)
    else
      var job := s.jobs[id];
      var owned := s.(jobs := s.jobs - {id});
      match job
      case ExecutionJob(inv, revoked, epoch) =>
        if revoked then
          owned.(m := TaskReaped(DropRecord(s.m)), h := s.h.(reapedRevoked := s.h.reapedRevoked + multiset{inv}))
        else if !task.Execution? || !task.phase.Exited? then owned.(faults := s.faults + 1)
        else
          var completion := task.phase.completion;
          SpawnReply(
            if CarriesResult(completion)
            then owned.(h := s.h.(answers := s.h.answers + [Answer(inv, epoch, s.seen)]))
            else owned,
            JoinOutcome(completion))
      case ReplyJob(_) => owned.(m := TaskReaped(s.m))
  }

  predicate Ended(t: Task) {
    match t case Execution(_, phase) => phase.Exited? case Reply(_, end) => end.Some?
  }

  predicate Collecting(pc: Pc) {
    pc.Polled? || pc.AcquirePolled? || pc.Draining?
  }

  function AfterCollect(pc: Pc): Pc {
    if pc.Polled? then Select else if pc.AcquirePolled? then Acquire(pc.inv) else pc
  }

  // ------------------------------------------------------------ the dispatcher

  /** The biased select: a visible change of `synced` is handled before anything is collected or taken. */
  function PollStep(s: State, order: seq<nat>): State {
    if !Enumerates(order, s.jobs) then s
    else match s.pc
      case Select =>
        if s.version == s.seen then s.(pc := Polled)
        else CancelUntrustedWork(s.(seen := s.version), order)
      case Acquire(inv) =>
        if s.version == s.seen then s.(pc := AcquirePolled(inv))
        else CancelUntrustedWork(Discard(s.(seen := s.version, pc := Select), inv), order)
      case _ => s
  }

  function AdmissionStep(s: State, inv: nat, late: bool): State {
    if inv in s.cancelled || late then Cancel(s, inv).(pc := Expired(inv))
    else if s.free > 0 then s.(free := s.free - 1, pc := Permitted(inv))
    else s
  }

  function ReplyTimeoutStep(s: State): State {
    SpawnReply(s.(m := TaskStarted(DropQueued(s.m)), pc := Select), Joined)
  }

  /** The last check before admission, then the job, its guard and its task. */
  function AdmitStep(s: State, inv: nat): State {
    if !s.synced || s.version != s.seen then
      Discard(s.(free := s.free + 1, pc := Select), inv)
    else
      var started := ExecutionStarted(TaskStarted(DropQueued(s.m)));
      s.(m := if inv in s.cancelled then Terminating(started, false) else started,
         guards := s.guards[inv := inv in s.cancelled],
         tasks := s.tasks[s.nextTask := Execution(inv, Working)],
         jobs := s.jobs[s.nextTask := ExecutionJob(inv, false, s.seen)],
         nextTask := s.nextTask + 1,
         h := s.h.(admitted := s.h.admitted + {inv}),
         pc := Select)
  }

  function Dispatch(s: State, e: Event): State {
    match e
    case Shutdown =>
      if s.pc.Select? then Stop(s)
      else if s.pc.Acquire? then Stop(Discard(s, s.pc.inv))
      else s
    case SyncLost(order) =>
      if !Enumerates(order, s.jobs) then s
      else if s.pc.Select? then Stop(CancelUntrustedWork(s.(seen := s.version), order))
      else if s.pc.Acquire? then
        Stop(CancelUntrustedWork(Discard(s.(seen := s.version, pc := Select), s.pc.inv), order))
      else s
    case Poll(order) => PollStep(s, order)
    case Rest =>
      if s.pc.Polled? then s.(pc := Select) else if s.pc.AcquirePolled? then s.(pc := Acquire(s.pc.inv)) else s
    case Collect(id) =>
      if Collecting(s.pc) && id in s.tasks && Ended(s.tasks[id])
      then CollectTask(s.(tasks := s.tasks - {id}, pc := AfterCollect(s.pc)), id, s.tasks[id]) else s
    case Receive =>
      if s.pc.Polled? && |s.jobs| < s.max && s.queue != []
      then s.(pc := Taken(s.queue[0]), queue := s.queue[1..]) else s
    case QueueClosed =>
      if s.pc.Polled? && |s.jobs| < s.max && s.queue == [] && !s.intakeOpen then Stop(s) else s
    case CheckSync =>
      if !s.pc.Taken? then s
      else if !s.synced then Discard(s.(pc := Select), s.pc.inv)
      else s.(pc := Acquire(s.pc.inv))
    case Admission(late) => if s.pc.AcquirePolled? then AdmissionStep(s, s.pc.inv, late) else s
    case ReplyTimeout => if s.pc.Expired? then ReplyTimeoutStep(s) else s
    case Reject => if s.pc.Permitted? then s.(free := s.free + 1, m := DropQueued(s.m), pc := Select) else s
    case Admit => if s.pc.Permitted? then AdmitStep(s, s.pc.inv) else s
    case DrainQueue => if s.pc.Closing? && !s.intakeOpen then DrainMessages(s.(pc := Draining)) else s
    case DrainDone => if s.pc.Draining? && s.tasks == map[] then s.(pc := Done) else s
    case _ => s
  }

  // ------------------------------------------------------------ tasks and the outside

  function RunTask(s: State, e: Event): State {
    match e
    case DropGuard(id, panicked) =>
      if id in s.tasks && s.tasks[id].Execution? && s.tasks[id].phase.Working? && s.tasks[id].inv in s.guards then
        var c := if panicked then Cancel(s, s.tasks[id].inv) else s;
        var inv := s.tasks[id].inv;
        c.(tasks := s.tasks[id := Execution(inv, Unguarded(panicked))],
           guards := c.guards - {inv}, m := DropExecution(c.m, c.guards[inv]))
      else s
    case DropPermit(id) =>
      if id in s.tasks && s.tasks[id].Execution? && s.tasks[id].phase.Unguarded?
      then
        s.(tasks := s.tasks[id := Execution(s.tasks[id].inv, Released(s.tasks[id].phase.panicked))],
           free := s.free + 1)
      else s
    case ExecutionEnds(id, ok, late, expired) =>
      if id in s.tasks && s.tasks[id].Execution? && s.tasks[id].phase.Released? then
        var inv := s.tasks[id].inv;
        if s.tasks[id].phase.panicked then s.(tasks := s.tasks[id := Execution(inv, Exited(Panicked))])
        else
          var c := if inv in s.cancelled || late then Cancel(s, inv) else s;
          c.(tasks := s.tasks[id := Execution(inv, Exited(Finished(ok, inv in s.cancelled || late, late || expired)))])
      else s
    case ReplyEnds(id, end) =>
      if id in s.tasks && s.tasks[id].Reply? && s.tasks[id].end.None? && (end.JoinCancelled? ==> s.tasks[id].aborted)
      then s.(tasks := s.tasks[id := s.tasks[id].(end := Some(end))], m := DropRecord(s.m)) else s
    case _ => s
  }

  function Outside(s: State, e: Event): State {
    match e
    case Send =>
      if s.intakeOpen
      then s.(queue := s.queue + [s.nextInv], nextInv := s.nextInv + 1, m := Queued(s.m)) else s
    case IntakeEnds => s.(intakeOpen := false)
    case Change(value) => s.(synced := value, version := s.version + 1)
    case CancelInvocation(inv) => if inv < s.nextInv then Cancel(s, inv) else s
    case _ => s
  }

  predicate IsTaskEvent(e: Event) {
    e.DropGuard? || e.DropPermit? || e.ExecutionEnds? || e.ReplyEnds?
  }

  predicate IsOutsideEvent(e: Event) {
    e.Send? || e.IntakeEnds? || e.Change? || e.CancelInvocation?
  }

  function Step(s: State, e: Event): State {
    if IsTaskEvent(e) then RunTask(s, e) else if IsOutsideEvent(e) then Outside(s, e) else Dispatch(s, e)
  }

  function Run(s: State, events: seq<Event>): State {
    if events == [] then s else Step(Run(s, events[..|events| - 1]), events[|events| - 1])
  }

  // ------------------------------------------------------------ the loops as written

  /** The two loops of cancel_untrusted_work. */
  method CancelUntrustedWorkLoop(s: State, order: seq<nat>) returns (r: State)
    ensures r == CancelUntrustedWork(s, order)
  {
    r := s;
    var i := 0;
    while i < |order|
      invariant 0 <= i <= |order| && r == RevokeJobs(s, order[..i])
    {
      assert order[..i + 1][..i] == order[..i];
      r := RevokeJob(r, order[i]);
      i := i + 1;
    }
    assert order[..i] == order;
    while r.queue != []
      invariant DrainMessages(r) == CancelUntrustedWork(s, order)
      decreases |r.queue|
    {
      r := DrainOne(r);
    }
  }
}
