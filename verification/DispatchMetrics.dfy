/** Host-wide dispatch accounting: the integer counters behind the work gauges and their drop guards. */
module DispatchMetrics {
  /** The gauges, their limits, and what was recorded against them. */
  datatype Counts = Counts(
    queued: nat, tracked: nat, uncollected: nat, running: nat, terminating: nat,
    queueLimit: nat, executionLimit: nat, taskLimit: nat,
    queueBreaches: nat, executionBreaches: nat, trackedBreaches: nat,
    errors: nat, stopped: bool, afterStop: nat,
    started: nat, finished: nat, reaped: nat)

  function Configured(queueLimit: nat, executionLimit: nat, taskLimit: nat): Counts {
    Counts(0, 0, 0, 0, 0, queueLimit, executionLimit, taskLimit, 0, 0, 0, 0, false, 0, 0, 0, 0)
  }

  function Breach(value: nat, limit: nat): nat {
    if value > limit then 1 else 0
  }

  function Queued(m: Counts): Counts {
    m.(queued := m.queued + 1, queueBreaches := m.queueBreaches + Breach(m.queued + 1, m.queueLimit))
  }

  function DropQueued(m: Counts): Counts {
    if m.queued > 0 then m.(queued := m.queued - 1) else m.(errors := m.errors + 1)
  }

  function TaskStarted(m: Counts): Counts {
    m.(tracked := m.tracked + 1, started := m.started + 1,
       afterStop := m.afterStop + (if m.stopped then 1 else 0),
       trackedBreaches := m.trackedBreaches + Breach(m.tracked + 1, m.taskLimit))
  }

  function DropRecord(m: Counts): Counts {
    m.(uncollected := m.uncollected + 1, finished := m.finished + 1)
  }

  function TaskReaped(m: Counts): Counts {
    var a := if m.tracked > 0 then m.(tracked := m.tracked - 1) else m.(errors := m.errors + 1);
    var b := if a.uncollected > 0 then a.(uncollected := a.uncollected - 1) else a.(errors := a.errors + 1);
    b.(reaped := b.reaped + 1)
  }

  function ExecutionStarted(m: Counts): Counts {
    m.(running := m.running + 1,
       executionBreaches := m.executionBreaches + Breach(m.running + 1 + m.terminating, m.executionLimit))
  }

  /** The first observed cancellation moves an execution; later ones find it moved. */
  function Terminating(m: Counts, already: bool): Counts {
    if already then m
    else
      var a := if m.running > 0 then m.(running := m.running - 1) else m.(errors := m.errors + 1);
      a.(terminating := a.terminating + 1)
  }

  function DropExecution(m: Counts, terminating: bool): Counts {
    if terminating then
      if m.terminating > 0 then m.(terminating := m.terminating - 1) else m.(errors := m.errors + 1)
    else
      if m.running > 0 then m.(running := m.running - 1) else m.(errors := m.errors + 1)
  }

  /**
    The mutable record behind the gauges. A decrement that finds zero is recorded as an accounting
    error of that gauge; with it the ledger of every gauge balances after any sequence of calls.
   */
  class WorkCounts {
    var queued: nat
    var tracked: nat
    var uncollected: nat
    var running: nat
    var terminating: nat
    const queueLimit: nat
    const executionLimit: nat
    const taskLimit: nat
    var queueBreaches: nat
    var executionBreaches: nat
    var trackedBreaches: nat
    var queuedErrors: nat
    var trackedErrors: nat
    var uncollectedErrors: nat
    var runningErrors: nat
    var terminatingErrors: nat
    var stopped: bool
    var afterStop: nat
    var started: nat
    var finished: nat
    var reaped: nat
    var enqueued: nat   // history
    var left: nat       // history
    var begun: nat      // history
    var ended: nat      // history

    ghost function Errors(): nat
      reads this
    {
      queuedErrors + trackedErrors + uncollectedErrors + runningErrors + terminatingErrors
    }

    ghost function Value(): Counts
      reads this
    {
      Counts(queued, tracked, uncollected, running, terminating, queueLimit, executionLimit, taskLimit,
             queueBreaches, executionBreaches, trackedBreaches, Errors(), stopped, afterStop, started, finished, reaped)
    }

    /** Conservation: what came in is still counted, went out, or was missed and recorded as an error. */
    ghost predicate Valid()
      reads this
    {
      && enqueued + queuedErrors == queued + left
      && started + trackedErrors == tracked + reaped
      && finished + uncollectedErrors == uncollected + reaped
      && begun + runningErrors + terminatingErrors == running + terminating + ended
    }

    constructor (queueLimit: nat, executionLimit: nat, taskLimit: nat)
      ensures Valid() && Errors() == 0 && Value() == Configured(queueLimit, executionLimit, taskLimit)
    {
      queued, tracked, uncollected, running, terminating := 0, 0, 0, 0, 0;
      this.queueLimit, this.executionLimit, this.taskLimit := queueLimit, executionLimit, taskLimit;
      queueBreaches, executionBreaches, trackedBreaches := 0, 0, 0;
      queuedErrors, trackedErrors, uncollectedErrors, runningErrors, terminatingErrors := 0, 0, 0, 0, 0;
      stopped, afterStop, started, finished, reaped := false, 0, 0, 0, 0;
      enqueued, left, begun, ended := 0, 0, 0, 0;
    }

    /** Kinds of occupancy: 0 queued, 1 executing, otherwise tracked. */
    method RecordCapacity(kind: nat)
      modifies `queueBreaches, `executionBreaches, `trackedBreaches
      ensures queueBreaches == old(queueBreaches) + if kind == 0 then Breach(queued, queueLimit) else 0
      ensures executionBreaches ==
        old(executionBreaches) + if kind == 1 then Breach(running + terminating, executionLimit) else 0
      ensures trackedBreaches == old(trackedBreaches) + if kind > 1 then Breach(tracked, taskLimit) else 0
    {
      var value := if kind == 0 then queued else if kind == 1 then running + terminating else tracked;
      var limit := if kind == 0 then queueLimit else if kind == 1 then executionLimit else taskLimit;
      if value > limit {
        if kind == 0 {
          queueBreaches := queueBreaches + 1;
        } else if kind == 1 {
          executionBreaches := executionBreaches + 1;
        } else {
          trackedBreaches := trackedBreaches + 1;
        }
      }
    }

    /** A breach is recorded exactly when the queue was already full. */
    method Enqueue()
      requires Valid()
      modifies this
      ensures Valid() && enqueued == old(enqueued) + 1 && left == old(left) && Errors() == old(Errors())
      ensures queueBreaches > old(queueBreaches) <==> old(queued) >= queueLimit
      ensures Value() == Queued(old(Value()))
    {
      queued := queued + 1;
      enqueued := enqueued + 1;
      RecordCapacity(0);
    }

    /** An error is recorded exactly when nothing was queued; otherwise this undoes one enqueueing. */
    method LeaveQueue()
      requires Valid()
      modifies this
      ensures Valid() && left == old(left) + 1 && enqueued == old(enqueued)
      ensures Errors() == old(Errors()) <==> old(queued) > 0
      ensures Value() == DropQueued(old(Value()))
    {
      left := left + 1;
      if queued > 0 { queued := queued - 1; } else { queuedErrors := queuedErrors + 1; }
    }

    /** A start after the stop is always visible, and so is one beyond the limit. */
    method StartTask()
      requires Valid()
      modifies this
      ensures Valid() && Errors() == old(Errors())
      ensures started - reaped == old(started - reaped) + 1
      ensures (afterStop > old(afterStop) <==> stopped)
        && (trackedBreaches > old(trackedBreaches) <==> old(tracked) >= taskLimit)
      ensures Value() == TaskStarted(old(Value()))
    {
      tracked := tracked + 1;
      started := started + 1;
      if stopped {
        afterStop := afterStop + 1;
      }
      RecordCapacity(2);
    }

    /** The task stays tracked until it is reaped. */
    method FinishTask()
      requires Valid()
      modifies this
      ensures Valid() && Errors() == old(Errors()) && tracked == old(tracked) && reaped == old(reaped)
      ensures finished - reaped == old(finished - reaped) + 1
      ensures Value() == DropRecord(old(Value()))
    {
      uncollected := uncollected + 1;
      finished := finished + 1;
    }

    /** An error is recorded exactly when no task, or no finished task, was there to reap. */
    method ReapTask()
      requires Valid()
      modifies this
      ensures Valid() && started == old(started) && finished == old(finished) && reaped == old(reaped) + 1
      ensures Errors() == old(Errors()) <==> old(tracked) > 0 && old(uncollected) > 0
      ensures Value() == TaskReaped(old(Value()))
    {
      if tracked > 0 { tracked := tracked - 1; } else { trackedErrors := trackedErrors + 1; }
      if uncollected > 0 { uncollected := uncollected - 1; } else { uncollectedErrors := uncollectedErrors + 1; }
      reaped := reaped + 1;
    }

    method StartExecution()
      requires Valid()
      modifies this
      ensures Valid() && begun == old(begun) + 1 && ended == old(ended) && Errors() == old(Errors())
      ensures executionBreaches > old(executionBreaches) <==> old(running + terminating) >= executionLimit
      ensures Value() == ExecutionStarted(old(Value()))
    {
      running := running + 1;
      begun := begun + 1;
      RecordCapacity(1);
    }

    /** Nobody begins or ends: an execution moves between the two gauges, at most once. */
    method Terminate(already: bool)
      requires Valid()
      modifies this
      ensures Valid() && begun == old(begun) && ended == old(ended)
      ensures Errors() == old(Errors()) <==> already || old(running) > 0
      ensures already || old(running) > 0 ==> running + terminating == old(running + terminating)
      ensures Value() == Terminating(old(Value()), already)
    {
      if !already {
        if running > 0 { running := running - 1; } else { runningErrors := runningErrors + 1; }
        terminating := terminating + 1;
      }
    }

    /** An error is recorded exactly when the gauge the execution was in is empty. */
    method EndExecution(wasTerminating: bool)
      requires Valid()
      modifies this
      ensures Valid() && begun == old(begun) && ended == old(ended) + 1
      ensures Errors() == old(Errors()) <==> old(if wasTerminating then terminating > 0 else running > 0)
      ensures Value() == DropExecution(old(Value()), wasTerminating)
    {
      ended := ended + 1;
      if wasTerminating {
        if terminating > 0 { terminating := terminating - 1; } else { terminatingErrors := terminatingErrors + 1; }
      } else {
        if running > 0 { running := running - 1; } else { runningErrors := runningErrors + 1; }
      }
    }

    /** One execution, cancelled twice or not at all: both gauges are where they were. */
    method Execute(cancelled: bool)
      requires Valid()
      modifies this
      ensures Valid() && Errors() == old(Errors())
      ensures Value() == old(Value()).(executionBreaches := executionBreaches)
    {
      hide Valid, Breach;
      StartExecution();
      if cancelled {
        Terminate(false);
        Terminate(true);
      }
      EndExecution(cancelled);
    }

    /** One message from the queue to its reaping: every gauge is where it was and nothing went wrong. */
    method Serve(cancelled: bool)
      requires Valid()
      modifies this
      ensures Valid() && Errors() == old(Errors()) && stopped == old(stopped)
      ensures queued == old(queued) && tracked == old(tracked) && uncollected == old(uncollected)
      ensures running == old(running) && terminating == old(terminating)
      ensures started == old(started) + 1 && finished == old(finished) + 1 && reaped == old(reaped) + 1
    {
      hide Valid, Breach;
      Enqueue();
      LeaveQueue();
      StartTask();
      Execute(cancelled);
      FinishTask();
      ReapTask();
    }

    /** Any number of messages, one after the other. */
    method ServeAll(cancelled: seq<bool>)
      requires Valid()
      modifies this
      ensures Valid() && Errors() == old(Errors())
      ensures queued == old(queued) && tracked == old(tracked) && uncollected == old(uncollected)
      ensures running == old(running) && terminating == old(terminating) && reaped == old(reaped) + |cancelled|
    {
      var i := 0;
      while i < |cancelled|
        invariant 0 <= i <= |cancelled|
        invariant Valid() && Errors() == old(Errors())
        invariant queued == old(queued) && tracked == old(tracked) && uncollected == old(uncollected)
        invariant running == old(running) && terminating == old(terminating) && reaped == old(reaped) + i
      {
        Serve(cancelled[i]);
        i := i + 1;
      }
    }
  }
}
