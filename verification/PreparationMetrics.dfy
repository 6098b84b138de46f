/** Accounting of module preparations: global counters and the stage machine of one work. */
module PreparationMetrics {
  import opened Basics

  datatype Stage = Queued | Preparing | Building | Terminating

  datatype Outcome = Success | Error | Timeout | Cancelled | Panic

  datatype Capacity = QueuedCapacity | ActiveCapacity | TrackedCapacity | BuildingCapacity

  /** `building` counts works at that stage, `open` the compilations under way. */
  datatype Counts = Counts(
    waiting: nat, queued: nat, preparing: nat, building: nat, terminating: nat, open: nat,
    recordLimit: nat, activeLimit: nat,
    breaches: nat, errors: nat,
    admitted: nat, refused: nat, finished: multiset<Outcome>, built: multiset<Outcome>)

  /** One work: no stage once dropped; `compilation` while a start time is recorded. */
  datatype Work = Work(stage: Option<Stage>, compilation: bool, cancellation: Option<Outcome>, outcome: Outcome)

  function Configured(recordLimit: nat, activeLimit: nat): Counts {
    Counts(0, 0, 0, 0, 0, 0, recordLimit, activeLimit, 0, 0, 0, 0, multiset{}, multiset{})
  }

  // ------------------------------------------------------------ counters

  function At(c: Counts, s: Stage): nat {
    match s
    case Queued => c.queued
    case Preparing => c.preparing
    case Building => c.building
    case Terminating => c.terminating
  }

  function With(c: Counts, s: Stage, n: nat): Counts {
    match s
    case Queued => c.(queued := n)
    case Preparing => c.(preparing := n)
    case Building => c.(building := n)
    case Terminating => c.(terminating := n)
  }

  function Fault(c: Counts): Counts {
    c.(errors := c.errors + 1)
  }

  function Enter(c: Counts, s: Stage): Counts {
    With(c, s, At(c, s) + 1)
  }

  function Leave(c: Counts, s: Stage): Counts {
    if At(c, s) > 0 then With(c, s, At(c, s) - 1) else Fault(c)
  }

  function Active(c: Counts): nat {
    c.preparing + c.building + c.terminating
  }

  function Occupancy(c: Counts, k: Capacity): nat {
    match k
    case QueuedCapacity => c.queued
    case ActiveCapacity => Active(c)
    case TrackedCapacity => c.queued + Active(c)
    case BuildingCapacity => c.open
  }

  function Limit(c: Counts, k: Capacity): nat {
    match k
    case QueuedCapacity => c.recordLimit
    case TrackedCapacity => c.recordLimit
    case ActiveCapacity => c.activeLimit
    case BuildingCapacity => c.activeLimit
  }

  function Checked(c: Counts, k: Capacity): Counts {
    if Occupancy(c, k) > Limit(c, k) then c.(breaches := c.breaches + 1) else c
  }

  function Transition(c: Counts, from: Stage, to: Stage): Counts {
    var d := Enter(Leave(c, from), to);
    if from == Queued && to == Preparing then Checked(d, ActiveCapacity) else d
  }

  // ------------------------------------------------------------ submissions

  function Submitted(c: Counts): Counts {
    c.(waiting := c.waiting + 1)
  }

  function Completed(c: Counts): Counts {
    if c.waiting > 0 then c.(waiting := c.waiting - 1) else Fault(c)
  }

  function Refused(c: Counts): Counts {
    var d := Completed(c);
    d.(refused := d.refused + 1)
  }

  function Admitted(c: Counts): Counts {
    var d := Completed(c);
    Checked(Checked(Enter(d.(admitted := d.admitted + 1), Queued), QueuedCapacity), TrackedCapacity)
  }

  const NEW_WORK := Work(Some(Queued), false, None, Cancelled)

  // ------------------------------------------------------------ the work's own operations

  /** The first reason to stop sticks; work already active is shown as terminating. */
  function Terminate(c: Counts, w: Work, outcome: Outcome): (Counts, Work) {
    if w.stage.None? || w.cancellation.Some? then (c, w)
    else
      var marked := w.(cancellation := Some(outcome));
      if w.stage.value == Preparing || w.stage.value == Building
      then (Transition(c, w.stage.value, Terminating), marked.(stage := Some(Terminating)))
      else (c, marked)
  }

  function Activate(c: Counts, w: Work): (Counts, Work) {
    if w.stage != Some(Queued) then (Fault(c), w)
    else (Transition(c, Queued, Preparing), w.(stage := Some(Preparing)))
  }

  predicate MayCompile(w: Work) {
    w.stage == Some(Preparing) || (w.stage == Some(Terminating) && w.cancellation.Some?)
  }

  /** The start is recorded and the stage moves ... */
  function StartCompiling(c: Counts, w: Work): (Counts, Work)
    requires !w.compilation
  {
    if !MayCompile(w) then (Fault(c), w)
    else
      var next := if w.cancellation.Some? then Terminating else Building;
      (if w.stage == Some(Preparing) then Transition(c, Preparing, next) else c,
       w.(compilation := true, stage := Some(next)))
  }

  /** ... then, under the counters' lock again, the compilation is counted. */
  function CountCompiling(c: Counts): Counts {
    Checked(c.(open := c.open + 1), BuildingCapacity)
  }

  function EndCompiling(c: Counts, w: Work, outcome: Outcome): (Counts, Work) {
    if !w.compilation then (Fault(c), w)
    else
      var d := c.(built := c.built + multiset{w.cancellation.UnwrapOr(outcome)});
      (if d.open > 0 then d.(open := d.open - 1) else Fault(d), w.(compilation := false))
  }

  /** Back from compiling, unless it was cut short. */
  function ReturnFromCompiling(c: Counts, w: Work): (Counts, Work) {
    if w.stage == Some(Building) then (Transition(c, Building, Preparing), w.(stage := Some(Preparing))) else (c, w)
  }

  function Fate(w: Work, panicking: bool): Outcome {
    w.cancellation.UnwrapOr(if panicking then Panic else w.outcome)
  }

  /** Drop, first half: an open compilation is closed. */
  function DropCompilation(c: Counts, w: Work, panicking: bool): (Counts, Work) {
    if w.stage.Some? && w.compilation then EndCompiling(c, w, Fate(w, panicking)) else (c, w)
  }

  /** Drop, second half: the work leaves its stage for good. */
  function DropWork(c: Counts, w: Work, fate: Outcome): (Counts, Work) {
    if w.stage.None? then (c, w)
    else
      var d := Leave(c, w.stage.value);
      (d.(finished := d.finished + multiset{fate}), w.(stage := None))
  }

  // ------------------------------------------------------------ the objects as written

  class Metrics {
    /** Admission waits, then the four stages. */
    var work: seq<nat>
    var open: nat
    const recordLimit: nat
    const activeLimit: nat
    var breaches: nat
    var errors: nat
    var admitted: nat
    var refused: nat
    var finished: multiset<Outcome>
    var built: multiset<Outcome>

    ghost predicate Valid()
      reads this
    {
      |work| == 5
    }

    ghost function Value(): Counts
      requires Valid()
      reads this
    {
      Counts(work[0], work[1], work[2], work[3], work[4], open, recordLimit, activeLimit, breaches, errors,
             admitted, refused, finished, built)
    }

    constructor (recordLimit: nat, activeLimit: nat)
      ensures Valid() && Value() == Configured(recordLimit, activeLimit)
    {
      work, open := [0, 0, 0, 0, 0], 0;
      this.recordLimit, this.activeLimit := recordLimit, activeLimit;
      breaches, errors, admitted, refused := 0, 0, 0, 0;
      finished, built := multiset{}, multiset{};
    }

    static function Index(s: Stage): nat {
      match s case Queued => 1 case Preparing => 2 case Building => 3 case Terminating => 4
    }

    method Decrement(s: Stage)
      requires Valid()
      modifies this
      ensures Valid() && Value() == Leave(old(Value()), s)
      ensures forall i :: 0 <= i < 5 ==>
        work[i] == if i == Index(s) && old(work)[i] > 0 then old(work)[i] - 1 else old(work)[i]
      ensures errors == old(errors) + if old(work)[Index(s)] == 0 then 1 else 0
      ensures open == old(open) && breaches == old(breaches)
    {
      if work[Index(s)] > 0 {
        work := work[Index(s) := work[Index(s)] - 1];
      } else {
        errors := errors + 1;
      }
    }

    method RecordCapacity(k: Capacity)
      requires Valid()
      modifies this
      ensures Valid() && Value() == Checked(old(Value()), k)
      ensures work == old(work) && open == old(open) && admitted == old(admitted) && refused == old(refused)
      ensures breaches >= old(breaches)
      ensures var active := work[2] + work[3] + work[4];
        breaches > old(breaches) <==>
          match k
          case QueuedCapacity => work[1] > recordLimit
          case ActiveCapacity => active > activeLimit
          case TrackedCapacity => work[1] + active > recordLimit
          case BuildingCapacity => open > activeLimit
    {
      var active := work[2] + work[3] + work[4];
      var value := match k
        case QueuedCapacity => work[1]
        case ActiveCapacity => active
        case TrackedCapacity => work[1] + active
        case BuildingCapacity => open;
      var limit := if k.QueuedCapacity? || k.TrackedCapacity? then recordLimit else activeLimit;
      if value > limit {
        breaches := breaches + 1;
      }
    }

    method Move(from: Stage, to: Stage)
      requires Valid()
      modifies this
      ensures Valid() && Value() == Transition(old(Value()), from, to)
      ensures from != to && old(work)[Index(from)] > 0 ==>
        && errors == old(errors)
        && work == old(work)[Index(from) := old(work)[Index(from)] - 1][Index(to) := old(work)[Index(to)] + 1]
      ensures breaches > old(breaches) <==>
        from == Queued && to == Preparing && work[2] + work[3] + work[4] > activeLimit
      ensures open == old(open)
    {
      Decrement(from);
      work := work[Index(to) := work[Index(to)] + 1];
      if to == Preparing && from == Queued {
        RecordCapacity(ActiveCapacity);
      }
    }

    method Submit()
      requires Valid()
      modifies this
      ensures Valid() && Value() == Submitted(old(Value()))
    {
      work := work[0 := work[0] + 1];
    }

    method Complete()
      requires Valid()
      modifies this
      ensures Valid() && Value() == Completed(old(Value()))
      ensures work == old(work)[0 := if old(work)[0] > 0 then old(work)[0] - 1 else 0]
      ensures admitted == old(admitted) && refused == old(refused) && breaches == old(breaches)
    {
      if work[0] > 0 { work := work[0 := work[0] - 1]; } else { errors := errors + 1; }
    }

    /** A submission dropped before it was admitted. */
    method Refuse()
      requires Valid()
      modifies this
      ensures Valid() && Value() == Refused(old(Value()))
      ensures refused == old(refused) + 1 && admitted == old(admitted) && work[1..] == old(work)[1..]
      ensures work[0] == if old(work)[0] > 0 then old(work)[0] - 1 else 0
    {
      Complete();
      refused := refused + 1;
    }

    method EnterQueue()
      requires Valid()
      modifies this
      ensures Valid() && Value() == Enter(old(Value()).(admitted := old(Value()).admitted + 1), Queued)
      ensures work == old(work)[1 := old(work)[1] + 1] && admitted == old(admitted) + 1
      ensures refused == old(refused) && breaches == old(breaches)
    {
      admitted := admitted + 1;
      work := work[1 := work[1] + 1];
    }

    method Admit()
      requires Valid()
      modifies this
      ensures Valid() && Value() == Admitted(old(Value()))
      ensures admitted == old(admitted) + 1 && refused == old(refused) && work[1] == old(work)[1] + 1
      ensures work[0] == if old(work)[0] > 0 then old(work)[0] - 1 else 0
      ensures breaches > old(breaches) <==>
        work[1] > recordLimit || work[1] + work[2] + work[3] + work[4] > recordLimit
    {
      hide Checked, Completed, Enter;
      Complete();
      EnterQueue();
      RecordCapacity(QueuedCapacity);
      RecordCapacity(TrackedCapacity);
    }

    method CountCompilation()
      requires Valid()
      modifies this
      ensures Valid() && Value() == CountCompiling(old(Value())) && open == old(open) + 1
    {
      open := open + 1;
      RecordCapacity(BuildingCapacity);
    }
  }

  class PreparationWork {
    const metrics: Metrics
    var stage: Option<Stage>
    var compilation: bool
    var cancellation: Option<Outcome>
    var outcome: Outcome

    ghost predicate Valid()
      reads this, metrics
    {
      metrics.Valid()
    }

    ghost function Value(): Work
      reads this
    {
      Work(stage, compilation, cancellation, outcome)
    }

    ghost function Both(): (Counts, Work)
      requires Valid()
      reads this, metrics
    {
      (metrics.Value(), Value())
    }

    constructor (metrics: Metrics)
      requires metrics.Valid()
      ensures this.metrics == metrics && Value() == NEW_WORK
    {
      this.metrics := metrics;
      stage, compilation, cancellation, outcome := Some(Queued), false, None, Cancelled;
    }

    method TerminateWith(reason: Outcome)
      requires Valid()
      modifies this, metrics
      ensures Valid() && Both() == Terminate(old(metrics.Value()), old(Value()), reason)
      ensures cancellation == if old(stage).Some? && old(cancellation).None? then Some(reason) else old(cancellation)
      ensures stage ==
        if old(cancellation).None? && (old(stage) == Some(Preparing) || old(stage) == Some(Building))
        then Some(Terminating) else old(stage)
      ensures compilation == old(compilation) && outcome == old(outcome)
    {
      if stage.None? || cancellation.Some? { return; }
      cancellation := Some(reason);
      if stage.value == Preparing || stage.value == Building {
        metrics.Move(stage.value, Terminating);
        stage := Some(Terminating);
      }
    }

    method BecomeActive()
      requires Valid()
      modifies this, metrics
      ensures Valid() && Both() == Activate(old(metrics.Value()), old(Value()))
      ensures stage == if old(stage) == Some(Queued) then Some(Preparing) else old(stage)
      ensures old(stage) != Some(Queued) ==>
        metrics.errors == old(metrics.errors) + 1 && metrics.work == old(metrics.work)
      ensures cancellation == old(cancellation) && compilation == old(compilation) && outcome == old(outcome)
    {
      if stage != Some(Queued) {
        metrics.errors := metrics.errors + 1;
        return;
      }
      metrics.Move(Queued, Preparing);
      stage := Some(Preparing);
    }

    /** Only called with no compilation open. */
    method Compiling()
      requires Valid() && !compilation
      modifies this, metrics
      ensures Valid()
      ensures var (c, w) := StartCompiling(old(metrics.Value()), old(Value()));
        Both() == (if w.compilation then CountCompiling(c) else c, w)
      ensures compilation <==>
        old(stage) == Some(Preparing) || (old(stage) == Some(Terminating) && old(cancellation).Some?)
      ensures compilation ==>
        && stage == Some(if cancellation.Some? then Terminating else Building)
        && metrics.open == old(metrics.open) + 1
      ensures !compilation ==> stage == old(stage) && metrics.open == old(metrics.open)
      ensures cancellation == old(cancellation) && outcome == old(outcome)
    {
      hide CountCompiling, Transition;
      if stage != Some(Preparing) && !(stage == Some(Terminating) && cancellation.Some?) {
        metrics.errors := metrics.errors + 1;
        return;
      }
      compilation := true;
      var next := if cancellation.Some? then Terminating else Building;
      if stage == Some(Preparing) {
        metrics.Move(Preparing, next);
      }
      stage := Some(next);
      metrics.CountCompilation();
    }

    method CloseCompilation(result: Outcome)
      requires Valid()
      modifies this, metrics
      ensures Valid() && Both() == EndCompiling(old(metrics.Value()), old(Value()), result)
      ensures !compilation && stage == old(stage) && cancellation == old(cancellation) && outcome == old(outcome)
      ensures old(compilation) ==>
        metrics.built == old(metrics.built) + multiset{if cancellation.Some? then cancellation.value else result}
      ensures metrics.finished == old(metrics.finished)
    {
      if !compilation {
        metrics.errors := metrics.errors + 1;
        return;
      }
      compilation := false;
      metrics.built := metrics.built + multiset{cancellation.UnwrapOr(result)};
      if metrics.open > 0 { metrics.open := metrics.open - 1; } else { metrics.errors := metrics.errors + 1; }
    }

    method CompilationFinished(result: Outcome)
      requires Valid()
      modifies this, metrics
      ensures Valid()
      ensures var (c, w) := EndCompiling(old(metrics.Value()), old(Value()), result);
        Both() == ReturnFromCompiling(c, w)
      ensures !compilation && cancellation == old(cancellation) && outcome == old(outcome)
      ensures stage == if old(stage) == Some(Building) then Some(Preparing) else old(stage)
      ensures old(compilation) ==>
        metrics.built == old(metrics.built) + multiset{if cancellation.Some? then cancellation.value else result}
    {
      CloseCompilation(result);
      if stage == Some(Building) {
        metrics.Move(Building, Preparing);
        stage := Some(Preparing);
      }
    }

    method Drop(panicking: bool)
      requires Valid()
      modifies this, metrics
      ensures Valid() && cancellation == old(cancellation) && outcome == old(outcome)
      ensures var (c, w) := DropCompilation(old(metrics.Value()), old(Value()), panicking);
        Both() == DropWork(c, w, Fate(old(Value()), panicking))
      ensures stage.None? && (old(stage).Some? ==> !compilation)
      ensures old(stage).Some? ==>
        var fate := if cancellation.Some? then cancellation.value else if panicking then Panic else outcome;
        && metrics.finished == old(metrics.finished) + multiset{fate}
        && metrics.built == old(metrics.built) + if old(compilation) then multiset{fate} else multiset{}
      ensures old(stage).None? ==> metrics.Value() == old(metrics.Value())
    {
      hide Leave;
      if stage.None? { return; }
      var fate := cancellation.UnwrapOr(if panicking then Panic else outcome);
      if compilation {
        CloseCompilation(fate);
      }
      LeaveFor(fate);
    }

    /** The stage is left for good, under this outcome. */
    method LeaveFor(fate: Outcome)
      requires Valid() && stage.Some?
      modifies this`stage, metrics
      ensures Valid() && Both() == DropWork(old(metrics.Value()), old(Value()), fate)
      ensures stage.None? && metrics.finished == old(metrics.finished) + multiset{fate}
      ensures metrics.built == old(metrics.built)
    {
      metrics.Decrement(stage.value);
      metrics.finished := metrics.finished + multiset{fate};
      stage := None;
    }
  }
}
