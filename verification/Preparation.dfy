/**
  Module preparations as a system: submissions, the record and active semaphores, the prepare
  flow of each work and the release of its permits, in every interleaving.
 */
module Preparation {
  import opened Basics
  import opened PreparationMetrics

  /** Who holds the work's state lock between two uses of the counters. */
  datatype Lock = Unlocked | Starting | Ending | Dropping(fate: Outcome)

  /** Where the prepare flow stands. */
  datatype Phase = InQueue | HasSlot | Fetching | InCompiler | Compiled

  /** A submission, a live work with its permits, or permits whose accounting is already gone. */
  datatype Prep =
    | Waiting(record: bool)
    | Live(work: Work, active: bool, phase: Phase, lock: Lock)
    | Releasing(active: bool)

  /** `fates` is history: what each finished work was counted as. */
  datatype State = State(
    c: Counts, preps: map<nat, Prep>, recordFree: nat, activeFree: nat, next: nat, fates: map<nat, Outcome>)

  datatype Event =
    | Submit
    | TakeRecord(id: nat)
    | Refuse(id: nat)
    | Admit(id: nat)
    | TakeActive(id: nat)
    | BecomeActive(id: nat)
    | Stop(id: nat, reason: Outcome)
    | SetOutcome(id: nat, outcome: Outcome)
    | Compile(id: nat)
    | CountIt(id: nat)
    | EndCompile(id: nat, outcome: Outcome)
    | Return(id: nat)
    | BeginDrop(id: nat, panicking: bool)
    | EndDrop(id: nat)
    | FreeActive(id: nat)
    | FreeRecord(id: nat)

  function Init(recordLimit: nat, activeLimit: nat): State {
    State(Configured(recordLimit, activeLimit), map[], recordLimit, activeLimit, 0, map[])
  }

  predicate Free(p: Prep) {
    p.Live? && p.lock.Unlocked?
  }

  function Put(s: State, id: nat, p: Prep): State {
    s.(preps := s.preps[id := p])
  }

  /** A live work after an operation of its own. */
  function Updated(s: State, id: nat, r: (Counts, Work), phase: Phase, lock: Lock): State
    requires id in s.preps && s.preps[id].Live?
  {
    s.(c := r.0, preps := s.preps[id := Live(r.1, s.preps[id].active, phase, lock)])
  }

  function StepOf(s: State, id: nat, p: Prep, e: Event): State
    requires id in s.preps && s.preps[id] == p
  {
    match e
    case TakeRecord(_) =>
      if p == Waiting(false) && s.recordFree > 0 then Put(s, id, Waiting(true)).(recordFree := s.recordFree - 1) else s
    case Refuse(_) => if p == Waiting(false) then s.(preps := s.preps - {id}, c := Refused(s.c)) else s
    case Admit(_) =>
      if p == Waiting(true) then Put(s, id, Live(NEW_WORK, false, InQueue, Unlocked)).(c := Admitted(s.c)) else s
    case TakeActive(_) =>
      if Free(p) && p.phase.InQueue? && s.activeFree > 0
      then Put(s, id, p.(active := true, phase := HasSlot)).(activeFree := s.activeFree - 1) else s
    case BecomeActive(_) =>
      if Free(p) && p.phase.HasSlot? then Updated(s, id, Activate(s.c, p.work), Fetching, Unlocked) else s
    case Stop(_, reason) => if Free(p) then Updated(s, id, Terminate(s.c, p.work, reason), p.phase, Unlocked) else s
    case SetOutcome(_, outcome) => if Free(p) then Put(s, id, p.(work := p.work.(outcome := outcome))) else s
    case Compile(_) =>
      if Free(p) && p.phase.Fetching? && !p.work.compilation
      then Updated(s, id, StartCompiling(s.c, p.work), InCompiler, Starting) else s
    case CountIt(_) =>
      if p.Live? && p.lock.Starting? then Put(s, id, p.(lock := Unlocked)).(c := CountCompiling(s.c)) else s
    case EndCompile(_, outcome) =>
      if Free(p) && p.phase.InCompiler? then Updated(s, id, EndCompiling(s.c, p.work, outcome), InCompiler, Ending)
      else s
    case Return(_) =>
      if p.Live? && p.lock.Ending? then Updated(s, id, ReturnFromCompiling(s.c, p.work), Compiled, Unlocked) else s
    case BeginDrop(_, panicking) =>
      if !Free(p) then s
      else Updated(s, id, DropCompilation(s.c, p.work, panicking), p.phase, Dropping(Fate(p.work, panicking)))
    case EndDrop(_) =>
      if !p.Live? || !p.lock.Dropping? then s
      else Put(s, id, Releasing(p.active)).(c := DropWork(s.c, p.work, p.lock.fate).0,
        fates := s.fates[id := p.lock.fate])
    case FreeActive(_) =>
      if p == Releasing(true) then Put(s, id, Releasing(false)).(activeFree := s.activeFree + 1) else s
    case FreeRecord(_) =>
      if p == Releasing(false) then s.(preps := s.preps - {id}, recordFree := s.recordFree + 1) else s
    case Submit => s
  }

  function Step(s: State, e: Event): State {
    if e.Submit? then s.(preps := s.preps[s.next := Waiting(false)], next := s.next + 1, c := Submitted(s.c))
    else if e.id in s.preps then StepOf(s, e.id, s.preps[e.id], e)
    else s
  }

  function Run(s: State, events: seq<Event>): State {
    if events == [] then s else Step(Run(s, events[..|events| - 1]), events[|events| - 1])
  }
}

/** What every run of the preparation system keeps. */
module PreparationSafety {
  import opened Basics
  import opened Counting
  import opened PreparationMetrics
  import opened Preparation

  predicate IsWaiting(p: Prep) { p.Waiting? }
  predicate IsLive(p: Prep) { p.Live? }
  predicate AtQueued(p: Prep) { p.Live? && p.work.stage == Some(Queued) }
  predicate AtPreparing(p: Prep) { p.Live? && p.work.stage == Some(Preparing) }
  predicate AtBuilding(p: Prep) { p.Live? && p.work.stage == Some(Building) }
  predicate AtTerminating(p: Prep) { p.Live? && p.work.stage == Some(Terminating) }
  predicate IsActive(p: Prep) { p.Live? && p.work.stage != Some(Queued) }
  predicate Counted(p: Prep) { p.Live? && p.work.compilation && !p.lock.Starting? }
  predicate HoldsRecord(p: Prep) { p != Waiting(false) }
  predicate HoldsActive(p: Prep) { (p.Live? || p.Releasing?) && p.active }

  /** Each counter is the number of things it counts. */
  ghost predicate Tallied(c: Counts, preps: map<nat, Prep>) {
    && c.waiting == Count(preps, IsWaiting)
    && c.queued == Count(preps, AtQueued)
    && c.preparing == Count(preps, AtPreparing)
    && c.building == Count(preps, AtBuilding)
    && c.terminating == Count(preps, AtTerminating)
    && c.open == Count(preps, Counted)
    && c.queued + Active(c) == Count(preps, IsLive)
    && Active(c) == Count(preps, IsActive)
    && c.errors == 0 && c.breaches == 0
  }

  ghost predicate Permitted(c: Counts, preps: map<nat, Prep>, recordFree: nat, activeFree: nat) {
    && recordFree + Count(preps, HoldsRecord) == c.recordLimit
    && activeFree + Count(preps, HoldsActive) == c.activeLimit
  }

  ghost predicate Balanced(c: Counts, fates: map<nat, Outcome>) {
    && c.admitted == |c.finished| + c.queued + Active(c)
    && |c.finished| == |fates|
  }

  predicate SoundWork(w: Work, phase: Phase, lock: Lock) {
    && w.stage.Some?
    && (w.stage == Some(Terminating) ==> w.cancellation.Some?)
    && (match phase
        case InQueue => w.stage == Some(Queued) && !w.compilation
        case HasSlot => w.stage == Some(Queued) && !w.compilation
        case Fetching => (w.stage == Some(Preparing) || w.stage == Some(Terminating)) && !w.compilation
        case InCompiler => w.stage == Some(Building) || w.stage == Some(Terminating)
        case Compiled => (w.stage == Some(Preparing) || w.stage == Some(Terminating)) && !w.compilation)
    && (match lock
        case Unlocked => phase.InCompiler? ==> w.compilation
        case Starting => phase.InCompiler? && w.compilation
        case Ending => phase.InCompiler? && !w.compilation
        case Dropping(fate) => !w.compilation && fate == w.cancellation.UnwrapOr(fate))
  }

  /** A work past the queue holds a slot; a compilation is open exactly inside the compiler. */
  predicate Sound(p: Prep) {
    p.Live? ==> SoundWork(p.work, p.phase, p.lock) && (p.active <==> !p.phase.InQueue?)
  }

  ghost predicate AllSound(preps: map<nat, Prep>, next: nat, fates: map<nat, Outcome>) {
    && (forall id :: id in preps ==> id < next && Sound(preps[id]) && (id in fates <==> preps[id].Releasing?))
    && (forall id :: id in fates ==> id < next)
  }

  ghost predicate Invariant(s: State) {
    && Tallied(s.c, s.preps)
    && Permitted(s.c, s.preps, s.recordFree, s.activeFree)
    && Balanced(s.c, s.fates)
    && AllSound(s.preps, s.next, s.fates)
  }

  // ------------------------------------------------------------ counting one change

  function B(b: bool): int { if b then 1 else 0 }

  lemma Replaced(m: map<nat, Prep>, id: nat, p: Prep)
    requires id in m
    ensures var n := m[id := p]; var q := m[id];
      && Count(n, IsWaiting) == Count(m, IsWaiting) - B(IsWaiting(q)) + B(IsWaiting(p))
      && Count(n, IsLive) == Count(m, IsLive) - B(IsLive(q)) + B(IsLive(p))
      && Count(n, AtQueued) == Count(m, AtQueued) - B(AtQueued(q)) + B(AtQueued(p))
      && Count(n, AtPreparing) == Count(m, AtPreparing) - B(AtPreparing(q)) + B(AtPreparing(p))
      && Count(n, AtBuilding) == Count(m, AtBuilding) - B(AtBuilding(q)) + B(AtBuilding(p))
      && Count(n, AtTerminating) == Count(m, AtTerminating) - B(AtTerminating(q)) + B(AtTerminating(p))
      && Count(n, IsActive) == Count(m, IsActive) - B(IsActive(q)) + B(IsActive(p))
      && Count(n, Counted) == Count(m, Counted) - B(Counted(q)) + B(Counted(p))
  {
    hide Count;
    CountReplace(m, id, p, IsWaiting);
    CountReplace(m, id, p, IsLive);
    CountReplace(m, id, p, AtQueued);
    CountReplace(m, id, p, AtPreparing);
    CountReplace(m, id, p, AtBuilding);
    CountReplace(m, id, p, AtTerminating);
    CountReplace(m, id, p, IsActive);
    CountReplace(m, id, p, Counted);
  }

  /** Permits move between a preparation and its semaphore. */
  lemma PermitsPut(c: Counts, m: map<nat, Prep>, rf: nat, af: nat, id: nat, p: Prep, d: Counts, rf': nat, af': nat)
    requires Permitted(c, m, rf, af) && id in m && d.recordLimit == c.recordLimit && d.activeLimit == c.activeLimit
    requires rf' == rf + B(HoldsRecord(m[id])) - B(HoldsRecord(p))
      && af' == af + B(HoldsActive(m[id])) - B(HoldsActive(p))
    ensures Permitted(d, m[id := p], rf', af')
  {
    CountReplace(m, id, p, HoldsRecord);
    CountReplace(m, id, p, HoldsActive);
    hide Count;
  }

  lemma SoundPut(m: map<nat, Prep>, next: nat, fates: map<nat, Outcome>, id: nat, p: Prep)
    requires AllSound(m, next, fates) && id in m && Sound(p) && p.Releasing? == m[id].Releasing?
    ensures AllSound(m[id := p], next, fates)
  {
    hide Sound;
  }

  lemma SoundAt(s: State, id: nat)
    requires Invariant(s) && id in s.preps
    ensures Sound(s.preps[id]) && id < s.next && (id in s.fates <==> s.preps[id].Releasing?)
  {
    hide Tallied, Permitted, Balanced, Sound;
  }

  /** Live works hold records, works past the queue hold slots, open compilations too. */
  lemma WithinLimits(s: State)
    requires Invariant(s)
    ensures s.c.queued + Active(s.c) <= s.c.recordLimit && Active(s.c) <= s.c.activeLimit && s.c.open <= Active(s.c)
  {
    CountImplies(s.preps, IsLive, HoldsRecord);
    CountImplies(s.preps, IsActive, HoldsActive);
    CountImplies(s.preps, Counted, IsActive);
  }

  // ------------------------------------------------------------ a live work changes

  /** The counters follow a work from its stage to another. */
  lemma MoveTallies(c: Counts, m: map<nat, Prep>, id: nat, p: Prep, from: Stage, to: Stage)
    requires Tallied(c, m) && id in m && m[id].Live? && p.Live? && Counted(p) == Counted(m[id])
    requires m[id].work.stage == Some(from) && p.work.stage == Some(to)
    requires from == Queued && to == Preparing ==> Active(c) + 1 <= c.activeLimit
    requires from != to && to != Queued
    ensures Tallied(Transition(c, from, to), m[id := p])
    ensures var r := Transition(c, from, to);
      r == c.(queued := r.queued, preparing := r.preparing, building := r.building, terminating := r.terminating)
    ensures Transition(c, from, to).queued + Active(Transition(c, from, to)) == c.queued + Active(c)
  {
    Replaced(m, id, p);
    hide Count;
    match from
    case Queued => CountPositive(m, id, AtQueued);
    case Preparing => CountPositive(m, id, AtPreparing);
    case Building => CountPositive(m, id, AtBuilding);
    case Terminating => CountPositive(m, id, AtTerminating);
  }

  /** Everything about a live-to-live change but its tally. */
  lemma LiveKeeps(s: State, id: nat, c: Counts, p: Prep)
    requires Invariant(s) && id in s.preps && s.preps[id].Live? && p.Live? && Sound(p) && p.active == s.preps[id].active
    requires Tallied(c, s.preps[id := p]) && c.recordLimit == s.c.recordLimit && c.activeLimit == s.c.activeLimit
    requires c.admitted == s.c.admitted && c.finished == s.c.finished
      && c.queued + Active(c) == s.c.queued + Active(s.c)
    ensures Invariant(s.(c := c, preps := s.preps[id := p]))
  {
    hide Tallied, Permitted, AllSound, Sound;
    PermitsPut(s.c, s.preps, s.recordFree, s.activeFree, id, p, c, s.recordFree, s.activeFree);
    SoundPut(s.preps, s.next, s.fates, id, p);
  }

  /** The stage, and with it the tally, stays. */
  lemma StayTallies(c: Counts, m: map<nat, Prep>, id: nat, p: Prep)
    requires Tallied(c, m) && id in m && m[id].Live? && p.Live? && Counted(p) == Counted(m[id])
      && p.work.stage == m[id].work.stage
    ensures Tallied(c, m[id := p])
  {
    Replaced(m, id, p);
    hide Count;
  }

  lemma Parts(s: State)
    requires Invariant(s)
    ensures Tallied(s.c, s.preps)
  {
    hide Tallied, Permitted, Balanced, AllSound;
  }

  /** A queued work with a slot means one active place is unused. */
  lemma SlotLeft(s: State, id: nat)
    requires Invariant(s) && id in s.preps && s.preps[id].Live? && s.preps[id].active
      && s.preps[id].work.stage == Some(Queued)
    ensures Active(s.c) + 1 <= s.c.activeLimit
  {
    var rest := s.preps - {id};
    CountDrop(s.preps, id, IsActive);
    CountDrop(s.preps, id, HoldsActive);
    CountImplies(rest, IsActive, HoldsActive);
  }

  lemma BecomeActiveKeeps(s: State, id: nat)
    requires Invariant(s) && id in s.preps && Free(s.preps[id]) && s.preps[id].phase.HasSlot?
    ensures Invariant(Step(s, BecomeActive(id)))
  {
    hide Invariant, Tallied, Transition;
    var p := s.preps[id];
    var r := Step(s, BecomeActive(id)).preps[id];
    SoundAt(s, id);
    SlotLeft(s, id);
    Parts(s);
    MoveTallies(s.c, s.preps, id, r, Queued, Preparing);
    LiveKeeps(s, id, Transition(s.c, Queued, Preparing), r);
  }

  lemma StopKeeps(s: State, id: nat, reason: Outcome)
    requires Invariant(s) && id in s.preps && Free(s.preps[id])
    ensures Invariant(Step(s, Stop(id, reason)))
  {
    hide Invariant, Tallied, Transition;
    var p := s.preps[id];
    var r := Step(s, Stop(id, reason)).preps[id];
    Parts(s);
    SoundAt(s, id);
    if p.work.cancellation.None? && (p.work.stage == Some(Preparing) || p.work.stage == Some(Building)) {
      MoveTallies(s.c, s.preps, id, r, p.work.stage.value, Terminating);
      LiveKeeps(s, id, Transition(s.c, p.work.stage.value, Terminating), r);
    } else {
      StayTallies(s.c, s.preps, id, r);
      LiveKeeps(s, id, s.c, r);
    }
  }

  lemma SetOutcomeKeeps(s: State, id: nat, outcome: Outcome)
    requires Invariant(s) && id in s.preps && Free(s.preps[id])
    ensures Invariant(Step(s, SetOutcome(id, outcome)))
  {
    hide Invariant, Tallied;
    var r := Step(s, SetOutcome(id, outcome)).preps[id];
    Parts(s);
    SoundAt(s, id);
    StayTallies(s.c, s.preps, id, r);
    LiveKeeps(s, id, s.c, r);
  }

  lemma CompileKeeps(s: State, id: nat)
    requires Invariant(s) && id in s.preps && Free(s.preps[id]) && s.preps[id].phase.Fetching?
    ensures !s.preps[id].work.compilation && Invariant(Step(s, Compile(id)))
  {
    hide Invariant, Tallied, Transition;
    var p := s.preps[id];
    Parts(s);
    SoundAt(s, id);
    var r := Step(s, Compile(id)).preps[id];
    if p.work.stage == Some(Preparing) {
      MoveTallies(s.c, s.preps, id, r, Preparing, r.work.stage.value);
      LiveKeeps(s, id, Transition(s.c, Preparing, r.work.stage.value), r);
    } else {
      StayTallies(s.c, s.preps, id, r);
      LiveKeeps(s, id, s.c, r);
    }
  }

  lemma CountTallies(c: Counts, m: map<nat, Prep>, id: nat, p: Prep)
    requires Tallied(c, m) && id in m && m[id].Live? && !Counted(m[id]) && p.Live? && Counted(p)
      && p.work.stage == m[id].work.stage
    requires c.open + 1 <= c.activeLimit
    ensures Tallied(CountCompiling(c), m[id := p]) && CountCompiling(c) == c.(open := c.open + 1)
  {
    Replaced(m, id, p);
    hide Count;
  }

  lemma UncountedLeft(s: State, id: nat)
    requires Invariant(s) && id in s.preps && s.preps[id].Live? && s.preps[id].lock.Starting?
    ensures s.c.open + 1 <= Active(s.c)
  {
    assert Sound(s.preps[id]);
    CountDrop(s.preps, id, Counted);
    CountDrop(s.preps, id, IsActive);
    CountImplies(s.preps - {id}, Counted, IsActive);
  }

  lemma CountItKeeps(s: State, id: nat)
    requires Invariant(s) && id in s.preps && s.preps[id].Live? && s.preps[id].lock.Starting?
    ensures Invariant(Step(s, CountIt(id)))
  {
    hide Invariant, Tallied, CountCompiling;
    var r := s.preps[id].(lock := Unlocked);
    WithinLimits(s);
    Parts(s);
    SoundAt(s, id);
    UncountedLeft(s, id);
    CountTallies(s.c, s.preps, id, r);
    LiveKeeps(s, id, CountCompiling(s.c), r);
  }

  lemma CloseTallies(c: Counts, m: map<nat, Prep>, id: nat, p: Prep, outcome: Outcome)
    requires Tallied(c, m) && id in m && m[id].Live? && Counted(m[id]) && p.Live? && !Counted(p)
      && p.work.stage == m[id].work.stage
    ensures Tallied(EndCompiling(c, m[id].work, outcome).0, m[id := p])
    ensures var d := EndCompiling(c, m[id].work, outcome).0; d == c.(open := d.open, built := d.built)
  {
    Replaced(m, id, p);
    CountPositive(m, id, Counted);
    hide Count;
  }

  lemma EndCompileKeeps(s: State, id: nat, outcome: Outcome)
    requires Invariant(s) && id in s.preps && Free(s.preps[id]) && s.preps[id].phase.InCompiler?
    ensures Invariant(Step(s, EndCompile(id, outcome)))
  {
    hide Invariant, Tallied;
    var r := Step(s, EndCompile(id, outcome));
    Parts(s);
    SoundAt(s, id);
    CloseTallies(s.c, s.preps, id, r.preps[id], outcome);
    LiveKeeps(s, id, r.c, r.preps[id]);
  }

  lemma ReturnKeeps(s: State, id: nat)
    requires Invariant(s) && id in s.preps && s.preps[id].Live? && s.preps[id].lock.Ending?
    ensures Invariant(Step(s, Return(id)))
  {
    hide Invariant, Tallied, Transition;
    var p := s.preps[id];
    var r := Step(s, Return(id)).preps[id];
    Parts(s);
    SoundAt(s, id);
    if p.work.stage == Some(Building) {
      MoveTallies(s.c, s.preps, id, r, Building, Preparing);
      LiveKeeps(s, id, Transition(s.c, Building, Preparing), r);
    } else {
      StayTallies(s.c, s.preps, id, r);
      LiveKeeps(s, id, s.c, r);
    }
  }

  lemma BeginDropKeeps(s: State, id: nat, panicking: bool)
    requires Invariant(s) && id in s.preps && Free(s.preps[id])
    ensures Invariant(Step(s, BeginDrop(id, panicking)))
  {
    hide Invariant, Tallied;
    var p := s.preps[id];
    var r := Step(s, BeginDrop(id, panicking));
    Parts(s);
    SoundAt(s, id);
    if p.work.compilation {
      CloseTallies(s.c, s.preps, id, r.preps[id], Fate(p.work, panicking));
    } else {
      StayTallies(s.c, s.preps, id, r.preps[id]);
    }
    LiveKeeps(s, id, r.c, r.preps[id]);
  }

  // ------------------------------------------------------------ births, deaths and permits

  /** The accounting goes while the permits are still held. */
  lemma DropTallies(c: Counts, m: map<nat, Prep>, id: nat, active: bool, fate: Outcome)
    requires Tallied(c, m) && id in m && m[id].Live? && !m[id].work.compilation && m[id].work.stage.Some?
    ensures var d := DropWork(c, m[id].work, fate).0;
      && Tallied(d, m[id := Releasing(active)])
      && d.finished == c.finished + multiset{fate} && d.queued + Active(d) == c.queued + Active(c) - 1
      && d.admitted == c.admitted && d.recordLimit == c.recordLimit && d.activeLimit == c.activeLimit
  {
    Replaced(m, id, Releasing(active));
    match m[id].work.stage.value
    case Queued => CountPositive(m, id, AtQueued);
    case Preparing => CountPositive(m, id, AtPreparing);
    case Building => CountPositive(m, id, AtBuilding);
    case Terminating => CountPositive(m, id, AtTerminating);
    hide Count;
  }

  lemma SoundDropped(m: map<nat, Prep>, next: nat, fates: map<nat, Outcome>, id: nat, active: bool, fate: Outcome)
    requires AllSound(m, next, fates) && id in m && m[id].Live?
    ensures AllSound(m[id := Releasing(active)], next, fates[id := fate]) && |fates[id := fate]| == |fates| + 1
  {
  }

  lemma EndDropKeeps(s: State, id: nat)
    requires Invariant(s) && id in s.preps && s.preps[id].Live? && s.preps[id].lock.Dropping?
    ensures Invariant(Step(s, EndDrop(id)))
  {
    hide Tallied, Permitted, AllSound, DropWork;
    var p := s.preps[id];
    SoundAt(s, id);
    DropTallies(s.c, s.preps, id, p.active, p.lock.fate);
    PermitsPut(s.c, s.preps, s.recordFree, s.activeFree, id, Releasing(p.active), DropWork(s.c, p.work, p.lock.fate).0,
      s.recordFree, s.activeFree);
    SoundDropped(s.preps, s.next, s.fates, id, p.active, p.lock.fate);
  }

  /** An admitted work is within the record limit, since it holds a record. */
  lemma RecordLeft(s: State, id: nat)
    requires Invariant(s) && id in s.preps && s.preps[id] == Waiting(true)
    ensures s.c.queued + Active(s.c) + 1 <= s.c.recordLimit
  {
    CountDrop(s.preps, id, IsLive);
    CountDrop(s.preps, id, HoldsRecord);
    CountImplies(s.preps - {id}, IsLive, HoldsRecord);
    hide Count;
  }

  lemma AdmitTallies(c: Counts, m: map<nat, Prep>, id: nat, p: Prep)
    requires Tallied(c, m) && id in m && m[id].Waiting? && p == Live(NEW_WORK, false, InQueue, Unlocked)
    requires c.queued + Active(c) + 1 <= c.recordLimit
    ensures Tallied(Admitted(c), m[id := p])
    ensures Admitted(c) == c.(waiting := c.waiting - 1, queued := c.queued + 1, admitted := c.admitted + 1)
  {
    Replaced(m, id, p);
    CountPositive(m, id, IsWaiting);
    hide Count;
  }

  lemma AdmitKeeps(s: State, id: nat)
    requires Invariant(s) && id in s.preps && s.preps[id] == Waiting(true)
    ensures Invariant(Step(s, Admit(id)))
  {
    hide Tallied, Permitted, AllSound, Admitted;
    var p := Live(NEW_WORK, false, InQueue, Unlocked);
    RecordLeft(s, id);
    AdmitTallies(s.c, s.preps, id, p);
    PermitsPut(s.c, s.preps, s.recordFree, s.activeFree, id, p, Admitted(s.c), s.recordFree, s.activeFree);
    SoundPut(s.preps, s.next, s.fates, id, p);
  }

  /** Taking or giving back a permit changes no tally. */
  lemma PermitTallies(c: Counts, m: map<nat, Prep>, id: nat, p: Prep)
    requires Tallied(c, m) && id in m && IsWaiting(p) == IsWaiting(m[id]) && IsLive(p) == IsLive(m[id])
    requires p.Live? && m[id].Live? ==> p.work == m[id].work && p.lock == m[id].lock
    ensures Tallied(c, m[id := p])
  {
    Replaced(m, id, p);
    hide Count;
  }

  lemma PermitKeeps(s: State, id: nat, e: Event)
    requires Invariant(s) && id in s.preps && (e == TakeRecord(id) || e == TakeActive(id) || e == FreeActive(id))
    ensures Invariant(Step(s, e))
  {
    hide Tallied, Permitted, AllSound;
    var r := Step(s, e);
    SoundAt(s, id);
    if r != s {
      PermitTallies(s.c, s.preps, id, r.preps[id]);
      PermitsPut(s.c, s.preps, s.recordFree, s.activeFree, id, r.preps[id], s.c, r.recordFree, r.activeFree);
      SoundPut(s.preps, s.next, s.fates, id, r.preps[id]);
    }
  }

  lemma RemovedTallies(m: map<nat, Prep>, id: nat)
    requires id in m && !m[id].Live?
    ensures Count(m - {id}, IsWaiting) == Count(m, IsWaiting) - B(IsWaiting(m[id]))
      && Count(m - {id}, IsLive) == Count(m, IsLive)
    ensures Count(m - {id}, AtQueued) == Count(m, AtQueued) && Count(m - {id}, AtPreparing) == Count(m, AtPreparing)
    ensures Count(m - {id}, AtBuilding) == Count(m, AtBuilding)
      && Count(m - {id}, AtTerminating) == Count(m, AtTerminating)
    ensures Count(m - {id}, IsActive) == Count(m, IsActive) && Count(m - {id}, Counted) == Count(m, Counted)
    ensures Count(m - {id}, HoldsRecord) == Count(m, HoldsRecord) - B(HoldsRecord(m[id]))
    ensures Count(m - {id}, HoldsActive) == Count(m, HoldsActive) - B(HoldsActive(m[id]))
  {
    hide Count;
    CountDrop(m, id, IsWaiting);
    CountDrop(m, id, IsLive);
    CountDrop(m, id, AtQueued);
    CountDrop(m, id, AtPreparing);
    CountDrop(m, id, AtBuilding);
    CountDrop(m, id, AtTerminating);
    CountDrop(m, id, IsActive);
    CountDrop(m, id, Counted);
    CountDrop(m, id, HoldsRecord);
    CountDrop(m, id, HoldsActive);
  }

  lemma RemovedSound(m: map<nat, Prep>, next: nat, fates: map<nat, Outcome>, id: nat)
    requires AllSound(m, next, fates)
    ensures AllSound(m - {id}, next, fates)
  {
    hide Sound;
  }

  lemma RefuseTallies(c: Counts, m: map<nat, Prep>, id: nat)
    requires Tallied(c, m) && id in m && m[id].Waiting?
    ensures Tallied(Refused(c), m - {id}) && Refused(c) == c.(waiting := c.waiting - 1, refused := c.refused + 1)
  {
    RemovedTallies(m, id);
    CountPositive(m, id, IsWaiting);
    hide Count;
  }

  lemma ReleasedTallies(c: Counts, m: map<nat, Prep>, id: nat)
    requires Tallied(c, m) && id in m && m[id].Releasing?
    ensures Tallied(c, m - {id})
  {
    RemovedTallies(m, id);
    hide Count;
  }

  lemma RemovedPermits(c: Counts, m: map<nat, Prep>, rf: nat, af: nat, id: nat, d: Counts)
    requires Permitted(c, m, rf, af) && id in m && !m[id].Live? && !HoldsActive(m[id])
    requires d.recordLimit == c.recordLimit && d.activeLimit == c.activeLimit
    ensures Permitted(d, m - {id}, rf + B(HoldsRecord(m[id])), af)
  {
    CountDrop(m, id, HoldsRecord);
    CountDrop(m, id, HoldsActive);
    hide Count;
  }

  lemma RefuseKeeps(s: State, id: nat)
    requires Invariant(s) && id in s.preps && s.preps[id] == Waiting(false)
    ensures Invariant(Step(s, Refuse(id)))
  {
    hide AllSound, Tallied, Permitted, Refused;
    RemovedSound(s.preps, s.next, s.fates, id);
    RefuseTallies(s.c, s.preps, id);
    RemovedPermits(s.c, s.preps, s.recordFree, s.activeFree, id, Refused(s.c));
  }

  lemma FreeRecordKeeps(s: State, id: nat)
    requires Invariant(s) && id in s.preps && s.preps[id] == Releasing(false)
    ensures Invariant(Step(s, FreeRecord(id)))
  {
    hide AllSound, Tallied, Permitted;
    RemovedSound(s.preps, s.next, s.fates, id);
    ReleasedTallies(s.c, s.preps, id);
    RemovedPermits(s.c, s.preps, s.recordFree, s.activeFree, id, s.c);
  }

  lemma SubmitSound(s: State)
    requires AllSound(s.preps, s.next, s.fates)
    ensures AllSound(s.preps[s.next := Waiting(false)], s.next + 1, s.fates) && s.next !in s.preps
  {
    hide SoundWork;
  }

  lemma SubmitTallies(c: Counts, m: map<nat, Prep>, id: nat)
    requires Tallied(c, m) && id !in m
    ensures Tallied(Submitted(c), m[id := Waiting(false)])
  {
    var n := m[id := Waiting(false)];
    assert n - {id} == m;
    RemovedTallies(n, id);
    hide Count;
  }

  lemma SubmitPermits(c: Counts, m: map<nat, Prep>, rf: nat, af: nat, id: nat)
    requires Permitted(c, m, rf, af) && id !in m
    ensures Permitted(Submitted(c), m[id := Waiting(false)], rf, af)
  {
    CountAdd(m, id, Waiting(false), HoldsRecord);
    CountAdd(m, id, Waiting(false), HoldsActive);
    hide Count;
  }

  lemma SubmitKeeps(s: State)
    requires Invariant(s)
    ensures Invariant(Step(s, Submit))
  {
    hide AllSound, Tallied, Permitted;
    SubmitSound(s);
    SubmitTallies(s.c, s.preps, s.next);
    SubmitPermits(s.c, s.preps, s.recordFree, s.activeFree, s.next);
  }

  lemma StepKeeps(s: State, e: Event)
    requires Invariant(s)
    ensures Invariant(Step(s, e))
  {
    hide Invariant, Updated, Activate, Terminate, StartCompiling, EndCompiling, CountCompiling, ReturnFromCompiling;
    hide DropCompilation, DropWork, Fate, Admitted, Refused, Put;
    if e.Submit? {
      SubmitKeeps(s);
    } else if e.id in s.preps {
      var p := s.preps[e.id];
      match e
      case TakeRecord(id) => PermitKeeps(s, id, e);
      case TakeActive(id) => PermitKeeps(s, id, e);
      case FreeActive(id) => PermitKeeps(s, id, e);
      case Refuse(id) => if p == Waiting(false) { RefuseKeeps(s, id); }
      case FreeRecord(id) => if p == Releasing(false) { FreeRecordKeeps(s, id); }
      case Admit(id) => if p == Waiting(true) { AdmitKeeps(s, id); }
      case BecomeActive(id) => if Free(p) && p.phase.HasSlot? { BecomeActiveKeeps(s, id); }
      case Stop(id, reason) => if Free(p) { StopKeeps(s, id, reason); }
      case SetOutcome(id, outcome) => if Free(p) { SetOutcomeKeeps(s, id, outcome); }
      case Compile(id) => if Free(p) && p.phase.Fetching? { CompileKeeps(s, id); }
      case CountIt(id) => if p.Live? && p.lock.Starting? { CountItKeeps(s, id); }
      case EndCompile(id, outcome) => if Free(p) && p.phase.InCompiler? { EndCompileKeeps(s, id, outcome); }
      case Return(id) => if p.Live? && p.lock.Ending? { ReturnKeeps(s, id); }
      case BeginDrop(id, panicking) => if Free(p) { BeginDropKeeps(s, id, panicking); }
      case EndDrop(id) => if p.Live? && p.lock.Dropping? { EndDropKeeps(s, id); }
    }
  }

  lemma InitHolds(recordLimit: nat, activeLimit: nat)
    ensures Invariant(Init(recordLimit, activeLimit))
  {
  }

  lemma {:induction false} RunKeeps(recordLimit: nat, activeLimit: nat, events: seq<Event>)
    ensures Invariant(Run(Init(recordLimit, activeLimit), events))
    decreases |events|
  {
    hide Invariant, Step, Init;
    if events == [] {
      InitHolds(recordLimit, activeLimit);
    } else {
      RunKeeps(recordLimit, activeLimit, events[..|events| - 1]);
      StepKeeps(Run(Init(recordLimit, activeLimit), events[..|events| - 1]), events[|events| - 1]);
    }
  }

  // ------------------------------------------------------------ theorems

  ghost predicate SameLimits(c: Counts, d: Counts) {
    d.recordLimit == c.recordLimit && d.activeLimit == c.activeLimit
  }

  lemma TransitionLimits(c: Counts, from: Stage, to: Stage)
    ensures SameLimits(c, Transition(c, from, to))
  {
  }

  lemma StageLimits(c: Counts, w: Work, o: Outcome)
    ensures SameLimits(c, Activate(c, w).0) && SameLimits(c, Terminate(c, w, o).0)
    ensures !w.compilation ==> SameLimits(c, StartCompiling(c, w).0)
  {
    hide Transition;
    TransitionLimits(c, Queued, Preparing);
    TransitionLimits(c, Preparing, Terminating);
    TransitionLimits(c, Preparing, Building);
    TransitionLimits(c, Building, Terminating);
  }

  lemma OperationLimits(c: Counts, w: Work, o: Outcome, panicking: bool)
    ensures SameLimits(c, Activate(c, w).0) && SameLimits(c, Terminate(c, w, o).0)
    ensures SameLimits(c, EndCompiling(c, w, o).0) && (!w.compilation ==> SameLimits(c, StartCompiling(c, w).0))
    ensures SameLimits(c, ReturnFromCompiling(c, w).0) && SameLimits(c, DropCompilation(c, w, panicking).0)
    ensures SameLimits(c, DropWork(c, w, o).0) && SameLimits(c, CountCompiling(c))
  {
    StageLimits(c, w, o);
    hide Transition, Activate, Terminate, StartCompiling;
    TransitionLimits(c, Building, Preparing);
  }

  lemma SubmissionLimits(c: Counts)
    ensures SameLimits(c, Admitted(c)) && SameLimits(c, Refused(c)) && SameLimits(c, Submitted(c))
  {
  }

  lemma LimitsStep(s: State, e: Event)
    ensures SameLimits(s.c, Step(s, e).c)
  {
    SubmissionLimits(s.c);
    hide Activate, Terminate, StartCompiling, EndCompiling, CountCompiling, ReturnFromCompiling, DropCompilation;
    hide DropWork, Fate;
    hide Admitted, Refused, Submitted;
    if !e.Submit? && e.id in s.preps && s.preps[e.id].Live? {
      var p := s.preps[e.id];
      var o := if e.Stop? then e.reason else if e.EndCompile? then e.outcome else if p.lock.Dropping? then p.lock.fate
        else Success;
      OperationLimits(s.c, p.work, o, if e.BeginDrop? then e.panicking else false);
      hide SameLimits;
    }
  }

  lemma {:induction false} LimitsAreFixed(s: State, events: seq<Event>)
    ensures Run(s, events).c.recordLimit == s.c.recordLimit && Run(s, events).c.activeLimit == s.c.activeLimit
    decreases |events|
  {
    hide Step;
    if events != [] {
      LimitsAreFixed(s, events[..|events| - 1]);
      LimitsStep(Run(s, events[..|events| - 1]), events[|events| - 1]);
    }
  }

  /**
    Accounting and capacity, for every interleaving: each stage counter is the number of live works
    at that stage, open compilations are counted once each, both limits hold, nothing is ever
    recorded as a breach or an accounting error, and admissions equal finished plus live.
   */
  lemma PreparationIsExact(recordLimit: nat, activeLimit: nat, events: seq<Event>)
    ensures var s := Run(Init(recordLimit, activeLimit), events);
      && s.c.waiting == Count(s.preps, IsWaiting)
      && s.c.queued == Count(s.preps, AtQueued) && s.c.preparing == Count(s.preps, AtPreparing)
      && s.c.building == Count(s.preps, AtBuilding) && s.c.terminating == Count(s.preps, AtTerminating)
      && s.c.open == Count(s.preps, Counted)
      && s.c.queued + Active(s.c) <= recordLimit && Active(s.c) <= activeLimit && s.c.open <= activeLimit
      && s.c.breaches == 0 && s.c.errors == 0
      && s.c.admitted == |s.c.finished| + Count(s.preps, IsLive)
      && s.recordFree + Count(s.preps, HoldsRecord) == recordLimit
      && s.activeFree + Count(s.preps, HoldsActive) == activeLimit
  {
    RunKeeps(recordLimit, activeLimit, events);
    LimitsAreFixed(Init(recordLimit, activeLimit), events);
    var s := Run(Init(recordLimit, activeLimit), events);
    WithinLimits(s);
    hide Run, Count, AllSound;
  }

  /** A work that was told to stop, and why; kept until it is finished, and then its fate. */
  ghost predicate StoppedFor(s: State, id: nat, reason: Outcome) {
    || (id in s.fates && s.fates[id] == reason)
    || (id in s.preps && s.preps[id].Live? && s.preps[id].work.cancellation == Some(reason))
  }

  /** No operation forgets why a work was stopped. */
  lemma OperationKeepsReason(c: Counts, w: Work, o: Outcome, panicking: bool)
    requires w.cancellation.Some?
    ensures Activate(c, w).1.cancellation == Terminate(c, w, o).1.cancellation ==
      EndCompiling(c, w, o).1.cancellation == w.cancellation
    ensures !w.compilation ==> StartCompiling(c, w).1.cancellation == w.cancellation
    ensures ReturnFromCompiling(c, w).1.cancellation == DropCompilation(c, w, panicking).1.cancellation ==
      w.cancellation
  {
    hide Transition;
  }

  lemma OwnStep(s: State, id: nat, reason: Outcome, e: Event)
    requires id in s.preps && s.preps[id].Live? && s.preps[id].work.cancellation == Some(reason) && Sound(s.preps[id])
    requires !e.Submit? && e.id == id
    ensures StoppedFor(Step(s, e), id, reason)
  {
    hide Activate, Terminate, StartCompiling, EndCompiling, CountCompiling, ReturnFromCompiling, DropCompilation;
    hide DropWork;
    var p := s.preps[id];
    var o := if e.Stop? then e.reason else if e.EndCompile? then e.outcome else Success;
    OperationKeepsReason(s.c, p.work, o, if e.BeginDrop? then e.panicking else false);
  }

  lemma OtherStep(s: State, id: nat, e: Event)
    requires e.Submit? ==> id < s.next
    requires !e.Submit? ==> e.id != id
    ensures id in s.preps <==> id in Step(s, e).preps
    ensures id in s.preps ==> Step(s, e).preps[id] == s.preps[id]
    ensures id in s.fates ==> id in Step(s, e).fates && Step(s, e).fates[id] == s.fates[id]
    ensures Step(s, e).next >= s.next
  {
    hide Activate, Terminate, StartCompiling, EndCompiling, CountCompiling, ReturnFromCompiling, DropCompilation;
    hide DropWork;
    hide Admitted, Refused, Submitted, Fate;
  }

  lemma FatesStay(s: State, id: nat, e: Event)
    requires id in s.fates && (id in s.preps ==> s.preps[id].Releasing?) && !e.Submit? && e.id == id
    ensures id in Step(s, e).fates && Step(s, e).fates[id] == s.fates[id]
  {
    hide Activate, Terminate, StartCompiling, EndCompiling, CountCompiling, ReturnFromCompiling, DropCompilation;
    hide DropWork;
    hide Admitted, Refused, Submitted, Fate;
  }

  lemma NextGrows(s: State, e: Event)
    ensures Step(s, e).next >= s.next
  {
    hide Activate, Terminate, StartCompiling, EndCompiling, CountCompiling, ReturnFromCompiling, DropCompilation;
    hide DropWork;
    hide Admitted, Refused, Submitted, Fate;
  }

  lemma StoppedStays(s: State, id: nat, reason: Outcome, e: Event)
    requires Invariant(s) && StoppedFor(s, id, reason) && id < s.next
    ensures StoppedFor(Step(s, e), id, reason) && id < Step(s, e).next
  {
    if id in s.preps {
      SoundAt(s, id);
    }
    hide Invariant, Sound;
    NextGrows(s, e);
    if e.Submit? || e.id != id {
      OtherStep(s, id, e);
      hide Step;
    } else if id in s.preps && s.preps[id].Live? {
      OwnStep(s, id, reason, e);
      hide Step;
    } else {
      FatesStay(s, id, e);
      hide Step;
    }
  }

  /** The first reason to stop decides the outcome, whatever comes later: panics, errors, success or another stop. */
  lemma {:induction false} FirstStopDecides(s: State, id: nat, reason: Outcome, events: seq<Event>)
    requires Invariant(s) && StoppedFor(s, id, reason) && id < s.next
    ensures var r := Run(s, events);
      && Invariant(r) && StoppedFor(r, id, reason) && id < r.next
      && (id !in r.preps || !r.preps[id].Live? ==> id in r.fates && r.fates[id] == reason)
    decreases |events|
  {
    hide Invariant, Step;
    if events != [] {
      FirstStopDecides(s, id, reason, events[..|events| - 1]);
      StoppedStays(Run(s, events[..|events| - 1]), id, reason, events[|events| - 1]);
      StepKeeps(Run(s, events[..|events| - 1]), events[|events| - 1]);
    }
  }

  // ------------------------------------------------------------ stages and outcomes

  /**
    In every run the stage shows where the flow is: queued until the work becomes active, then preparing,
    building exactly inside the compiler, and terminating exactly when an active work has been stopped.
   */
  lemma StageFollowsFlow(recordLimit: nat, activeLimit: nat, events: seq<Event>, id: nat)
    requires var s := Run(Init(recordLimit, activeLimit), events); id in s.preps && s.preps[id].Live?
    ensures var p := Run(Init(recordLimit, activeLimit), events).preps[id];
      && p.work.stage.Some?
      && (p.work.stage == Some(Queued) <==> p.phase.InQueue? || p.phase.HasSlot?)
      && (p.work.stage == Some(Building) ==> p.phase.InCompiler?)
      && (p.work.stage == Some(Preparing) ==> p.phase.Fetching? || p.phase.Compiled?)
      && (p.work.stage == Some(Terminating) ==> p.work.cancellation.Some?)
      && (p.active <==> !p.phase.InQueue?)
      && (p.work.compilation ==> p.phase.InCompiler?)
  {
    RunKeeps(recordLimit, activeLimit, events);
    SoundAt(Run(Init(recordLimit, activeLimit), events), id);
    hide Run, Init, Invariant;
  }

  /** A stop shows at once: the first reason is kept, and an active work is terminating from then on. */
  lemma StopShows(s: State, id: nat, reason: Outcome)
    requires id in s.preps && Free(s.preps[id]) && Sound(s.preps[id])
    ensures var w := s.preps[id].work; var r := Step(s, Stop(id, reason));
      && id in r.preps && r.preps[id].Live? && r.preps[id].phase == s.preps[id].phase
      && r.preps[id].work.cancellation == Some(if w.cancellation.Some? then w.cancellation.value else reason)
      && (w.cancellation.None? && w.stage != Some(Queued) ==> r.preps[id].work.stage == Some(Terminating))
      && r.preps[id].work.outcome == w.outcome
  {
    hide Transition;
  }

  /** How a dropped work is counted: its first reason to stop, else a panic, else the outcome last set. */
  lemma FateIsExact(s: State, id: nat, panicking: bool)
    requires id in s.preps && Free(s.preps[id])
    ensures var w := s.preps[id].work; var r := Step(Step(s, BeginDrop(id, panicking)), EndDrop(id));
      && id in r.fates && id in r.preps && r.preps[id] == Releasing(s.preps[id].active)
      && r.fates[id] == if w.cancellation.Some? then w.cancellation.value else if panicking then Panic else w.outcome
  {
    hide DropCompilation, DropWork;
  }

  /** The outcome of a live work is what was last set. */
  lemma OutcomeIsLastSet(s: State, e: Event, id: nat)
    requires id in s.preps && s.preps[id].Live? && id in Step(s, e).preps && Step(s, e).preps[id].Live?
    requires e.Submit? ==> id < s.next
    ensures Step(s, e).preps[id].work.outcome ==
      if e.SetOutcome? && e.id == id && Free(s.preps[id]) then e.outcome else s.preps[id].work.outcome
  {
    hide Transition, CountCompiling, Fate, Admitted, Refused, Submitted, Leave;
    if e.Submit? || e.id != id {
      OtherStep(s, id, e);
      hide Step;
    }
  }

  // ------------------------------------------------------------ every schedule finishes

  /** A step of this preparation that does something; stops and outcomes only decide how it ends. */
  predicate Works(s: State, e: Event, id: nat) {
    !e.Submit? && !e.Stop? && !e.SetOutcome? && e.id == id && Step(s, e) != s
  }

  /** How many steps a preparation may still take. */
  function StepsLeft(p: Prep): nat {
    match p
    case Waiting(record) => if record then 11 else 12
    case Live(_, _, phase, lock) =>
      (match lock
       case Starting => 7
       case Ending => 5
       case Dropping(_) => 3
       case Unlocked =>
         (match phase case InQueue => 10 case HasSlot => 9 case Fetching => 8 case InCompiler => 6 case Compiled => 4))
    case Releasing(active) => if active then 2 else 1
  }

  lemma LeftIsBounded(p: Prep)
    ensures 1 <= StepsLeft(p) <= 12
  {
  }

  function Left(s: State, id: nat): nat {
    if id in s.preps then StepsLeft(s.preps[id]) else 0
  }

  lemma OwnLeft(s: State, id: nat, e: Event)
    requires id in s.preps && Sound(s.preps[id]) && !e.Submit? && e.id == id
    ensures Left(Step(s, e), id) + (if Works(s, e, id) then 1 else 0) <= Left(s, id)
  {
    hide Activate, Terminate, StartCompiling, EndCompiling, CountCompiling, ReturnFromCompiling, DropCompilation;
    hide DropWork;
    hide Admitted, Refused, Submitted, Fate;
  }

  lemma LeftShrinks(s: State, id: nat, e: Event)
    requires Invariant(s) && id < s.next
    ensures Left(Step(s, e), id) + (if Works(s, e, id) then 1 else 0) <= Left(s, id)
  {
    if e.Submit? || e.id != id {
      OtherStep(s, id, e);
      hide Step, Invariant, StepsLeft;
    } else if id in s.preps {
      hide Step, Invariant, Works, Left;
      SoundAt(s, id);
      OwnLeft(s, id, e);
    } else {
      hide StepOf, Invariant, StepsLeft;
    }
  }

  /** A step a preparation can always take. */
  function NextStep(id: nat, p: Prep): Event {
    match p
    case Waiting(record) => if record then Admit(id) else Refuse(id)
    case Live(_, _, _, lock) =>
      (match lock
       case Unlocked => BeginDrop(id, false)
       case Starting => CountIt(id)
       case Ending => Return(id)
       case Dropping(_) => EndDrop(id))
    case Releasing(active) => if active then FreeActive(id) else FreeRecord(id)
  }

  lemma NeverStuck(s: State, id: nat)
    requires id in s.preps
    ensures Works(s, NextStep(id, s.preps[id]), id)
  {
    hide Activate, Terminate, StartCompiling, EndCompiling, CountCompiling, ReturnFromCompiling, DropCompilation;
    hide DropWork;
    hide Admitted, Refused, Submitted, Fate;
    var r := Step(s, NextStep(id, s.preps[id]));
    assert id !in r.preps || r.preps[id] != s.preps[id];
  }

  function Worked(s: State, events: seq<Event>, id: nat): nat {
    if events == [] then 0
    else
      var rest := events[..|events| - 1];
      Worked(s, rest, id) + if Works(Run(s, rest), events[|events| - 1], id) then 1 else 0
  }

  lemma {:induction false} WorkedOff(s: State, events: seq<Event>, id: nat)
    requires Invariant(s) && id < s.next
    ensures Invariant(Run(s, events)) && id < Run(s, events).next
    ensures Left(Run(s, events), id) + Worked(s, events, id) <= Left(s, id)
    decreases |events|
  {
    hide Invariant, Step, Works, Left;
    if events != [] {
      var rest, e := events[..|events| - 1], events[|events| - 1];
      WorkedOff(s, rest, id);
      StepKeeps(Run(s, rest), e);
      NextGrows(Run(s, rest), e);
      LeftShrinks(Run(s, rest), id, e);
    }
  }

  lemma {:induction false} RunJoins(s: State, a: seq<Event>, b: seq<Event>)
    ensures Run(s, a + b) == Run(Run(s, a), b)
    decreases |b|
  {
    hide Step;
    if b == [] {
      assert a + b == a;
    } else {
      RunJoins(s, a, b[..|b| - 1]);
      assert (a + b)[..|a + b| - 1] == a + b[..|b| - 1];
    }
  }

  /**
    Every preparation ends, however the system is scheduled: until it has, it can take a step, and
    after at most twelve of its own, whatever others do in between, it is gone with its permits.
   */
  lemma EveryPreparationEnds(recordLimit: nat, activeLimit: nat, before: seq<Event>, after: seq<Event>, id: nat)
    requires id in Run(Init(recordLimit, activeLimit), before).preps
    ensures var s := Run(Init(recordLimit, activeLimit), before);
      var r := Run(Init(recordLimit, activeLimit), before + after);
      && (id in r.preps ==> exists e :: Works(r, e, id))
      && Worked(s, after, id) <= Left(s, id) <= 12
      && (Worked(s, after, id) == Left(s, id) ==> id !in r.preps)
  {
    hide Run, Init, Invariant, Worked, Works, Step, StepsLeft;
    var s := Run(Init(recordLimit, activeLimit), before);
    RunKeeps(recordLimit, activeLimit, before);
    RunJoins(Init(recordLimit, activeLimit), before, after);
    var r := Run(Init(recordLimit, activeLimit), before + after);
    SoundAt(s, id);
    LeftIsBounded(s.preps[id]);
    WorkedOff(s, after, id);
    if id in r.preps {
      LeftIsBounded(r.preps[id]);
      NeverStuck(r, id);
    }
  }

  lemma Nothing(m: map<nat, Prep>)
    requires m == map[]
    ensures Count(m, IsWaiting) == Count(m, IsLive) == Count(m, AtQueued) == Count(m, AtPreparing) ==
      Count(m, AtBuilding) == 0
    ensures Count(m, AtTerminating) == Count(m, Counted) == Count(m, HoldsRecord) == Count(m, HoldsActive) == 0
  {
  }

  /** With no preparation left both semaphores are full, every gauge is zero and every admission has finished. */
  lemma IdleIsClean(recordLimit: nat, activeLimit: nat, events: seq<Event>)
    ensures var s := Run(Init(recordLimit, activeLimit), events);
      s.preps == map[] ==>
        && s.recordFree == recordLimit && s.activeFree == activeLimit
        && s.c.admitted == |s.c.finished| && s.c.queued == Active(s.c) == s.c.open == s.c.waiting == 0
  {
    PreparationIsExact(recordLimit, activeLimit, events);
    hide Init, Step;
    var s := Run(Init(recordLimit, activeLimit), events);
    hide Run;
    if s.preps == map[] {
      Nothing(s.preps);
    }
  }
}
