/** The host's registry of compiled components, bounded in number and in native bytes. */
module ModuleRegistry {
  import opened Basics
  import opened Counting
  import opened Totals

  datatype ModuleKey = ModuleKey(namespace: string, app: string, name: string)

  const MAX_COMPONENTS: nat := 32
  const MAX_NATIVE_BYTES: nat := 128 * 1024 * 1024

  datatype Refusal = DeadlineExpired | TooManyComponents | OverByteBudget

  /** `components` maps a key to the native size of what is registered under it. */
  datatype State = State(components: map<ModuleKey, nat>, nativeBytes: int)

  datatype Event = Register(key: ModuleKey, bytes: nat, late: bool) | Remove(key: ModuleKey)

  ghost predicate Valid(s: State) {
    && s.nativeBytes == Sum(s.components)
    && |s.components| <= MAX_COMPONENTS
    && s.nativeBytes <= MAX_NATIVE_BYTES
  }

  function Replaced(s: State, key: ModuleKey): nat {
    if key in s.components then s.components[key] else 0
  }

  /** Why a registration is refused, if it is. */
  function Refused(s: State, key: ModuleKey, bytes: nat, late: bool): Option<Refusal> {
    if late then Some(DeadlineExpired)
    else if key !in s.components && |s.components| >= MAX_COMPONENTS then Some(TooManyComponents)
    else if s.nativeBytes - Replaced(s, key) + bytes > MAX_NATIVE_BYTES then Some(OverByteBudget)
    else None
  }

  lemma GrowsByOne(m: map<ModuleKey, nat>, key: ModuleKey, bytes: nat)
    ensures |m[key := bytes]| == if key in m then |m| else |m| + 1
  {
  }

  class Registry {
    var components: map<ModuleKey, nat>
    var nativeBytes: nat

    ghost function Value(): State
      reads this
    {
      State(components, nativeBytes)
    }

    constructor ()
      ensures Value() == State(map[], 0) && Valid(Value())
    {
      components, nativeBytes := map[], 0;
    }

    /** No subtraction here can underflow, and a refusal changes nothing. */
    method Add(key: ModuleKey, bytes: nat, late: bool) returns (r: Result<(), Refusal>)
      requires Valid(Value())
      modifies this
      ensures Valid(Value())
      ensures r == match Refused(old(Value()), key, bytes, late) case None => Ok(()) case Some(why) => Err(why)
      ensures r == Err(DeadlineExpired) <==> late
      ensures r == Err(TooManyComponents) <==> !late && key !in old(components) && |old(components)| >= 32
      ensures r == Err(OverByteBudget) <==>
        && !late && (key in old(components) || |old(components)| < 32)
        && Sum(old(components) - {key}) + bytes > 134217728
      ensures r.Ok? ==> components == old(components)[key := bytes]
      ensures r.Err? ==> components == old(components) && nativeBytes == old(nativeBytes)
    {
      if late {
        return Err(DeadlineExpired);
      }
      var replaced := 0;
      if key in components {
        replaced := components[key];
        SumDrop(components, key);
      } else {
        assert components - {key} == components;
      }
      var retained: nat := nativeBytes - replaced + bytes;
      if !(key in components || |components| < MAX_COMPONENTS) {
        return Err(TooManyComponents);
      }
      if !(retained <= MAX_NATIVE_BYTES) {
        return Err(OverByteBudget);
      }
      SumPut(components, key, bytes);
      GrowsByOne(components, key, bytes);
      components := components[key := bytes];
      nativeBytes := retained;
      return Ok(());
    }

    method Drop(key: ModuleKey)
      requires Valid(Value())
      modifies this
      ensures Valid(Value()) && components == old(components) - {key}
    {
      if key in components {
        SumDrop(components, key);
        SubsetSize((components - {key}).Keys, components.Keys);
        assert |components - {key}| == |(components - {key}).Keys| && |components| == |components.Keys|;
        nativeBytes := nativeBytes - components[key];
        components := components - {key};
      } else {
        assert components - {key} == components;
      }
    }
  }

  // ------------------------------------------------------------ every history

  function Step(s: State, e: Event): State {
    match e
    case Register(key, bytes, late) =>
      if Refused(s, key, bytes, late).Some? then s
      else State(s.components[key := bytes], s.nativeBytes - Replaced(s, key) + bytes)
    case Remove(key) =>
      if key in s.components then State(s.components - {key}, s.nativeBytes - s.components[key]) else s
  }

  function Run(events: seq<Event>): State {
    if events == [] then State(map[], 0) else Step(Run(events[..|events| - 1]), events[|events| - 1])
  }

  lemma StepKeeps(s: State, e: Event)
    requires Valid(s)
    ensures Valid(Step(s, e))
  {
    if e.Register? {
      SumPut(s.components, e.key, e.bytes);
      GrowsByOne(s.components, e.key, e.bytes);
    } else if e.key in s.components {
      SubsetSize((s.components - {e.key}).Keys, s.components.Keys);
      assert |s.components - {e.key}| == |(s.components - {e.key}).Keys| && |s.components| == |s.components.Keys|;
    }
    if e.key in s.components {
      SumDrop(s.components, e.key);
    } else {
      assert s.components - {e.key} == s.components;
    }
  }

  /**
    After every history of registrations and evictions the byte count is the sum of what is
    registered, both budgets hold, and the next subtraction of any registered size cannot underflow.
   */
  lemma {:induction false} BudgetsHold(events: seq<Event>)
    ensures Valid(Run(events))
    ensures forall key :: key in Run(events).components ==> Run(events).components[key] <= Run(events).nativeBytes
    decreases |events|
  {
    if events != [] {
      BudgetsHold(events[..|events| - 1]);
      StepKeeps(Run(events[..|events| - 1]), events[|events| - 1]);
    }
    hide Run;
    var s := Run(events);
    forall key | key in s.components
      ensures s.components[key] <= s.nativeBytes
    {
      SumDrop(s.components, key);
    }
  }

  /** A registration in time within both budgets, its own old size not counted. */
  ghost predicate Acceptable(m: map<ModuleKey, nat>, key: ModuleKey, bytes: nat, late: bool) {
    !late && (key in m || |m| < 32) && Sum(m - {key}) + bytes <= 134217728
  }

  lemma StepIs(s: State, e: Event)
    requires Valid(s)
    ensures var m := s.components;
      Step(s, e).components ==
        if e.Remove? then m - {e.key}
        else if Acceptable(m, e.key, e.bytes, e.late) then m[e.key := e.bytes]
        else m
  {
    if e.key in s.components {
      SumDrop(s.components, e.key);
    } else {
      assert s.components - {e.key} == s.components;
    }
  }

  /** In every history a registration takes effect exactly when it is acceptable, and a removal always. */
  lemma RegistersExactly(events: seq<Event>, e: Event)
    ensures var m := Run(events).components;
      Run(events + [e]).components ==
        if e.Remove? then m - {e.key}
        else if Acceptable(m, e.key, e.bytes, e.late) then m[e.key := e.bytes]
        else m
  {
    BudgetsHold(events);
    assert (events + [e])[..|events|] == events;
    hide Run;
    StepIs(Run(events), e);
  }
}
