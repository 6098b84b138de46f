/** The server-side deadline of a Redis mutation: checked arithmetic, Lua numbers, and two clocks. */
module RedisDeadline {
  import opened Basics

  const U64_MAX: nat := 0xFFFF_FFFF_FFFF_FFFF
  const MICROS: nat := 1_000_000
  const EXACT: nat := 0x20_0000_0000_0000   // 2^53: below it every integer is a double

  // ------------------------------------------------------------ the host's arithmetic

  function CheckedMul(a: nat, b: nat): Option<nat> {
    if a * b <= U64_MAX then Some(a * b) else None
  }

  function CheckedAdd(a: nat, b: nat): Option<nat> {
    if a + b <= U64_MAX then Some(a + b) else None
  }

  function ThenAdd(a: Option<nat>, b: nat): Option<nat> {
    match a case None => None case Some(v) => CheckedAdd(v, b)
  }

  /** The deadline in server microseconds, from TIME's reply and the remaining budget in nanoseconds. */
  function BackendDeadline(seconds: nat, microseconds: nat, remainingNanos: nat): Option<nat> {
    var remaining := remainingNanos / 1000;
    if remaining > U64_MAX then None
    else
      match ThenAdd(ThenAdd(CheckedMul(seconds, MICROS), microseconds), remaining)
      case None => None
      case Some(deadline) => if microseconds < MICROS && deadline < EXACT then Some(deadline) else None
  }

  /** Accepted exactly when it fits, and then without any overflow on the way. */
  lemma DeadlineIsExact(seconds: nat, microseconds: nat, remainingNanos: nat)
    ensures BackendDeadline(seconds, microseconds, remainingNanos) ==
      var deadline := seconds * MICROS + microseconds + remainingNanos / 1000;
      if microseconds < MICROS && deadline <= EXACT - 1 then Some(deadline) else None
  {
  }

  // ------------------------------------------------------------ the script's arithmetic

  /** Rounding to a double, whatever the mode: exact up to 2^53, and nothing above falls below it. */
  type Rounding = r: int -> int |
    (forall x :: 0 <= x <= EXACT ==> r(x) == x) && (forall x :: x >= EXACT ==> r(x) >= EXACT)
    witness (x: int) => x

  /** The script's idea of now, each operation rounded. */
  function LuaNow(seconds: nat, microseconds: nat, round: Rounding): int {
    round(round(round(seconds) * MICROS) + round(microseconds))
  }

  predicate Accepts(seconds: nat, microseconds: nat, deadline: nat, round: Rounding) {
    !(LuaNow(seconds, microseconds, round) >= round(deadline))
  }

  /** For a deadline the host sends, the script compares exactly, at every server time. */
  lemma ScriptIsExact(seconds: nat, microseconds: nat, deadline: nat, round: Rounding)
    requires microseconds < MICROS && deadline < EXACT
    ensures Accepts(seconds, microseconds, deadline, round) <==> seconds * MICROS + microseconds < deadline
  {
  }

  // ------------------------------------------------------------ two clocks

  /** What TIME answers at an instant, given the server clock's offset: whole microseconds. */
  function ServerMicros(at: real, offset: real): int {
    (at + offset).Floor
  }

  /** The budget left at an instant, saturating, in whole nanoseconds. */
  function RemainingNanos(deadline: real, at: real): nat {
    if at >= deadline then 0 else ((deadline - at) * 1000.0).Floor
  }

  /**
    No late write. TIME is answered at `asked`, the budget is measured at `measured`, the script
    runs at `run`; both clocks advance at one rate and differ by any offset. If the script accepts,
    it runs strictly before the invocation's deadline, whatever the delays.
   */
  lemma NoLateWrite(asked: real, measured: real, run: real, offset: real, deadline: real, round: Rounding)
    requires asked <= measured && asked <= run
    requires ServerMicros(asked, offset) >= 0
    ensures var time, now := ServerMicros(asked, offset), ServerMicros(run, offset);
      var sent := BackendDeadline(time / MICROS, time % MICROS, RemainingNanos(deadline, measured));
      sent.Some? && now >= 0 && Accepts(now / MICROS, now % MICROS, sent.value, round) ==> run < deadline
  {
  }

  lemma OneMicro(deadline: real, at: real)
    requires deadline - at >= 1.0
    ensures RemainingNanos(deadline, at) / 1000 >= 1
  {
  }

  /** The bound is tight: with no delay at all the script is refused only within the last microsecond. */
  lemma PromptIsAccepted(at: real, offset: real, deadline: real, round: Rounding)
    requires ServerMicros(at, offset) >= 0 && deadline - at >= 1.0
    requires var time := ServerMicros(at, offset); time + RemainingNanos(deadline, at) / 1000 < EXACT
    ensures var time := ServerMicros(at, offset);
      var sent := BackendDeadline(time / MICROS, time % MICROS, RemainingNanos(deadline, at));
      sent.Some? && Accepts(time / MICROS, time % MICROS, sent.value, round)
  {
    var time, nanos := ServerMicros(at, offset), RemainingNanos(deadline, at);
    DeadlineIsExact(time / MICROS, time % MICROS, nanos);
    OneMicro(deadline, at);
    hide RemainingNanos, BackendDeadline, Accepts;
    ScriptIsExact(time / MICROS, time % MICROS, time + nanos / 1000, round);
  }
}
