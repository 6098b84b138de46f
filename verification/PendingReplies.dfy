/** The gateway's correlation of requests with replies: bounded, single-use ids over sessions that retire. */
module PendingReplies {
  import opened Basics
  import opened Counting

  type Payload = seq<bv8>

  datatype RequestError = Unavailable | Failed

  datatype Reply = Delivered(payload: Payload) | Rejected

  const ID_LIMIT: nat := 0xFFFF_FFFF_FFFF_FFFF   // the largest 64-bit id

  /** One session's table: id to the waiter holding the receiving end. */
  datatype Pending = Pending(capacity: nat, nextId: nat, retired: bool, replies: map<nat, nat>)

  function New(capacity: nat): Pending {
    Pending(capacity, 0, false, map[])
  }

  predicate Refuses(p: Pending) {
    p.retired || |p.replies| >= p.capacity
  }

  function Reserved(p: Pending, waiter: nat): (Pending, Result<nat, RequestError>) {
    if Refuses(p) then (p, Err(Unavailable))
    else if p.nextId >= ID_LIMIT then (p, Err(Failed))
    else (p.(nextId := p.nextId + 1, replies := p.replies[p.nextId := waiter]), Ok(p.nextId))
  }

  function Removed(p: Pending, id: nat): (Pending, Option<nat>) {
    if id in p.replies then (p.(replies := p.replies - {id}), Some(p.replies[id])) else (p, None)
  }

  function Retired(p: Pending): Pending {
    p.(retired := true, replies := map[])
  }

  /** Pending ids were issued, fit the capacity, and a retired table is empty. */
  ghost predicate Valid(p: Pending) {
    && (forall id :: id in p.replies ==> id < p.nextId)
    && |p.replies| <= p.capacity
    && p.nextId <= ID_LIMIT
    && (p.retired ==> p.replies == map[])
  }

  lemma GrowsByOne(m: map<nat, nat>, k: nat, v: nat)
    requires k !in m
    ensures |m[k := v]| == |m| + 1
  {
  }

  lemma ShrinksByOne(m: map<nat, nat>, k: nat)
    requires k in m
    ensures |m - {k}| == |m| - 1
  {
  }

  class PendingTable {
    const capacity: nat
    var nextId: nat
    var retired: bool
    var replies: map<nat, nat>

    ghost function Value(): Pending
      reads this
    {
      Pending(capacity, nextId, retired, replies)
    }

    constructor (capacity: nat)
      ensures Value() == New(capacity) && Valid(Value())
    {
      this.capacity := capacity;
      nextId, retired, replies := 0, false, map[];
    }

    method Reserve(waiter: nat) returns (r: Result<nat, RequestError>)
      requires Valid(Value())
      modifies `nextId, `replies
      ensures Valid(Value()) && (Value(), r) == Reserved(old(Value()), waiter)
      ensures r == Err(Unavailable) <==> old(retired) || |old(replies)| >= capacity
      ensures r == Err(Failed) <==> !old(retired) && |old(replies)| < capacity && old(nextId) == ID_LIMIT
      ensures r.Ok? ==>
        && r.value !in old(replies) && r.value == old(nextId) && nextId == old(nextId) + 1
        && replies == old(replies)[r.value := waiter]
      ensures r.Err? ==> nextId == old(nextId) && replies == old(replies)
    {
      if retired || |replies| >= capacity {
        return Err(Unavailable);
      }
      var id := nextId;
      if nextId >= ID_LIMIT {
        return Err(Failed);
      }
      GrowsByOne(replies, id, waiter);
      nextId := id + 1;
      replies := replies[id := waiter];
      return Ok(id);
    }

    method Remove(id: nat) returns (r: Option<nat>)
      requires Valid(Value())
      modifies `replies
      ensures Valid(Value()) && (Value(), r) == Removed(old(Value()), id) && id !in replies
      ensures replies == old(replies) - {id} && r == if id in old(replies) then Some(old(replies)[id]) else None
    {
      if id !in replies {
        return None;
      }
      ShrinksByOne(replies, id);
      r := Some(replies[id]);
      replies := replies - {id};
    }

    /** True when somebody was waiting and still listens. */
    method Deliver(id: nat, listening: set<nat>) returns (sent: bool)
      requires Valid(Value())
      modifies `replies
      ensures Valid(Value()) && Value() == Removed(old(Value()), id).0
      ensures sent <==> id in old(replies) && old(replies)[id] in listening
    {
      var sender := Remove(id);
      sent := sender.Some? && sender.value in listening;
    }

    /** No id is pending any more, and every later reservation is refused. */
    method Retire()
      requires Valid(Value())
      modifies `retired, `replies
      ensures Valid(Value()) && retired && (forall id :: id !in replies) && nextId == old(nextId)
      ensures Value() == Retired(old(Value()))
    {
      retired := true;
      replies := map[];
    }
  }

  // ------------------------------------------------------------ the gateway over many sessions

  /** A reply as it arrived: the session prefix and id in its subject. */
  datatype Letter = Letter(session: nat, id: nat, reply: Reply)

  /** One reservation: where it was made, its id, what its receiver got, whether it still listens. */
  datatype Waiter = Waiter(session: nat, id: nat, inbox: seq<Letter>, listening: bool)

  /** `current` is the session whose subscription is being read. */
  datatype World = World(tables: seq<Pending>, waiters: seq<Waiter>, current: Option<nat>)

  datatype Event =
    | Open(capacity: nat)
    | Close
    | Reserve(session: nat)
    | Arrive(session: nat, id: Option<nat>, reply: Reply)
    | Forget(waiter: nat)
    | HangUp(waiter: nat)

  function Receive(w: Waiter, l: Letter): Waiter {
    if w.listening then w.(inbox := w.inbox + [l]) else w
  }

  function Step(w: World, e: Event): World {
    match e
    case Open(capacity) =>
      if w.current.Some? then w else w.(tables := w.tables + [New(capacity)], current := Some(|w.tables|))
    case Close =>
      if w.current.None? || w.current.value >= |w.tables| then w
      else w.(tables := w.tables[w.current.value := Retired(w.tables[w.current.value])], current := None)
    case Reserve(k) =>
      if k >= |w.tables| then w
      else
        var (p, r) := Reserved(w.tables[k], |w.waiters|);
        if r.Err? then w
        else w.(tables := w.tables[k := p], waiters := w.waiters + [Waiter(k, r.value, [], true)])
    case Arrive(session, id, reply) =>
      // only the current subscription is read, only its own prefix is recognised, only a number is an id
      if w.current != Some(session) || session >= |w.tables| || id.None? then w
      else
        var (p, sender) := Removed(w.tables[session], id.value);
        var t := w.(tables := w.tables[session := p]);
        if sender.None? || sender.value >= |w.waiters| then t
        else
          t.(waiters := w.waiters[sender.value := Receive(w.waiters[sender.value], Letter(session, id.value, reply))])
    case Forget(i) =>
      if i >= |w.waiters| || w.waiters[i].session >= |w.tables| then w
      else w.(tables := w.tables[w.waiters[i].session := Removed(w.tables[w.waiters[i].session], w.waiters[i].id).0])
    case HangUp(i) =>
      if i >= |w.waiters| then w else w.(waiters := w.waiters[i := w.waiters[i].(listening := false)])
  }

  function Run(events: seq<Event>): World {
    if events == [] then World([], [], None) else Step(Run(events[..|events| - 1]), events[|events| - 1])
  }

  // ------------------------------------------------------------ what every run keeps

  /** Whether a waiter's sender is still in its session's table. */
  ghost predicate Held(w: World, i: nat) {
    && i < |w.waiters| && w.waiters[i].session < |w.tables|
    && w.waiters[i].id in w.tables[w.waiters[i].session].replies
  }

  ghost predicate Tables(tables: seq<Pending>, current: Option<nat>) {
    && (forall k :: 0 <= k < |tables| ==> Valid(tables[k]) && (tables[k].retired <==> current != Some(k)))
    && (current.Some? ==> current.value < |tables|)
  }

  /** Each pending id points back to the one waiter it was issued to. */
  ghost predicate Linked(tables: seq<Pending>, waiters: seq<Waiter>) {
    forall k, id :: 0 <= k < |tables| && id in tables[k].replies ==>
      && tables[k].replies[id] < |waiters|
      && waiters[tables[k].replies[id]].session == k && waiters[tables[k].replies[id]].id == id
  }

  ghost predicate Issued(tables: seq<Pending>, waiters: seq<Waiter>) {
    && (forall i :: 0 <= i < |waiters| ==>
         waiters[i].session < |tables| && waiters[i].id < tables[waiters[i].session].nextId)
    && (forall i, j :: 0 <= i < j < |waiters| && waiters[i].session == waiters[j].session ==>
         waiters[i].id != waiters[j].id)
  }

  ghost predicate Single(tables: seq<Pending>, w: Waiter) {
    && |w.inbox| <= 1
    && (forall l :: l in w.inbox ==> l.session == w.session && l.id == w.id)
    && (w.session < |tables| && w.id in tables[w.session].replies ==> w.inbox == [])
  }

  ghost predicate AllSingle(tables: seq<Pending>, waiters: seq<Waiter>) {
    forall i :: 0 <= i < |waiters| ==> Single(tables, waiters[i])
  }

  ghost predicate Invariant(w: World) {
    && Tables(w.tables, w.current)
    && Linked(w.tables, w.waiters)
    && Issued(w.tables, w.waiters)
    && AllSingle(w.tables, w.waiters)
  }

  lemma ReservedValid(p: Pending, waiter: nat)
    requires Valid(p) && !Refuses(p) && p.nextId < ID_LIMIT
    ensures Valid(Reserved(p, waiter).0) && Reserved(p, waiter).0.retired == p.retired
  {
  }

  lemma ReservedLinked(tables: seq<Pending>, waiters: seq<Waiter>, k: nat)
    requires Linked(tables, waiters) && k < |tables| && !Refuses(tables[k]) && tables[k].nextId < ID_LIMIT
    ensures Linked(tables[k := Reserved(tables[k], |waiters|).0], waiters + [Waiter(k, tables[k].nextId, [], true)])
  {
  }

  lemma ReservedIssued(tables: seq<Pending>, waiters: seq<Waiter>, k: nat)
    requires Issued(tables, waiters) && k < |tables| && !Refuses(tables[k]) && tables[k].nextId < ID_LIMIT
    ensures Issued(tables[k := Reserved(tables[k], |waiters|).0], waiters + [Waiter(k, tables[k].nextId, [], true)])
  {
  }

  lemma ReservedSingle(tables: seq<Pending>, waiters: seq<Waiter>, k: nat)
    requires AllSingle(tables, waiters) && Issued(tables, waiters) && k < |tables| && !Refuses(tables[k])
      && tables[k].nextId < ID_LIMIT
    ensures AllSingle(tables[k := Reserved(tables[k], |waiters|).0], waiters + [Waiter(k, tables[k].nextId, [], true)])
  {
  }

  lemma ReserveKeeps(w: World, k: nat)
    requires Invariant(w)
    ensures Invariant(Step(w, Reserve(k)))
  {
    if k < |w.tables| && !Refuses(w.tables[k]) && w.tables[k].nextId < ID_LIMIT {
      ReservedValid(w.tables[k], |w.waiters|);
      hide Valid, Linked, Issued, AllSingle;
      ReservedLinked(w.tables, w.waiters, k);
      ReservedIssued(w.tables, w.waiters, k);
      ReservedSingle(w.tables, w.waiters, k);
    }
  }

  lemma RemovedValid(p: Pending, id: nat)
    requires Valid(p)
    ensures Valid(Removed(p, id).0) && Removed(p, id).0.retired == p.retired && id !in Removed(p, id).0.replies
  {
  }

  lemma RemovedTables(tables: seq<Pending>, current: Option<nat>, k: nat, id: nat)
    requires Tables(tables, current) && k < |tables|
    ensures Tables(tables[k := Removed(tables[k], id).0], current)
  {
    RemovedValid(tables[k], id);
    hide Valid;
  }

  lemma RemovedLinked(tables: seq<Pending>, waiters: seq<Waiter>, k: nat, id: nat)
    requires Linked(tables, waiters) && k < |tables|
    ensures Linked(tables[k := Removed(tables[k], id).0], waiters)
  {
  }

  lemma RemovedSingle(tables: seq<Pending>, waiters: seq<Waiter>, k: nat, id: nat)
    requires AllSingle(tables, waiters) && Issued(tables, waiters) && k < |tables|
    ensures AllSingle(tables[k := Removed(tables[k], id).0], waiters)
      && Issued(tables[k := Removed(tables[k], id).0], waiters)
  {
  }

  lemma RemoveKeeps(w: World, k: nat, id: nat)
    requires Invariant(w) && k < |w.tables|
    ensures Invariant(w.(tables := w.tables[k := Removed(w.tables[k], id).0]))
    ensures id !in Removed(w.tables[k], id).0.replies
  {
    hide Linked, Issued, AllSingle;
    RemovedTables(w.tables, w.current, k, id);
    RemovedLinked(w.tables, w.waiters, k, id);
    RemovedSingle(w.tables, w.waiters, k, id);
    hide Tables;
  }

  lemma ReceiveKeeps(w: World, i: nat, reply: Reply)
    requires Invariant(w) && i < |w.waiters|
    requires w.waiters[i].session < |w.tables| && w.waiters[i].id !in w.tables[w.waiters[i].session].replies
      && w.waiters[i].inbox == []
    ensures var letter := Letter(w.waiters[i].session, w.waiters[i].id, reply);
      Invariant(w.(waiters := w.waiters[i := Receive(w.waiters[i], letter)]))
  {
    hide Tables;
  }

  lemma OpenKeeps(w: World, capacity: nat)
    requires Invariant(w)
    ensures Invariant(Step(w, Open(capacity)))
  {
  }

  lemma CloseKeeps(w: World)
    requires Invariant(w)
    ensures Invariant(Step(w, Close))
  {
    if w.current.Some? {
      var k := w.current.value;
      var ts := w.tables[k := Retired(w.tables[k])];
      assert Tables(ts, None);
      forall i | 0 <= i < |w.waiters|
        ensures Single(ts, w.waiters[i])
      {
        assert Single(w.tables, w.waiters[i]);
      }
    }
  }

  lemma HangUpKeeps(w: World, i: nat)
    requires Invariant(w)
    ensures Invariant(Step(w, HangUp(i)))
  {
    hide Tables;
    if i < |w.waiters| {
      assert Single(w.tables, w.waiters[i]);
    }
  }

  lemma ArriveKeeps(w: World, session: nat, id: Option<nat>, reply: Reply)
    requires Invariant(w)
    ensures Invariant(Step(w, Arrive(session, id, reply)))
  {
    if w.current == Some(session) && id.Some? {
      RemoveKeeps(w, session, id.value);
      if id.value in w.tables[session].replies {
        var t := w.(tables := w.tables[session := Removed(w.tables[session], id.value).0]);
        var i := w.tables[session].replies[id.value];
        assert Single(w.tables, w.waiters[i]);
        hide Invariant, Removed;
        ReceiveKeeps(t, i, reply);
      }
    }
  }

  lemma StepKeeps(w: World, e: Event)
    requires Invariant(w)
    ensures Invariant(Step(w, e))
  {
    match e
    case Open(capacity) => OpenKeeps(w, capacity);
    case Close => CloseKeeps(w);
    case Reserve(k) => ReserveKeeps(w, k);
    case Arrive(session, id, reply) => ArriveKeeps(w, session, id, reply);
    case Forget(i) =>
      hide Invariant;
      if i < |w.waiters| && w.waiters[i].session < |w.tables| { RemoveKeeps(w, w.waiters[i].session, w.waiters[i].id); }
    case HangUp(i) => HangUpKeeps(w, i);
  }

  lemma StartHolds()
    ensures Invariant(World([], [], None))
  {
  }

  lemma {:induction false} RunKeeps(events: seq<Event>)
    ensures Invariant(Run(events))
    decreases |events|
  {
    hide Invariant, Step;
    if events == [] {
      assert Invariant(World([], [], None)) by { StartHolds(); }
    } else {
      RunKeeps(events[..|events| - 1]);
      StepKeeps(Run(events[..|events| - 1]), events[|events| - 1]);
    }
  }

  // ------------------------------------------------------------ theorems

  /**
    Single-use replies, over every run: pending ids were issued and fit the capacity; no id is
    issued twice in a session; a waiter receives at most one reply, addressed to its own session
    and id; every session but the current one is retired and empty.
   */
  lemma RepliesAreSingleUse(events: seq<Event>)
    ensures var w := Run(events);
      && (forall k :: 0 <= k < |w.tables| ==> |w.tables[k].replies| <= w.tables[k].capacity)
      && (forall k, id :: 0 <= k < |w.tables| && id in w.tables[k].replies ==> id < w.tables[k].nextId <= ID_LIMIT)
      && (forall i, j :: 0 <= i < j < |w.waiters| && w.waiters[i].session == w.waiters[j].session ==>
           w.waiters[i].id != w.waiters[j].id)
      && (forall i :: 0 <= i < |w.waiters| ==> |w.waiters[i].inbox| <= 1)
      && (forall i, l :: 0 <= i < |w.waiters| && l in w.waiters[i].inbox ==>
           l.session == w.waiters[i].session && l.id == w.waiters[i].id)
      && (forall k :: 0 <= k < |w.tables| && w.current != Some(k) ==>
           w.tables[k].retired && w.tables[k].replies == map[])
  {
    RunKeeps(events);
    hide Run;
    var w := Run(events);
    forall i | 0 <= i < |w.waiters|
      ensures |w.waiters[i].inbox| <= 1
        && forall l :: l in w.waiters[i].inbox ==> l.session == w.waiters[i].session && l.id == w.waiters[i].id
    {
      assert Single(w.tables, w.waiters[i]);
    }
  }

  /** A waiter whose sender is gone: answered, forgotten, or retired with its session. */
  ghost predicate Settled(w: World, i: nat) {
    i < |w.waiters| && !Held(w, i)
  }

  lemma SettledReserve(w: World, i: nat, k: nat)
    requires Invariant(w) && Settled(w, i)
    ensures Settled(Step(w, Reserve(k)), i) && Step(w, Reserve(k)).waiters[i] == w.waiters[i]
  {
  }

  /** The waiter a reply reaches still has its sender, so it is not a settled one. */
  lemma SettledArrive(w: World, i: nat, session: nat, id: Option<nat>, reply: Reply)
    requires Invariant(w) && Settled(w, i)
    ensures var r := Step(w, Arrive(session, id, reply)); Settled(r, i) && r.waiters[i].inbox == w.waiters[i].inbox
  {
    hide Tables, Issued, AllSingle;
    if w.current == Some(session) && session < |w.tables| && id.Some? && id.value in w.tables[session].replies {
      var j := w.tables[session].replies[id.value];
      assert w.waiters[j].session == session && w.waiters[j].id == id.value;
      assert Held(w, j) && j != i;
    }
  }

  lemma SettledStays(w: World, i: nat, e: Event)
    requires Invariant(w) && Settled(w, i)
    ensures Settled(Step(w, e), i) && Step(w, e).waiters[i].inbox == w.waiters[i].inbox
  {
    match e
    case Reserve(k) => SettledReserve(w, i, k);
    case Arrive(session, id, reply) => SettledArrive(w, i, session, id, reply);
    case _ => assert w.waiters[i].session < |w.tables|; hide Invariant;
  }

  /** Late replies reach nobody: once its sender is gone a waiter's inbox never changes, in any continuation. */
  lemma {:induction false} LateRepliesAreLost(before: seq<Event>, after: seq<Event>, i: nat)
    requires Settled(Run(before), i)
    ensures Settled(Run(before + after), i) && Run(before + after).waiters[i].inbox == Run(before).waiters[i].inbox
    decreases |after|
  {
    hide Step, Settled;
    if after == [] {
      assert before + after == before;
    } else {
      var rest := after[..|after| - 1];
      LateRepliesAreLost(before, rest, i);
      assert (before + after)[..|before + after| - 1] == before + rest;
      RunKeeps(before + rest);
      SettledStays(Run(before + rest), i, after[|after| - 1]);
    }
  }

  lemma RunLast(events: seq<Event>)
    requires events != []
    ensures Run(events) == Step(Run(events[..|events| - 1]), events[|events| - 1])
  {
  }

  lemma RetiredEmpty(w: World, k: nat)
    requires Invariant(w) && k < |w.tables| && w.tables[k].retired
    ensures w.tables[k].replies == map[]
  {
    hide Linked, Issued, AllSingle;
  }

  lemma RetiredStep(w: World, k: nat, e: Event)
    requires Invariant(w) && k < |w.tables| && w.tables[k].retired
    ensures k < |Step(w, e).tables| && Step(w, e).tables[k] == w.tables[k]
  {
    assert w.current != Some(k);
    RetiredEmpty(w, k);
    hide Invariant, Tables, Linked, Issued, AllSingle, Valid;
  }

  /** A retired session accepts nothing: no reservation, no delivery, for good. */
  lemma RetiredStaysRetired(before: seq<Event>, after: seq<Event>, k: nat)
    requires k < |Run(before).tables| && Run(before).tables[k].retired
    ensures k < |Run(before + after).tables| && Run(before + after).tables[k] == Run(before).tables[k]
    ensures Run(before).tables[k].replies == map[]
    decreases |after|
  {
    hide Run, Step;
    RunKeeps(before);
    RetiredEmpty(Run(before), k);
    if after == [] {
      assert before + after == before;
    } else {
      hide Invariant;
      var rest := after[..|after| - 1];
      RetiredStaysRetired(before, rest, k);
      assert (before + after)[..|before + after| - 1] == before + rest;
      RunKeeps(before + rest);
      RetiredStep(Run(before + rest), k, after[|after| - 1]);
      RunLast(before + after);
    }
  }

  lemma OwnWaiter(w: World, i: nat)
    requires Invariant(w) && Held(w, i)
    ensures w.tables[w.waiters[i].session].replies[w.waiters[i].id] == i
  {
    var s, id := w.waiters[i].session, w.waiters[i].id;
    var j := w.tables[s].replies[id];
    assert w.waiters[j].session == s && w.waiters[j].id == id;
  }

  lemma ArriveSettles(w: World, i: nat, reply: Reply)
    requires Invariant(w) && Held(w, i) && w.current == Some(w.waiters[i].session)
    ensures var s, id := w.waiters[i].session, w.waiters[i].id; var r := Step(w, Arrive(s, Some(id), reply));
      && |r.waiters| == |w.waiters| && !Held(r, i)
      && r.waiters[i].inbox == (if w.waiters[i].listening then [Letter(s, id, reply)] else [])
      && (forall j :: 0 <= j < |w.waiters| && j != i ==> r.waiters[j] == w.waiters[j] && (Held(r, j) <==> Held(w, j)))
  {
    assert Single(w.tables, w.waiters[i]);
    OwnWaiter(w, i);
    hide Tables, Linked, AllSingle, Valid;
  }

  /** In the current session, a reply to a pending id reaches its waiter, if it still listens, and settles it. */
  lemma ReplyReachesItsWaiter(events: seq<Event>, i: nat, reply: Reply)
    requires Held(Run(events), i) && Run(events).current == Some(Run(events).waiters[i].session)
    ensures var w := Run(events); var s, id := w.waiters[i].session, w.waiters[i].id;
      var r := Run(events + [Arrive(s, Some(id), reply)]);
      && |r.waiters| == |w.waiters| && !Held(r, i)
      && r.waiters[i].inbox == (if w.waiters[i].listening then [Letter(s, id, reply)] else [])
      && (forall j :: 0 <= j < |w.waiters| && j != i ==> r.waiters[j] == w.waiters[j] && (Held(r, j) <==> Held(w, j)))
  {
    RunKeeps(events);
    var w := Run(events);
    var e := Arrive(w.waiters[i].session, Some(w.waiters[i].id), reply);
    assert (events + [e])[..|events|] == events;
    assert Run(events + [e]) == Step(w, e);
    hide Run;
    ArriveSettles(w, i, reply);
  }
}
