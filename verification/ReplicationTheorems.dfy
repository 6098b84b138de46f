/** Convergence of execution hosts to the store, and exactly when a missed broadcast breaks it. */
module ReplicationTheorems {
  import opened Basics
  import opened HostConfig
  import Channels = ConfigStore
  import opened ConfigStore
  import opened Replication

  ghost predicate UniqueThroughout(w: World, actions: seq<Action>) {
    forall k :: 0 <= k <= |actions| ==> UniqueTopics(Execute(w, actions[..k]).configs)
  }

  lemma UniquePrefix(w: World, actions: seq<Action>)
    requires actions != [] && UniqueThroughout(w, actions)
    ensures UniqueThroughout(w, actions[..|actions| - 1]) && UniqueTopics(Execute(w, actions).configs)
  {
    var rest := actions[..|actions| - 1];
    assert actions[..|actions|] == actions;
    forall k | 0 <= k <= |rest|
      ensures UniqueTopics(Execute(w, rest[..k]).configs)
    {
      assert rest[..k] == actions[..k];
    }
  }

  lemma StartHolds()
    ensures Base(Start()) && AllAligned(Start())
  {
  }

  lemma {:induction false} ExecuteKeeps(w: World, actions: seq<Action>)
    requires Base(w) && AllAligned(w) && UniqueThroughout(w, actions)
    ensures Base(Execute(w, actions)) && AllAligned(Execute(w, actions))
    decreases |actions|
  {
    hide Base, AllAligned, Act;
    if actions != [] {
      UniquePrefix(w, actions);
      var rest := actions[..|actions| - 1];
      ExecuteKeeps(w, rest);
      BaseKeeps(Execute(w, rest), actions[|actions| - 1]);
      AllAlignedKeeps(Execute(w, rest), actions[|actions| - 1]);
    }
  }

  /** Everything broadcast has been applied and nothing is waiting to be broadcast. */
  ghost predicate CaughtUp(w: World, n: nat) {
    n in w.sessions && w.pending.None? && Position(w.sessions[n], w.bus.channels) == |w.bus.log|
  }

  /** The registry a full apply of the store would give, in whatever order. */
  ghost predicate Correct(w: World, n: nat) {
    n in w.sessions && forall apps :: Lists(apps, w.configs) ==> w.sessions[n].registry == Full(apps)
  }

  lemma CorrectIfRegistry(w: World, n: nat)
    requires UniqueTopics(w.configs) && n in w.sessions && IsRegistry(w.sessions[n].registry, w.configs)
    ensures Correct(w, n)
  {
    forall apps | Lists(apps, w.configs)
      ensures w.sessions[n].registry == Full(apps)
    {
      FullIsRegistry(apps, w.configs);
      RegistryIsUnique(w.sessions[n].registry, Full(apps), w.configs);
    }
  }

  /**
    Convergence. A session that missed no broadcast holds, at every number of applied updates, the
    registry of the published prefix it has applied or of the one update more its snapshot already
    had; once caught up it holds exactly what a full apply of the store gives.
   */
  lemma ReplicationConverges(actions: seq<Action>, n: nat)
    requires UniqueThroughout(Start(), actions)
    ensures var w := Execute(Start(), actions);
      n in w.sessions && NoGap(w, n) ==>
        && Aligned(w, n)
        && (CaughtUp(w, n) ==> Correct(w, n))
  {
    StartHolds();
    ExecuteKeeps(Start(), actions);
    var w := Execute(Start(), actions);
    hide Execute, Start;
    if n in w.sessions && NoGap(w, n) && CaughtUp(w, n) {
      assert w.bus.log[..|w.bus.log|] == w.bus.log;
      CorrectIfRegistry(w, n);
    }
  }

  // ------------------------------------------------------------ catching up

  lemma {:induction false} ExecuteJoins(w: World, a: seq<Action>, b: seq<Action>)
    ensures Execute(w, a + b) == Execute(Execute(w, a), b)
    decreases |b|
  {
    hide Act;
    if b == [] {
      assert a + b == a;
    } else {
      ExecuteJoins(w, a, b[..|b| - 1]);
      assert (a + b)[..|a + b| - 1] == a + b[..|b| - 1];
    }
  }

  /** The session reads a channel that a host is still registered on. */
  ghost predicate Listens(w: World, n: nat, host: HostId) {
    n in w.sessions && w.sessions[n].channel.Some? && host in w.bus.hosts
      && w.bus.hosts[host] == w.sessions[n].channel.value
  }

  function Waiting(w: World, n: nat): nat {
    if n in w.sessions && w.sessions[n].channel.Some? && w.sessions[n].channel.value < |w.bus.channels|
    then |w.bus.channels[w.sessions[n].channel.value].buffer| else 0
  }

  // ------------------------------------------------------------ every schedule catches up

  /** Sessions read channels of their own. */
  ghost predicate Separate(sessions: map<nat, Session>, channels: nat) {
    && (forall n :: n in sessions && sessions[n].channel.Some? ==> sessions[n].channel.value < channels)
    && (forall a, b :: a in sessions && b in sessions && a != b && sessions[a].channel.Some? ==>
          sessions[a].channel != sessions[b].channel)
  }

  ghost predicate Wired(w: World) {
    Channels.Invariant(w.bus) && Separate(w.sessions, |w.bus.channels|)
  }

  lemma WiredKeeps(w: World, a: Action)
    requires Wired(w)
    ensures Wired(Act(w, a))
  {
    hide Channels.Invariant, AfterBroadcast, Clashes, ApplyAll, Full, Lists;
    match a
    case Publish => if w.pending.Some? { Channels.StepKeeps(w.bus, Broadcast(w.pending.value)); }
    case Connect(_, host) => Channels.StepKeeps(w.bus, Register(host));
    case Disconnect(host) => Channels.StepKeeps(w.bus, Deregister(host));
    case Deliver(session) =>
      if session in w.sessions && w.sessions[session].channel.Some? {
        Channels.StepKeeps(w.bus, Receive(w.sessions[session].channel.value));
      }
    case _ =>
  }

  lemma {:induction false} WiredThroughout(w: World, actions: seq<Action>)
    requires Wired(w)
    ensures Wired(Execute(w, actions))
    decreases |actions|
  {
    hide Wired, Act;
    if actions != [] {
      WiredThroughout(w, actions[..|actions| - 1]);
      WiredKeeps(Execute(w, actions[..|actions| - 1]), actions[|actions| - 1]);
    }
  }

  /** Written or broadcast, and not yet applied by the session. */
  function Backlog(w: World, n: nat): int
    requires n in w.sessions
  {
    |w.bus.log| - Position(w.sessions[n], w.bus.channels) + if w.pending.Some? then 1 else 0
  }

  ghost predicate Writes(w: World, a: Action) {
    w.pending.None? && Act(w, a).pending.Some?
  }

  ghost predicate Delivers(w: World, a: Action, n: nat) {
    a == Deliver(n) && Waiting(w, n) > 0
  }

  ghost function WriteCount(w: World, actions: seq<Action>): nat {
    if actions == [] then 0
    else
      var rest := actions[..|actions| - 1];
      WriteCount(w, rest) + if Writes(Execute(w, rest), actions[|actions| - 1]) then 1 else 0
  }

  ghost function DeliveryCount(w: World, actions: seq<Action>, n: nat): nat {
    if actions == [] then 0
    else
      var rest := actions[..|actions| - 1];
      DeliveryCount(w, rest, n) + if Delivers(Execute(w, rest), actions[|actions| - 1], n) then 1 else 0
  }

  predicate Reads(w: World, n: nat) {
    n in w.sessions && w.sessions[n].channel.Some?
  }

  lemma PositionMoves(w: World, a: Action, n: nat)
    requires Wired(w) && Reads(w, n)
    ensures var r := Act(w, a);
      && Reads(r, n)
      && Position(r.sessions[n], r.bus.channels) ==
           Position(w.sessions[n], w.bus.channels) + (if Delivers(w, a, n) then 1 else 0)
  {
    hide Channels.Invariant, Clashes, ApplyAll, Full, Lists;
  }

  lemma LogMoves(w: World, a: Action)
    ensures var r := Act(w, a); var was, now := if w.pending.Some? then 1 else 0, if r.pending.Some? then 1 else 0;
      |r.bus.log| + now == |w.bus.log| + was + (if Writes(w, a) then 1 else 0)
  {
    hide AfterBroadcast, Clashes, ApplyAll, Full, Lists;
  }

  lemma {:induction false} BacklogMoves(w: World, actions: seq<Action>, n: nat)
    requires Wired(w) && Reads(w, n)
    ensures var r := Execute(w, actions);
      Reads(r, n) && Backlog(r, n) + DeliveryCount(w, actions, n) == Backlog(w, n) + WriteCount(w, actions)
    decreases |actions|
  {
    hide Wired, Act, Delivers, Writes, Position;
    if actions != [] {
      var rest, a := actions[..|actions| - 1], actions[|actions| - 1];
      BacklogMoves(w, rest, n);
      WiredThroughout(w, rest);
      PositionMoves(Execute(w, rest), a, n);
      LogMoves(Execute(w, rest), a);
    }
  }

  lemma BacklogWaits(w: World, n: nat, host: HostId)
    requires Wired(w) && Listens(w, n, host)
    ensures Backlog(w, n) == Waiting(w, n) + if w.pending.Some? then 1 else 0
  {
  }

  lemma BacklogIsBehind(w: World, n: nat)
    requires Wired(w) && Reads(w, n)
    ensures Backlog(w, n) >= 0 && (CaughtUp(w, n) <==> Backlog(w, n) == 0)
  {
  }

  /**
    Every schedule catches up. Once a session reads a channel, whatever happens, what it is behind by
    plus what it has applied is what it was behind by plus what was written; it is caught up exactly
    when that is nothing; and until then, while its host is registered, there is an update to deliver
    to it or to broadcast.
   */
  lemma BacklogIsConserved(before: seq<Action>, after: seq<Action>, n: nat)
    requires Reads(Execute(Start(), before), n)
    ensures var w := Execute(Start(), before); var r := Execute(Start(), before + after);
      && Reads(r, n)
      && Backlog(r, n) + DeliveryCount(w, after, n) == Backlog(w, n) + WriteCount(w, after)
      && Backlog(r, n) >= 0 && (CaughtUp(r, n) <==> Backlog(r, n) == 0)
      && forall host :: Listens(r, n, host) && !CaughtUp(r, n) ==> Delivers(r, Deliver(n), n) || r.pending.Some?
  {
    assert Wired(Start());
    WiredThroughout(Start(), before);
    WiredThroughout(Start(), before + after);
    ExecuteJoins(Start(), before, after);
    var w, r := Execute(Start(), before), Execute(Start(), before + after);
    hide Wired, Execute, Start, Position, CaughtUp, Backlog;
    BacklogMoves(w, after, n);
    BacklogIsBehind(r, n);
    forall host | Listens(r, n, host) && !CaughtUp(r, n)
      ensures Delivers(r, Deliver(n), n) || r.pending.Some?
    {
      BacklogWaits(r, n, host);
    }
  }

  /** Broadcasting what is pending and delivering what waits. */
  ghost predicate Progresses(w: World, a: Action, n: nat) {
    Delivers(w, a, n) || (a.Publish? && w.pending.Some?)
  }

  /** The host leaves, comes back on another channel, or is dropped for a full buffer. */
  ghost predicate Loses(w: World, a: Action, n: nat, host: HostId) {
    || a == Disconnect(host)
    || (a.Connect? && a.host == host && a.session in w.sessions && w.sessions[a.session].channel.None?)
    || (a.Publish? && w.pending.Some? && Waiting(w, n) >= BUFFER)
  }

  /** Deliveries to come, and a broadcast if one is pending. */
  function Remaining(w: World, n: nat): int
    requires n in w.sessions
  {
    Backlog(w, n) + if w.pending.Some? then 1 else 0
  }

  ghost function ProgressCount(w: World, actions: seq<Action>, n: nat): nat {
    if actions == [] then 0
    else
      var rest := actions[..|actions| - 1];
      ProgressCount(w, rest, n) + if Progresses(Execute(w, rest), actions[|actions| - 1], n) then 1 else 0
  }

  lemma PendingMoves(w: World, a: Action)
    ensures var r := Act(w, a); var was, now := if w.pending.Some? then 1 else 0, if r.pending.Some? then 1 else 0;
      now + (if a.Publish? && w.pending.Some? then 1 else 0) == was + (if Writes(w, a) then 1 else 0)
  {
    hide ApplyAll, Full, Lists, Channels.Step;
  }

  lemma DeliveryIsNoBroadcast(w: World, a: Action, n: nat)
    ensures Delivers(w, a, n) ==> !a.Publish?
  {
  }

  lemma {:induction false} RemainingMoves(w: World, actions: seq<Action>, n: nat)
    requires Wired(w) && Reads(w, n)
    ensures var r := Execute(w, actions);
      Reads(r, n) && Remaining(r, n) + ProgressCount(w, actions, n) == Remaining(w, n) + 2 * WriteCount(w, actions)
    decreases |actions|
  {
    hide Wired, Act, Delivers, Writes, Position;
    if actions != [] {
      var rest, a := actions[..|actions| - 1], actions[|actions| - 1];
      RemainingMoves(w, rest, n);
      WiredThroughout(w, rest);
      PositionMoves(Execute(w, rest), a, n);
      LogMoves(Execute(w, rest), a);
      PendingMoves(Execute(w, rest), a);
      DeliveryIsNoBroadcast(Execute(w, rest), a, n);
    }
  }

  /** A registration is lost in these three ways and no other. */
  lemma ListensUnlessLost(w: World, a: Action, n: nat, host: HostId)
    requires Wired(w) && Listens(w, n, host)
    ensures Listens(Act(w, a), n, host) <==> !Loses(w, a, n, host)
  {
    hide Clashes, ApplyAll, Full, Lists, Contiguous;
  }

  ghost predicate KeepsUp(w: World, actions: seq<Action>, n: nat, host: HostId) {
    forall k :: 0 <= k < |actions| ==> !Loses(Execute(w, actions[..k]), actions[k], n, host)
  }

  lemma {:induction false} StaysRegistered(w: World, actions: seq<Action>, n: nat, host: HostId)
    requires Wired(w) && Listens(w, n, host) && KeepsUp(w, actions, n, host)
    ensures Listens(Execute(w, actions), n, host)
    decreases |actions|
  {
    hide Wired, Listens, Act, Loses;
    if actions != [] {
      var rest := actions[..|actions| - 1];
      assert forall k :: 0 <= k < |rest| ==> rest[..k] == actions[..k] && rest[k] == actions[k];
      StaysRegistered(w, rest, n, host);
      WiredThroughout(w, rest);
      ListensUnlessLost(Execute(w, rest), actions[|actions| - 1], n, host);
    }
  }

  /** Deliveries first, then the broadcast: there is always a way on that keeps the registration. */
  lemma SafeProgress(w: World, n: nat, host: HostId)
    requires Wired(w) && Listens(w, n, host) && !CaughtUp(w, n)
    ensures exists a :: Progresses(w, a, n) && !Loses(w, a, n, host)
  {
    BacklogWaits(w, n, host);
    BacklogIsBehind(w, n);
    hide Wired, Listens, CaughtUp, Backlog;
    if Waiting(w, n) > 0 {
      assert Progresses(w, Deliver(n), n) && !Loses(w, Deliver(n), n, host);
    } else {
      assert Progresses(w, Publish, n) && !Loses(w, Publish, n, host);
    }
  }

  lemma CaughtUpMeansNothingPending(w: World, n: nat)
    ensures CaughtUp(w, n) ==> w.pending.None?
  {
  }

  /**
    Every schedule catches up that keeps the registration. What remains to broadcast and deliver shrinks
    by one with each broadcast and each delivery, grows by two with each write and by nothing else, and is
    nothing exactly when the session has caught up; until then there is a broadcast or a delivery to make
    that keeps the registration.
   */
  lemma SessionMustCatchUp(before: seq<Action>, after: seq<Action>, n: nat, host: HostId)
    requires Listens(Execute(Start(), before), n, host)
    ensures var w, r := Execute(Start(), before), Execute(Start(), before + after);
      && Reads(r, n)
      && Remaining(r, n) + ProgressCount(w, after, n) == Remaining(w, n) + 2 * WriteCount(w, after)
      && Remaining(r, n) >= 0 && (CaughtUp(r, n) <==> Remaining(r, n) == 0)
      && (KeepsUp(w, after, n, host) ==>
            && Listens(r, n, host)
            && (CaughtUp(r, n) || exists a :: Progresses(r, a, n) && !Loses(r, a, n, host)))
  {
    assert Wired(Start());
    WiredThroughout(Start(), before);
    WiredThroughout(Start(), before + after);
    ExecuteJoins(Start(), before, after);
    var w, r := Execute(Start(), before), Execute(Start(), before + after);
    hide Wired, Execute, Start, Position, CaughtUp, Backlog, Progresses, Loses, KeepsUp;
    RemainingMoves(w, after, n);
    BacklogIsBehind(r, n);
    CaughtUpMeansNothingPending(r, n);
    if KeepsUp(w, after, n, host) {
      StaysRegistered(w, after, n, host);
      if !CaughtUp(r, n) {
        SafeProgress(r, n, host);
      }
    }
  }

  // ------------------------------------------------------------ a gap

  function After(r: Registry, m: Message): Registry {
    ApplyAll(Progress(r, [], {}), Batch(m)).entries
  }

  /** What the next update the session will apply makes of its registry is right. */
  ghost predicate ReadyAt(r: Registry, p: nat, configs: Configs, pending: Option<Message>, log: seq<Message>) {
    && p <= |log|
    && if p < |log| then IsRegistry(After(r, log[p]), Published(log[..p + 1]))
       else if pending.Some? then IsRegistry(After(r, pending.value), configs)
       else IsRegistry(r, configs)
  }

  ghost predicate Ready(w: World, n: nat) {
    && n in w.sessions && w.sessions[n].channel.Some?
    && ReadyAt(w.sessions[n].registry, Position(w.sessions[n], w.bus.channels), w.configs, w.pending, w.bus.log)
  }

  lemma MessageRefinesFull(r: Registry, c: Configs, m: Message)
    requires IsRegistry(r, c) && UniqueTopics(c) && UniqueTopics(Publishes(c, m))
    ensures IsRegistry(After(r, m), Publishes(c, m))
  {
    match m
    case InfraMessage =>
    case AppMessage(u) =>
      BatchOfOne(r, u);
      DeltaRefinesFull(r, c, u);
  }

  lemma ReadyDeliver(r: Registry, p: nat, w: World)
    requires Base(w) && p < |w.bus.log| && ReadyAt(r, p, w.configs, w.pending, w.bus.log)
    ensures ReadyAt(After(r, w.bus.log[p]), p + 1, w.configs, w.pending, w.bus.log)
  {
    var log, q := w.bus.log, After(r, w.bus.log[p]);
    assert UniqueTopics(Published(log[..p + 1]));
    hide Channels.Invariant, Connected, IsRegistry, UniqueTopics;
    if p + 1 < |log| {
      assert log[..p + 2][..p + 1] == log[..p + 1];
      assert UniqueTopics(Published(log[..p + 2]));
      MessageRefinesFull(q, Published(log[..p + 1]), log[p + 1]);
    } else {
      assert log[..p + 1] == log;
      if w.pending.Some? {
        MessageRefinesFull(q, Published(log), w.pending.value);
      }
    }
  }

  /** Actions that do not deliver to the session leave it ready. */
  lemma ReadyStays(r: Registry, p: nat, w: World, a: Action)
    requires Base(w) && UniqueTopics(Act(w, a).configs) && ReadyAt(r, p, w.configs, w.pending, w.bus.log)
    ensures ReadyAt(r, p, Act(w, a).configs, Act(w, a).pending, Act(w, a).bus.log)
  {
    var log := w.bus.log;
    hide Channels.Invariant, Connected, UniqueTopics, After, Full, Lists, AfterBroadcast, AlwaysUnique, ApplyAll;
    if a.Publish? && w.pending.Some? {
      PublishedPrefix(log, w.pending.value, p);
      if p < |log| {
        PublishedPrefix(log, w.pending.value, p + 1);
      } else {
        assert (log + [w.pending.value])[..p + 1] == log + [w.pending.value];
      }
    } else if w.pending.None? && p == |log| && Act(w, a).pending.Some? {
      MessageRefinesFull(r, w.configs, Act(w, a).pending.value);
    }
  }

  lemma NothingToDeliver(w: World, n: nat)
    requires n in w.sessions && w.sessions[n].channel.Some?
    requires w.sessions[n].channel.value >= |w.bus.channels| || w.bus.channels[w.sessions[n].channel.value].buffer == []
    ensures Act(w, Deliver(n)) == w
  {
  }

  lemma ReadyKeeps(w: World, a: Action, n: nat)
    requires Base(w) && UniqueTopics(Act(w, a).configs) && Ready(w, n)
    ensures Ready(Act(w, a), n)
  {
    hide Act, ReadyAt, Base, UniqueTopics;
    var s := w.sessions[n];
    var p := Position(s, w.bus.channels);
    if a != Deliver(n) {
      PositionKeeps(w, a, n);
      ReadyStays(s.registry, p, w, a);
    } else if s.channel.value < |w.bus.channels| && w.bus.channels[s.channel.value].buffer != [] {
      DeliverMoves(w, n);
      ReadyDeliver(s.registry, p, w);
    } else {
      NothingToDeliver(w, n);
    }
  }

  lemma {:induction false} ReadyForever(w: World, actions: seq<Action>, n: nat)
    requires Base(w) && Ready(w, n) && UniqueThroughout(w, actions)
    ensures Base(Execute(w, actions)) && Ready(Execute(w, actions), n)
    decreases |actions|
  {
    hide Base, Ready, Act;
    if actions != [] {
      UniquePrefix(w, actions);
      var rest := actions[..|actions| - 1];
      ReadyForever(w, rest, n);
      BaseKeeps(Execute(w, rest), actions[|actions| - 1]);
      ReadyKeeps(Execute(w, rest), actions[|actions| - 1], n);
    }
  }

  lemma ReadyIsCorrect(w: World, n: nat)
    requires Base(w) && Ready(w, n) && CaughtUp(w, n)
    ensures Correct(w, n)
  {
    CorrectIfRegistry(w, n);
  }

  /** Whatever happens next, the session is right whenever it has caught up. */
  ghost predicate AlwaysConverges(w: World, n: nat) {
    forall actions :: UniqueThroughout(w, actions) && CaughtUp(Execute(w, actions), n) ==>
      Correct(Execute(w, actions), n)
  }

  lemma {:induction false} SomeListing(c: Configs) returns (apps: seq<ApplicationConfig>)
    requires forall id :: id in c ==> c[id].id == id
    ensures Lists(apps, c)
    decreases |c|
  {
    apps := [];
    if c != map[] {
      var id :| id in c;
      var d := c - {id};
      assert d.Keys == c.Keys - {id};
      assert |d| == |d.Keys| && |c| == |c.Keys|;
      var rest := SomeListing(d);
      apps := rest + [c[id]];
      forall k | k in c
        ensures c[k] in apps
      {
        if k == id {
          assert apps[|rest|] == c[id];
        } else {
          assert d[k] in rest;
        }
      }
    }
  }

  lemma CorrectIsRegistry(w: World, n: nat)
    requires UniqueTopics(w.configs) && Correct(w, n)
    ensures IsRegistry(w.sessions[n].registry, w.configs)
  {
    var apps := SomeListing(w.configs);
    FullIsRegistry(apps, w.configs);
  }

  /** A freshly connected session: at the end of the log, with an empty, open channel. */
  lemma JustConnected(w: World, n: nat, host: HostId)
    requires Base(w) && n in w.sessions && w.sessions[n].channel.None?
    ensures var r := Act(w, Connect(n, host)); var c := |w.bus.channels|;
      && Base(r) && n in r.sessions && r.sessions[n].channel == Some(c)
      && r.sessions[n].registry == w.sessions[n].registry
      && r.bus.channels == w.bus.channels + [Channel([], false, |w.bus.log|, [])]
      && host in r.bus.hosts && r.bus.hosts[host] == c
      && r.configs == w.configs && r.pending == w.pending && r.bus.log == w.bus.log
  {
    BaseKeeps(w, Connect(n, host));
    hide Base;
  }

  /** The broadcast reaches the new channel. */
  lemma PublishReaches(r: World, host: HostId, c: nat)
    requires r.pending.Some? && host in r.bus.hosts && r.bus.hosts[host] == c < |r.bus.channels|
    requires r.bus.channels[c] == Channel([], false, |r.bus.log|, [])
    ensures var p := Act(r, Publish);
      && p.configs == r.configs && p.pending == None && p.bus.log == r.bus.log + [r.pending.value]
      && p.sessions == r.sessions
      && |p.bus.channels| == |r.bus.channels| && p.bus.channels[c] == Channel([r.pending.value], false, |r.bus.log|, [])
  {
  }

  lemma DeliverReaches(p: World, n: nat, c: nat, m: Message, start: nat)
    requires n in p.sessions && p.sessions[n].channel == Some(c) && c < |p.bus.channels|
    requires p.bus.channels[c] == Channel([m], false, start, []) && |p.bus.log| == start + 1 && p.pending.None?
    ensures var e := Act(p, Deliver(n));
      CaughtUp(e, n) && e.configs == p.configs && e.sessions[n].registry == After(p.sessions[n].registry, m)
  {
    hide ApplyAll;
  }

  lemma ExecuteTwo(w: World, a: Action, b: Action)
    ensures Execute(w, []) == w && Execute(w, [a]) == Act(w, a) && Execute(w, [a, b]) == Act(Act(w, a), b)
    ensures [a, b][..0] == [] && [a, b][..1] == [a] && [a, b][..2] == [a, b]
  {
  }

  /** Publishing the pending update and delivering it is one way on. */
  lemma PublishAndDeliver(w: World, n: nat, host: HostId)
    requires Base(w) && n in w.sessions && w.sessions[n].channel.None? && w.pending.Some?
    ensures var r := Act(w, Connect(n, host)); var e := Execute(r, [Publish, Deliver(n)]);
      && UniqueThroughout(r, [Publish, Deliver(n)])
      && CaughtUp(e, n) && e.configs == w.configs
      && e.sessions[n].registry == After(w.sessions[n].registry, w.pending.value)
  {
    assert UniqueTopics(w.configs);
    hide Act, Base, UniqueTopics, CaughtUp, After, Execute;
    JustConnected(w, n, host);
    var r, c := Act(w, Connect(n, host)), |w.bus.channels|;
    PublishReaches(r, host, c);
    DeliverReaches(Act(r, Publish), n, c, w.pending.value, |w.bus.log|);
    ExecuteTwo(r, Publish, Deliver(n));
  }

  /**
    The gap, exactly. A session connecting over the current state converges in every continuation if
    and only if its snapshot's registry, after the update about to be broadcast if there is one, is
    the store's registry now.
   */
  lemma GapCondition(w: World, n: nat, host: HostId)
    requires Base(w) && n in w.sessions && w.sessions[n].channel.None?
    ensures AlwaysConverges(Act(w, Connect(n, host)), n) <==>
      var r := w.sessions[n].registry;
      IsRegistry(if w.pending.Some? then After(r, w.pending.value) else r, w.configs)
  {
    JustConnected(w, n, host);
    var r := Act(w, Connect(n, host));
    assert UniqueTopics(w.configs);
    assert Position(r.sessions[n], r.bus.channels) == |r.bus.log|;
    hide Act;
    if Ready(r, n) {
      forall actions | UniqueThroughout(r, actions) && CaughtUp(Execute(r, actions), n)
        ensures Correct(Execute(r, actions), n)
      {
        ReadyForever(r, actions, n);
        ReadyIsCorrect(Execute(r, actions), n);
      }
    }
    if AlwaysConverges(r, n) {
      if w.pending.Some? {
        PublishAndDeliver(w, n, host);
        CorrectIsRegistry(Execute(r, [Publish, Deliver(n)]), n);
      } else {
        assert Execute(r, []) == r;
        assert UniqueThroughout(r, []);
        CorrectIsRegistry(r, n);
      }
    }
  }

  // ------------------------------------------------------------ a gap, concretely

  const ONE_APP: ApplicationConfig :=
    ApplicationConfig(AppId("ns", "app"), [FunctionConfig("f", "ref", 0, Some("t"), None)], false, [])

  /** The four states of the run below, after the empty start. */
  lemma MissedBroadcast()
    ensures var w1 := Act(Start(), TakeSnapshot(0, []));
      var w2 := Act(w1, SetApp(ONE_APP)); var w3 := Act(w2, Publish); var w4 := Act(w3, Connect(0, "host"));
      && w1.configs == map[] && w2.configs == w3.configs == w4.configs == map[ONE_APP.id := ONE_APP]
      && CaughtUp(w4, 0) && !NoGap(w4, 0) && w4.sessions[0].registry == map[]
  {
  }

  lemma OneAppIsUnique()
    ensures UniqueTopics(map[]) && UniqueTopics(map[ONE_APP.id := ONE_APP])
    ensures Lists([ONE_APP], map[ONE_APP.id := ONE_APP]) && Full([ONE_APP]) != map[]
  {
    var c: Configs := map[ONE_APP.id := ONE_APP];
    assert forall id, f, t :: Provides(c, id, f, t) ==> id == ONE_APP.id && f == 0;
    assert ONE_APP in [ONE_APP] by { assert [ONE_APP][0] == ONE_APP; }
    FullEntry([ONE_APP], "t");
    assert Declares([ONE_APP][0].functions[0], "t");
  }

  lemma ExecuteFour(w: World, a: seq<Action>)
    requires |a| == 4
    ensures var w1 := Act(w, a[0]); var w2 := Act(w1, a[1]); var w3 := Act(w2, a[2]);
      && Execute(w, a[..0]) == w && Execute(w, a[..1]) == w1 && Execute(w, a[..2]) == w2
      && Execute(w, a[..3]) == w3 && Execute(w, a[..4]) == Act(w3, a[3])
  {
    hide Act;
    assert a[..1][..0] == a[..0] && a[..2][..1] == a[..1] && a[..3][..2] == a[..2] && a[..4][..3] == a[..3];
  }

  /** Without the hypothesis convergence fails: a broadcast between snapshot and registration is lost for good. */
  lemma GapBreaksConvergence()
    ensures exists actions, n ::
      var w := Execute(Start(), actions);
      UniqueThroughout(Start(), actions) && CaughtUp(w, n) && !NoGap(w, n) && !Correct(w, n)
  {
    MissedBroadcast();
    OneAppIsUnique();
    hide Act, UniqueTopics, CaughtUp, Full, Lists, NoGap, Execute;
    var actions := [TakeSnapshot(0, []), SetApp(ONE_APP), Publish, Connect(0, "host")];
    ExecuteFour(Start(), actions);
    forall k | 0 <= k <= |actions|
      ensures UniqueTopics(Execute(Start(), actions[..k]).configs)
    {
      assert k == 0 || k == 1 || k == 2 || k == 3 || k == 4;
    }
    var w := Execute(Start(), actions);
    assert actions[..4] == actions;
    assert !Correct(w, 0);
  }
}
