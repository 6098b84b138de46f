/**
  Replication of the store to execution hosts: a serial writer stores and then broadcasts; a host
  takes a snapshot, registers, and applies what its channel delivers.
 */
module Replication {
  import opened Basics
  import opened HostConfig
  import Channels = ConfigStore
  import opened ConfigStore

  type Configs = map<AppId, ApplicationConfig>

  // ------------------------------------------------------------ the registry a store stands for

  ghost predicate Provides(c: Configs, id: AppId, f: int, t: Topic) {
    id in c && 0 <= f < |c[id].functions| && Declares(c[id].functions[f], t)
  }

  /** Configurations are stored under their own name, and no topic is declared twice. */
  ghost predicate UniqueTopics(c: Configs) {
    && (forall id :: id in c ==> c[id].id == id)
    && (forall a, f, b, g, t :: Provides(c, a, f, t) && Provides(c, b, g, t) ==> a == b && f == g)
  }

  ghost predicate IsRegistry(r: Registry, c: Configs) {
    && (forall id, f, t :: Provides(c, id, f, t) ==> t in r && Serves(r[t], c[id], c[id].functions[f]))
    && (forall t :: t in r ==> exists id, f :: Provides(c, id, f, t))
  }

  lemma RegistryIsUnique(r: Registry, q: Registry, c: Configs)
    requires IsRegistry(r, c) && IsRegistry(q, c)
    ensures r == q
  {
  }

  /** Each stored configuration, in any order. */
  ghost predicate Lists(apps: seq<ApplicationConfig>, c: Configs) {
    && (forall i :: 0 <= i < |apps| ==> apps[i].id in c && c[apps[i].id] == apps[i])
    && (forall id :: id in c ==> c[id] in apps)
  }

  /** A full apply of the store, in whatever order, gives its registry. */
  lemma FullIsRegistry(apps: seq<ApplicationConfig>, c: Configs)
    requires Lists(apps, c) && UniqueTopics(c)
    ensures IsRegistry(Full(apps), c)
  {
    forall t | t in Full(apps)
      ensures exists id, f :: Provides(c, id, f, t) && Full(apps)[t] == EntryFrom(c[id], c[id].functions[f])
    {
      FullEntry(apps, t);
      var i, f :| 0 <= i < |apps| && 0 <= f < |apps[i].functions| && Declares(apps[i].functions[f], t)
                  && Full(apps)[t] == EntryFrom(apps[i], apps[i].functions[f]);
      assert Provides(c, apps[i].id, f, t);
    }
    forall id, f, t | Provides(c, id, f, t)
      ensures t in Full(apps) && Full(apps)[t] == EntryFrom(c[id], c[id].functions[f])
    {
      FullEntry(apps, t);
      var i :| 0 <= i < |apps| && apps[i] == c[id];
      assert Declares(apps[i].functions[f], t);
    }
  }

  // ------------------------------------------------------------ one update

  function Written(c: Configs, u: Update): Configs {
    if u.config.None? then c
    else if u.delete then c - {u.config.value.id}
    else c[u.config.value.id := u.config.value]
  }

  function Applied(r: Registry, u: Update): Registry {
    Apply(Progress(r, [], {}), u).entries
  }

  lemma WithoutIs(r: Registry, c: Configs, id: AppId)
    requires IsRegistry(r, c) && UniqueTopics(c)
    ensures IsRegistry(Without(r, id), c - {id})
  {
    var w, d := Without(r, id), c - {id};
    forall a, f, t | Provides(d, a, f, t)
      ensures t in w && w[t] == EntryFrom(d[a], d[a].functions[f])
    {
      assert Provides(c, a, f, t);
    }
    forall t | t in w
      ensures exists a, f :: Provides(d, a, f, t)
    {
      var a, f :| Provides(c, a, f, t);
      assert Provides(d, a, f, t);
    }
  }

  lemma PutIsRegistry(w: Registry, c: Configs, app: ApplicationConfig)
    requires IsRegistry(w, c - {app.id}) && UniqueTopics(c[app.id := app])
    ensures IsRegistry(Put(w, app, app.functions), c[app.id := app])
  {
    var r, d := Put(w, app, app.functions), c[app.id := app];
    forall a, f, t | Provides(d, a, f, t)
      ensures t in r && r[t] == EntryFrom(d[a], d[a].functions[f])
    {
      PutIs(w, app, app.functions, t);
      if a == app.id {
        assert Declares(app.functions[f], t);
        var g :| 0 <= g < |app.functions| && Declares(app.functions[g], t) && r[t] == EntryFrom(app, app.functions[g]);
        assert Provides(d, app.id, g, t);
      } else {
        assert Provides(c - {app.id}, a, f, t);
        assert forall g :: 0 <= g < |app.functions| && Declares(app.functions[g], t) ==> Provides(d, app.id, g, t);
      }
    }
    forall t | t in r
      ensures exists a, f :: Provides(d, a, f, t)
    {
      PutIs(w, app, app.functions, t);
      if g :| 0 <= g < |app.functions| && Declares(app.functions[g], t) {
        assert Provides(d, app.id, g, t);
      } else {
        var a, f :| Provides(c - {app.id}, a, f, t);
        assert Provides(d, a, f, t);
      }
    }
  }

  /** A delta refines the full apply: the registry of the store before becomes that of the store after. */
  lemma DeltaRefinesFull(r: Registry, c: Configs, u: Update)
    requires IsRegistry(r, c) && UniqueTopics(c) && UniqueTopics(Written(c, u))
    ensures IsRegistry(Applied(r, u), Written(c, u))
  {
    if u.config.Some? {
      WithoutIs(r, c, u.config.value.id);
      if !u.delete {
        PutIsRegistry(Without(r, u.config.value.id), c, u.config.value);
      }
    }
  }

  /** Replaying an update the store already reflects changes nothing. */
  lemma ReplayIsIdempotent(r: Registry, c: Configs, u: Update)
    requires IsRegistry(r, Written(c, u)) && UniqueTopics(Written(c, u))
    ensures Applied(r, u) == r
  {
    var d := Written(c, u);
    assert Written(d, u) == d;
    DeltaRefinesFull(r, d, u);
    RegistryIsUnique(Applied(r, u), r, d);
  }

  // ------------------------------------------------------------ the system

  /** `at` is the number of broadcasts before the snapshot. */
  datatype Session = Session(registry: Registry, at: nat, channel: Option<nat>)

  /** `pending` is the update stored but not yet broadcast. */
  datatype World = World(configs: Configs, pending: Option<Message>, bus: Channels.State, sessions: map<nat, Session>)

  datatype Action =
    | SetApp(config: ApplicationConfig)
    | DeleteApp(id: AppId)
    | InfraChange
    | Publish
    | TakeSnapshot(session: nat, apps: seq<ApplicationConfig>)
    | Connect(session: nat, host: HostId)
    | Disconnect(host: HostId)
    | Deliver(session: nat)

  function Start(): World {
    World(map[], None, Channels.Init(), map[])
  }

  function Batch(m: Message): seq<Update> {
    match m case AppMessage(u) => [u] case InfraMessage => []
  }

  function DeleteUpdate(id: AppId): Update {
    Update(Some(ApplicationConfig(id, [], false, [])), true)
  }

  function Wrote(w: World, u: Update): World {
    w.(configs := Written(w.configs, u), pending := Some(AppMessage(u)))
  }

  ghost function Act(w: World, a: Action): World {
    match a
    case SetApp(config) =>
      if w.pending.Some? || (config.id in w.configs && w.configs[config.id] == config) then w
      else Wrote(w, Update(Some(config), false))
    case DeleteApp(id) => if w.pending.Some? then w else Wrote(w, DeleteUpdate(id))
    case InfraChange => if w.pending.Some? then w else w.(pending := Some(InfraMessage))
    case Publish =>
      if w.pending.None? then w
      else w.(pending := None, bus := Channels.Step(w.bus, Broadcast(w.pending.value)))
    case TakeSnapshot(session, apps) =>
      if session in w.sessions || !Lists(apps, w.configs) then w
      else w.(sessions := w.sessions[session := Session(Full(apps), |w.bus.log|, None)])
    case Connect(session, host) =>
      if session !in w.sessions || w.sessions[session].channel.Some? then w
      else w.(bus := Channels.Step(w.bus, Register(host)),
              sessions := w.sessions[session := w.sessions[session].(channel := Some(|w.bus.channels|))])
    case Disconnect(host) => w.(bus := Channels.Step(w.bus, Deregister(host)))
    case Deliver(session) =>
      if session !in w.sessions || w.sessions[session].channel.None? then w
      else
        var s := w.sessions[session];
        var c := s.channel.value;
        if c >= |w.bus.channels| || w.bus.channels[c].buffer == [] then w
        else
          var applied := ApplyAll(Progress(s.registry, [], {}), Batch(w.bus.channels[c].buffer[0]));
          w.(bus := Channels.Step(w.bus, Receive(c)),
             sessions := w.sessions[session := s.(registry := applied.entries)])
  }

  ghost function Execute(w: World, actions: seq<Action>): World {
    if actions == [] then w else Act(Execute(w, actions[..|actions| - 1]), actions[|actions| - 1])
  }

  // ------------------------------------------------------------ what replication keeps

  function Publishes(c: Configs, m: Message): Configs {
    match m case AppMessage(u) => Written(c, u) case InfraMessage => c
  }

  function Published(log: seq<Message>): Configs {
    if log == [] then map[] else Publishes(Published(log[..|log| - 1]), log[|log| - 1])
  }

  ghost predicate Stored(w: World) {
    w.configs == if w.pending.None? then Published(w.bus.log) else Publishes(Published(w.bus.log), w.pending.value)
  }

  ghost predicate AlwaysUnique(log: seq<Message>) {
    forall k :: 0 <= k <= |log| ==> UniqueTopics(Published(log[..k]))
  }

  /** How many broadcasts a session has accounted for. */
  function Position(s: Session, channels: seq<Channel>): nat {
    if s.channel.None? || s.channel.value >= |channels| then s.at
    else channels[s.channel.value].start + |channels[s.channel.value].delivered|
  }

  /** The registry of the published prefix, or of one update more: the one that may be replayed. */
  ghost predicate AlignedAt(r: Registry, p: nat, configs: Configs, log: seq<Message>) {
    && p <= |log|
    && (IsRegistry(r, Published(log[..p]))
        || IsRegistry(r, if p < |log| then Published(log[..p + 1]) else configs))
  }

  ghost predicate Aligned(w: World, session: nat) {
    session in w.sessions
    && AlignedAt(w.sessions[session].registry, Position(w.sessions[session], w.bus.channels), w.configs, w.bus.log)
  }

  /** No broadcast fell between the snapshot and the registration. */
  ghost predicate NoGap(w: World, session: nat)
    requires session in w.sessions
  {
    var s := w.sessions[session];
    s.channel.None? || (s.channel.value < |w.bus.channels| && w.bus.channels[s.channel.value].start == s.at)
  }

  ghost predicate Connected(sessions: map<nat, Session>, channels: seq<Channel>, log: seq<Message>) {
    && (forall n :: n in sessions && sessions[n].channel.Some? ==> sessions[n].channel.value < |channels|)
    && (forall n :: n in sessions ==> sessions[n].at <= |log|)
    && (forall a, b ::
          a in sessions && b in sessions && a != b && sessions[a].channel.Some? && sessions[b].channel.Some? ==>
          sessions[a].channel.value != sessions[b].channel.value)
  }

  ghost predicate Base(w: World) {
    && Channels.Invariant(w.bus)
    && Stored(w)
    && UniqueTopics(w.configs)
    && AlwaysUnique(w.bus.log)
    && Connected(w.sessions, w.bus.channels, w.bus.log)
  }

  lemma PublishedPrefix(log: seq<Message>, m: Message, k: nat)
    requires k <= |log|
    ensures (log + [m])[..k] == log[..k]
    ensures Published(log + [m]) == Publishes(Published(log), m)
  {
  }

  lemma PublishUnique(w: World)
    requires Base(w) && w.pending.Some?
    ensures AlwaysUnique(w.bus.log + [w.pending.value]) && Published(w.bus.log + [w.pending.value]) == w.configs
  {
    var log := w.bus.log + [w.pending.value];
    PublishedPrefix(w.bus.log, w.pending.value, |w.bus.log|);
    forall k | 0 <= k <= |log|
      ensures UniqueTopics(Published(log[..k]))
    {
      if k <= |w.bus.log| {
        PublishedPrefix(w.bus.log, w.pending.value, k);
      } else {
        assert log[..k] == log;
      }
    }
  }

  lemma ConnectedAfter(w: World, a: Action)
    requires Connected(w.sessions, w.bus.channels, w.bus.log) && Channels.Invariant(w.bus)
    ensures var r := Act(w, a); Connected(r.sessions, r.bus.channels, r.bus.log)
  {
    hide Channels.Invariant, AfterBroadcast, Clashes, ApplyAll, Full, Lists;
  }

  lemma BaseKeeps(w: World, a: Action)
    requires Base(w) && UniqueTopics(Act(w, a).configs)
    ensures Base(Act(w, a))
  {
    ConnectedAfter(w, a);
    hide Connected, UniqueTopics, ApplyAll, Full, Lists, Channels.Step, Channels.Invariant, AlwaysUnique;
    match a
    case Publish =>
      if w.pending.Some? {
        PublishUnique(w);
        Channels.StepKeeps(w.bus, Broadcast(w.pending.value));
        Channels.StepLog(w.bus, Broadcast(w.pending.value));
      }
    case Connect(_, host) => Channels.StepKeeps(w.bus, Register(host)); Channels.StepLog(w.bus, Register(host));
    case Disconnect(host) => Channels.StepKeeps(w.bus, Deregister(host)); Channels.StepLog(w.bus, Deregister(host));
    case Deliver(session) =>
      if session in w.sessions && w.sessions[session].channel.Some? {
        Channels.StepKeeps(w.bus, Receive(w.sessions[session].channel.value));
        Channels.StepLog(w.bus, Receive(w.sessions[session].channel.value));
      }
    case _ =>
  }

  // ------------------------------------------------------------ sessions stay aligned

  lemma AlignedPublish(r: Registry, p: nat, configs: Configs, log: seq<Message>, m: Message)
    requires AlignedAt(r, p, configs, log) && configs == Publishes(Published(log), m)
    ensures AlignedAt(r, p, configs, log + [m])
  {
    hide IsRegistry, Published, Publishes;
    PublishedPrefix(log, m, p);
    if p < |log| {
      PublishedPrefix(log, m, p + 1);
    } else {
      assert log[..p] == log && (log + [m])[..p + 1] == log + [m];
    }
  }

  /** A write at rest: the session is then exactly at the published prefix. */
  lemma AlignedWrite(r: Registry, p: nat, configs: Configs, log: seq<Message>, after: Configs)
    requires AlignedAt(r, p, configs, log) && configs == Published(log)
    ensures AlignedAt(r, p, after, log)
  {
    if p == |log| {
      assert log[..p] == log;
    }
  }

  lemma BatchOfOne(r: Registry, u: Update)
    ensures ApplyAll(Progress(r, [], {}), [u]).entries == Applied(r, u)
  {
  }

  /** One delivery: either the delta refines the full apply, or it was already reflected. */
  lemma AlignedDeliver(r: Registry, p: nat, configs: Configs, log: seq<Message>)
    requires AlignedAt(r, p, configs, log) && p < |log| && AlwaysUnique(log)
    ensures AlignedAt(ApplyAll(Progress(r, [], {}), Batch(log[p])).entries, p + 1, configs, log)
  {
    assert log[..p + 1][..p] == log[..p];
    var before := Published(log[..p]);
    assert Published(log[..p + 1]) == Publishes(before, log[p]);
    assert UniqueTopics(before) && UniqueTopics(Published(log[..p + 1]));
    match log[p]
    case InfraMessage =>
    case AppMessage(u) =>
      BatchOfOne(r, u);
      if IsRegistry(r, before) {
        DeltaRefinesFull(r, before, u);
      } else {
        ReplayIsIdempotent(r, before, u);
      }
  }

  ghost predicate Stays(s: Session, before: seq<Channel>, t: Session, after: seq<Channel>) {
    && t == s && |before| <= |after| && Position(t, after) == Position(s, before)
    && (s.channel.Some? && s.channel.value < |before| ==> after[s.channel.value].start == before[s.channel.value].start)
  }

  lemma BusGrows(bus: Channels.State)
    ensures forall e :: |bus.channels| <= |Channels.Step(bus, e).channels|
  {
    hide Clashes, AfterBroadcast;
  }

  lemma StaysPut(w: World, a: Action, n: nat)
    requires Connected(w.sessions, w.bus.channels, w.bus.log) && n in w.sessions && a != Deliver(n)
    requires !(a.Connect? && a.session == n && w.sessions[n].channel.None?)
    ensures var r := Act(w, a);
      n in r.sessions && Stays(w.sessions[n], w.bus.channels, r.sessions[n], r.bus.channels)
  {
    hide Channels.Step, ApplyAll, Full, Lists;
    if w.sessions[n].channel.Some? {
      var c := w.sessions[n].channel.value;
      match a
      case Publish => if w.pending.Some? { Channels.HistoryStays(w.bus, Broadcast(w.pending.value), c); }
      case Connect(_, host) => Channels.HistoryStays(w.bus, Register(host), c);
      case Disconnect(host) => Channels.HistoryStays(w.bus, Deregister(host), c);
      case Deliver(m) =>
        if m in w.sessions && w.sessions[m].channel.Some? {
          Channels.HistoryStays(w.bus, Receive(w.sessions[m].channel.value), c);
        }
      case _ =>
    } else {
      BusGrows(w.bus);
    }
  }

  lemma Connects(w: World, n: nat, host: HostId)
    requires n in w.sessions && w.sessions[n].channel.None?
    ensures var r := Act(w, Connect(n, host));
      && n in r.sessions && r.sessions[n] == w.sessions[n].(channel := Some(|w.bus.channels|))
      && r.bus.channels == w.bus.channels + [Channel([], false, |w.bus.log|, [])]
  {
    hide Clashes, AfterBroadcast, Full, Lists, ApplyAll;
  }

  /** Only its own deliveries and its own connection move a session. */
  lemma PositionKeeps(w: World, a: Action, n: nat)
    requires Base(w) && n in w.sessions && a != Deliver(n)
    ensures n in Act(w, a).sessions
    ensures var r := Act(w, a);
      if a.Connect? && a.session == n && w.sessions[n].channel.None? then
        && r.sessions[n] == w.sessions[n].(channel := Some(|w.bus.channels|))
        && Position(r.sessions[n], r.bus.channels) == |w.bus.log|
        && |r.bus.channels| == |w.bus.channels| + 1 && r.bus.channels[|w.bus.channels|].start == |w.bus.log|
      else Stays(w.sessions[n], w.bus.channels, r.sessions[n], r.bus.channels)
  {
    hide Act, Channels.Invariant, Stored, UniqueTopics, AlwaysUnique, Connected;
    if a.Connect? && a.session == n && w.sessions[n].channel.None? {
      Connects(w, n, a.host);
    } else {
      StaysPut(w, a, n);
    }
  }

  lemma DeliverMoves(w: World, n: nat)
    requires Base(w) && n in w.sessions && w.sessions[n].channel.Some?
    requires w.bus.channels[w.sessions[n].channel.value].buffer != []
    ensures var r := Act(w, Deliver(n)); var p := Position(w.sessions[n], w.bus.channels);
      && n in r.sessions && p < |w.bus.log| && Position(r.sessions[n], r.bus.channels) == p + 1
      && r.sessions[n].registry == ApplyAll(Progress(w.sessions[n].registry, [], {}), Batch(w.bus.log[p])).entries
      && r.configs == w.configs && r.bus.log == w.bus.log && r.pending == w.pending
      && r.sessions[n].at == w.sessions[n].at && r.sessions[n].channel == w.sessions[n].channel
      && r.bus.channels[w.sessions[n].channel.value].start == w.bus.channels[w.sessions[n].channel.value].start
  {
    hide Stored, UniqueTopics, AlwaysUnique, ApplyAll, Full, Lists, Published, Hosted;
    var ch := w.bus.channels[w.sessions[n].channel.value];
    assert Contiguous(ch, w.bus.log);
    assert (ch.delivered + ch.buffer)[|ch.delivered|] == ch.buffer[0];
  }

  /** What each action does to the store and the log. */
  lemma LogChanges(w: World, a: Action)
    requires Base(w)
    ensures var r := Act(w, a);
      || (r.configs == w.configs && r.bus.log == w.bus.log)
      || (w.configs == Published(w.bus.log) && r.bus.log == w.bus.log)
      || (w.pending.Some? && r.configs == w.configs && r.bus.log == w.bus.log + [w.pending.value]
          && w.configs == Publishes(Published(w.bus.log), w.pending.value))
  {
    hide Channels.Invariant, UniqueTopics, AlwaysUnique, ApplyAll, Full, Lists, Published, Connected, AfterBroadcast;
  }

  lemma AlignedElsewhere(w: World, a: Action, n: nat)
    requires Base(w) && Aligned(w, n) && a != Deliver(n)
    requires a.Connect? && a.session == n && w.sessions[n].channel.None? ==> w.sessions[n].at == |w.bus.log|
    ensures Aligned(Act(w, a), n)
  {
    PositionKeeps(w, a, n);
    LogChanges(w, a);
    hide Base, Act, Published, IsRegistry, AlignedAt;
    var s, r := w.sessions[n], Act(w, a);
    var p := Position(s, w.bus.channels);
    if w.configs == Published(w.bus.log) {
      AlignedWrite(s.registry, p, w.configs, w.bus.log, r.configs);
    }
    if w.pending.Some? && w.configs == Publishes(Published(w.bus.log), w.pending.value) {
      AlignedPublish(s.registry, p, w.configs, w.bus.log, w.pending.value);
    }
  }

  lemma NothingDelivered(w: World, n: nat)
    requires Base(w) && n in w.sessions
    requires w.sessions[n].channel.Some? ==> w.bus.channels[w.sessions[n].channel.value].buffer == []
    ensures Act(w, Deliver(n)) == w
  {
    hide Base, ApplyAll, Channels.Step;
  }

  /** An aligned session stays aligned, unless it connects past a broadcast. */
  lemma AlignedKeeps(w: World, a: Action, n: nat)
    requires Base(w) && Aligned(w, n)
    requires a.Connect? && a.session == n && w.sessions[n].channel.None? ==> w.sessions[n].at == |w.bus.log|
    ensures Aligned(Act(w, a), n)
  {
    var s := w.sessions[n];
    assert s.channel.Some? ==> s.channel.value < |w.bus.channels|;
    hide Base, Act, AlignedAt;
    if a != Deliver(n) {
      AlignedElsewhere(w, a, n);
    } else if s.channel.Some? && w.bus.channels[s.channel.value].buffer != [] {
      DeliverMoves(w, n);
      AlignedDeliver(s.registry, Position(s, w.bus.channels), w.configs, w.bus.log);
    } else {
      NothingDelivered(w, n);
    }
  }

  /** Every session without a gap is aligned. */
  ghost predicate AllAligned(w: World) {
    forall n :: n in w.sessions && NoGap(w, n) ==> Aligned(w, n)
  }

  lemma SnapshotAligned(w: World, n: nat, apps: seq<ApplicationConfig>)
    requires Base(w) && n !in w.sessions && Lists(apps, w.configs)
    ensures Aligned(Act(w, TakeSnapshot(n, apps)), n)
  {
    FullIsRegistry(apps, w.configs);
    hide Base, Channels.Invariant, Full, Lists, IsRegistry, Published;
  }

  lemma GapsStay(w: World, a: Action, n: nat)
    requires Base(w) && n in w.sessions && n in Act(w, a).sessions && NoGap(Act(w, a), n)
    ensures NoGap(w, n)
    ensures a.Connect? && a.session == n && w.sessions[n].channel.None? ==> w.sessions[n].at == |w.bus.log|
  {
    if a == Deliver(n) {
      if w.sessions[n].channel.Some? && w.bus.channels[w.sessions[n].channel.value].buffer != [] {
        DeliverMoves(w, n);
        hide Act, Base;
      }
    } else {
      PositionKeeps(w, a, n);
      hide Channels.Invariant, Stored, UniqueTopics, AlwaysUnique, ApplyAll, Full, Lists, Published;
    }
  }

  lemma SessionsAfter(w: World, a: Action, n: nat)
    requires n in Act(w, a).sessions && n !in w.sessions
    ensures a.TakeSnapshot? && a.session == n && Lists(a.apps, w.configs)
  {
    hide ApplyAll, Full, Lists;
  }

  lemma AllAlignedKeeps(w: World, a: Action)
    requires Base(w) && AllAligned(w)
    ensures AllAligned(Act(w, a))
  {
    var r := Act(w, a);
    forall n | n in r.sessions && NoGap(r, n)
      ensures Aligned(r, n)
    {
      if n in w.sessions {
        GapsStay(w, a, n);
        assert Aligned(w, n);
        AlignedKeeps(w, a, n);
      } else {
        SessionsAfter(w, a, n);
        SnapshotAligned(w, n, a.apps);
      }
    }
  }
}
