/** The operator's configuration store and the bounded channels it feeds. */
module ConfigStore {
  import opened Basics
  import opened HostConfig

  type HostId = string

  /** One update of an application, or of the infrastructure alone. */
  datatype Message = AppMessage(update: Update) | InfraMessage

  const BUFFER := 16

  /** `start` and `delivered` are history: the broadcasts before it was made, and what its reader took. */
  datatype Channel = Channel(buffer: seq<Message>, closed: bool, start: nat, delivered: seq<Message>)

  /** `log` is every broadcast so far; `panics` counts sends to, and closes of, a closed channel. */
  datatype State = State(hosts: map<HostId, nat>, channels: seq<Channel>, log: seq<Message>, panics: nat)

  datatype Event =
    | Register(id: HostId)
    | Deregister(id: HostId)
    | Broadcast(message: Message)
    | Receive(channel: nat)

  function Init(): State {
    State(map[], [], [], 0)
  }

  // ------------------------------------------------------------ steps

  function Registered(s: State, id: HostId): State {
    s.(hosts := s.hosts[id := |s.channels|], channels := s.channels + [Channel([], false, |s.log|, [])])
  }

  function Close(s: State, c: nat): State {
    if c >= |s.channels| || s.channels[c].closed then s.(panics := s.panics + 1)
    else s.(channels := s.channels[c := s.channels[c].(closed := true)])
  }

  function Deregistered(s: State, id: HostId): State {
    if id in s.hosts then Close(s.(hosts := s.hosts - {id}), s.hosts[id]) else s
  }

  predicate NoRoom(c: Channel) {
    |c.buffer| >= BUFFER
  }

  predicate Slow(s: State, id: HostId) {
    id in s.hosts && s.hosts[id] < |s.channels| && NoRoom(s.channels[s.hosts[id]])
  }

  /** What one broadcast leaves of a channel. */
  function AfterBroadcast(s: State, c: nat, message: Message): Channel
    requires c < |s.channels|
  {
    if c !in s.hosts.Values then s.channels[c]
    else if NoRoom(s.channels[c]) then s.channels[c].(closed := true)
    else s.channels[c].(buffer := s.channels[c].buffer + [message])
  }

  /** The send to this host, or the close that drops it, meets a channel that is closed by then. */
  predicate Clashes(s: State, id: HostId)
    requires id in s.hosts
  {
    || s.hosts[id] >= |s.channels|
    || s.channels[s.hosts[id]].closed
    || (Slow(s, id) && exists other :: other in s.hosts && other != id && s.hosts[other] == s.hosts[id])
  }

  /** The whole fan-out: slow hosts are dropped and closed, all others get the message. */
  function Broadcasted(s: State, message: Message): State {
    s.(hosts := map id | id in s.hosts && !Slow(s, id) :: s.hosts[id],
       channels := seq(|s.channels|, c requires 0 <= c < |s.channels| => AfterBroadcast(s, c, message)),
       log := s.log + [message],
       panics := s.panics + |set id | id in s.hosts && Clashes(s, id)|)
  }

  function Received(s: State, c: nat): State {
    if c < |s.channels| && s.channels[c].buffer != [] then
      var ch := s.channels[c];
      s.(channels := s.channels[c := ch.(buffer := ch.buffer[1..], delivered := ch.delivered + [ch.buffer[0]])])
    else s
  }

  function Step(s: State, e: Event): State {
    match e
    case Register(id) => Registered(s, id)
    case Deregister(id) => Deregistered(s, id)
    case Broadcast(message) => Broadcasted(s, message)
    case Receive(c) => Received(s, c)
  }

  function Run(s: State, events: seq<Event>): State {
    if events == [] then s else Step(Run(s, events[..|events| - 1]), events[|events| - 1])
  }

  /** Only a broadcast adds to the log, and only itself. */
  lemma StepLog(s: State, e: Event)
    ensures Step(s, e).log == if e.Broadcast? then s.log + [e.message] else s.log
  {
  }

  /** A channel's history moves only when its reader takes something. */
  lemma HistoryStays(s: State, e: Event, c: nat)
    requires c < |s.channels| && e != Receive(c)
    ensures var r := Step(s, e);
      |s.channels| <= |r.channels| && r.channels[c].start == s.channels[c].start
      && r.channels[c].delivered == s.channels[c].delivered
  {
    hide Clashes;
  }

  // ------------------------------------------------------------ what every run keeps

  function End(c: Channel): nat {
    c.start + |c.delivered| + |c.buffer|
  }

  /** What was delivered and what waits is a run of broadcasts from registration on. */
  ghost predicate Contiguous(c: Channel, log: seq<Message>) {
    && End(c) <= |log|
    && c.delivered + c.buffer == log[c.start..End(c)]
    && |c.buffer| <= BUFFER
  }

  ghost predicate Hosted(hosts: map<HostId, nat>, channels: seq<Channel>, log: seq<Message>) {
    && (forall id :: id in hosts ==>
          hosts[id] < |channels| && !channels[hosts[id]].closed && End(channels[hosts[id]]) == |log|)
    && (forall a, b :: a in hosts && b in hosts && a != b ==> hosts[a] != hosts[b])
  }

  ghost predicate Invariant(s: State) {
    && (forall c :: 0 <= c < |s.channels| ==> Contiguous(s.channels[c], s.log))
    && Hosted(s.hosts, s.channels, s.log)
    && s.panics == 0
  }

  lemma BroadcastContiguous(s: State, message: Message, c: nat)
    requires Invariant(s) && c < |s.channels|
    ensures Contiguous(AfterBroadcast(s, c, message), s.log + [message])
    ensures c in s.hosts.Values && !NoRoom(s.channels[c]) ==> End(AfterBroadcast(s, c, message)) == |s.log| + 1
  {
    var ch := s.channels[c];
    assert Contiguous(ch, s.log);
    if c in s.hosts.Values && !NoRoom(ch) {
      var id :| id in s.hosts && s.hosts[id] == c;
      assert End(ch) == |s.log|;
      assert ch.delivered + (ch.buffer + [message]) == (ch.delivered + ch.buffer) + [message];
      assert (s.log + [message])[ch.start..|s.log| + 1] == s.log[ch.start..] + [message];
      assert s.log[ch.start..|s.log|] == s.log[ch.start..];
    } else {
      assert (s.log + [message])[ch.start..End(ch)] == s.log[ch.start..End(ch)];
    }
  }

  lemma BroadcastIsSafe(s: State, message: Message)
    requires Invariant(s)
    ensures Broadcasted(s, message).panics == 0
  {
    assert (set id | id in s.hosts && Clashes(s, id)) == {};
  }

  lemma BroadcastHosted(s: State, message: Message)
    requires Invariant(s)
    ensures var r := Broadcasted(s, message); Hosted(r.hosts, r.channels, r.log)
  {
    hide Clashes;
    var r := Broadcasted(s, message);
    forall id | id in r.hosts
      ensures r.hosts[id] < |r.channels| && !r.channels[r.hosts[id]].closed && End(r.channels[r.hosts[id]]) == |r.log|
    {
      assert id in s.hosts.Keys && s.hosts[id] in s.hosts.Values;
      BroadcastContiguous(s, message, s.hosts[id]);
    }
  }

  lemma BroadcastKeeps(s: State, message: Message)
    requires Invariant(s)
    ensures Invariant(Broadcasted(s, message))
  {
    BroadcastIsSafe(s, message);
    BroadcastHosted(s, message);
    hide Clashes, Hosted, Contiguous;
    var r := Broadcasted(s, message);
    forall c | 0 <= c < |r.channels|
      ensures Contiguous(r.channels[c], r.log)
    {
      BroadcastContiguous(s, message, c);
    }
  }

  lemma RegisterKeeps(s: State, id: HostId)
    requires Invariant(s)
    ensures Invariant(Registered(s, id))
  {
  }

  lemma ReceiveKeeps(s: State, c: nat)
    requires Invariant(s)
    ensures Invariant(Received(s, c))
  {
    if c < |s.channels| && s.channels[c].buffer != [] {
      var ch := s.channels[c];
      assert Contiguous(ch, s.log);
      assert (ch.delivered + [ch.buffer[0]]) + ch.buffer[1..] == ch.delivered + ch.buffer;
    }
  }

  lemma StepKeeps(s: State, e: Event)
    requires Invariant(s)
    ensures Invariant(Step(s, e))
  {
    match e
    case Register(id) => RegisterKeeps(s, id);
    case Deregister(id) =>
    case Broadcast(message) => BroadcastKeeps(s, message);
    case Receive(c) => ReceiveKeeps(s, c);
  }

  lemma InitHolds()
    ensures Invariant(Init())
  {
  }

  lemma {:induction false} RunKeeps(events: seq<Event>)
    ensures Invariant(Run(Init(), events))
    decreases |events|
  {
    hide Invariant, Step;
    if events == [] {
      InitHolds();
    } else {
      RunKeeps(events[..|events| - 1]);
      StepKeeps(Run(Init(), events[..|events| - 1]), events[|events| - 1]);
    }
  }

  // ------------------------------------------------------------ theorems

  /**
    Gap-free channels: whatever hosts do, a channel holds and has delivered one contiguous run of
    broadcasts from its registration; a registered one is open and complete; nothing is ever sent
    to or closed twice on a closed channel.
   */
  lemma ChannelsAreGapFree(events: seq<Event>)
    ensures var s := Run(Init(), events);
      && s.panics == 0
      && (forall c :: 0 <= c < |s.channels| ==> Contiguous(s.channels[c], s.log))
      && (forall id :: id in s.hosts ==>
            s.hosts[id] < |s.channels| && !s.channels[s.hosts[id]].closed && End(s.channels[s.hosts[id]]) == |s.log|)
  {
    RunKeeps(events);
  }

  /** A channel nobody is registered on. */
  ghost predicate Left(s: State, c: nat) {
    c < |s.channels| && c !in s.hosts.Values
  }

  lemma LeftStays(s: State, c: nat, e: Event)
    requires Invariant(s) && Left(s, c)
    ensures Left(Step(s, e), c) && End(Step(s, e).channels[c]) == End(s.channels[c])
    ensures Step(s, e).channels[c].closed == s.channels[c].closed
  {
  }

  /**
    A run that ended stays ended: once no host is registered on a channel (a full buffer, a
    deregistration, or a re-registration under the same id) it gets nothing more, and one orphaned
    by re-registration is never closed.
   */
  lemma {:induction false} EndedRunsStayEnded(s: State, c: nat, events: seq<Event>)
    requires Invariant(s) && Left(s, c)
    ensures var r := Run(s, events);
      Invariant(r) && Left(r, c) && End(r.channels[c]) == End(s.channels[c])
        && r.channels[c].closed == s.channels[c].closed
    decreases |events|
  {
    hide Invariant, Step, Left;
    if events != [] {
      EndedRunsStayEnded(s, c, events[..|events| - 1]);
      var r := Run(s, events[..|events| - 1]);
      LeftStays(r, c, events[|events| - 1]);
      StepKeeps(r, events[|events| - 1]);
    }
  }

  /** A deregistration closes the host's channel, with all it holds, and touches nothing else. */
  lemma DeregistrationCloses(s: State, id: HostId)
    requires Invariant(s)
    ensures var r := Step(s, Deregister(id));
      && id !in r.hosts && r.hosts == s.hosts - {id} && |r.channels| == |s.channels| && r.log == s.log
      && (forall c :: 0 <= c < |s.channels| ==>
            r.channels[c] ==
              if id in s.hosts && c == s.hosts[id] then s.channels[c].(closed := true) else s.channels[c])
      && (id in s.hosts ==> !s.channels[s.hosts[id]].closed && Left(r, s.hosts[id]))
  {
    if id !in s.hosts {
      assert s.hosts - {id} == s.hosts;
    }
  }

  /** A full buffer ends the run: the host is dropped and its channel closed, with nothing skipped. */
  lemma FullBufferEndsRun(s: State, id: HostId, message: Message)
    requires Invariant(s) && id in s.hosts
    ensures var r := Step(s, Broadcast(message)); var c := s.hosts[id];
      if |s.channels[c].buffer| == BUFFER
      then
        id !in r.hosts && Left(r, c) && r.channels[c] == s.channels[c].(closed := true)
      else
        && id in r.hosts && r.hosts[id] == c
        && r.channels[c] == s.channels[c].(buffer := s.channels[c].buffer + [message])
  {
  }

  // ------------------------------------------------------------ the store as written

  function Offered(c: Channel, message: Message): Channel {
    if NoRoom(c) then c else c.(buffer := c.buffer + [message])
  }

  function ChannelsOf(hosts: map<HostId, nat>, ids: set<HostId>): set<nat> {
    set id | id in ids && id in hosts :: hosts[id]
  }

  const VERSIONS := 0x1_0000_0000_0000_0000

  class Store {
    var configs: map<AppId, ApplicationConfig>
    var hosts: map<HostId, nat>
    var channels: seq<Channel>
    var version: nat
    var log: seq<Message>   // history

    ghost function View(): State
      reads this
    {
      State(hosts, channels, log, 0)
    }

    constructor ()
      ensures View() == Init() && configs == map[] && version == 0
    {
      configs, hosts, channels, version, log := map[], map[], [], 0, [];
    }

    /** True on a material change; only then does the version move. */
    method Set(key: AppId, cfg: ApplicationConfig) returns (changed: bool)
      modifies `configs, `version
      ensures changed <==> configs != old(configs)
      ensures configs == old(configs)[key := cfg]
      ensures version == if changed then (old(version) + 1) % VERSIONS else old(version)
    {
      if key in configs && configs[key] == cfg {
        assert configs[key := cfg] == configs;
        return false;
      }
      ghost var before := configs;
      configs := configs[key := cfg];
      assert key in configs && (key !in before || before[key] != configs[key]);
      version := (version + 1) % VERSIONS;
      return true;
    }

    method Delete(key: AppId)
      modifies `configs, `version
      ensures configs == old(configs) - {key} && version == (old(version) + 1) % VERSIONS
    {
      configs := configs - {key};
      version := (version + 1) % VERSIONS;
    }

    /** Each stored configuration once, in some order. */
    method Snapshot() returns (out: seq<ApplicationConfig>)
      ensures |out| == |configs| && Elements(out) == configs.Values
    {
      out := [];
      var rest := configs.Keys;
      while rest != {}
        invariant rest <= configs.Keys && |out| + |rest| == |configs.Keys|
        invariant Elements(out) == set k | k in configs && k !in rest :: configs[k]
        decreases rest
      {
        var k :| k in rest;
        ElementsGrow(out, configs[k]);
        out := out + [configs[k]];
        rest := rest - {k};
      }
      assert |configs| == |configs.Keys|;
    }

    method RegisterHost(id: HostId) returns (c: nat)
      modifies `hosts, `channels
      ensures View() == Registered(old(View()), id) && c == |old(channels)|
      ensures hosts == old(hosts)[id := c] && channels == old(channels) + [Channel([], false, |log|, [])]
    {
      c := |channels|;
      channels := channels + [Channel([], false, |log|, [])];
      hosts := hosts[id := c];
    }

    method DeregisterHost(id: HostId)
      requires Invariant(View())
      modifies `hosts, `channels
      ensures View() == Deregistered(old(View()), id)
      ensures hosts == old(hosts) - {id} && |channels| == |old(channels)|
      ensures forall c :: 0 <= c < |channels| ==>
        channels[c] ==
          if id in old(hosts) && c == old(hosts)[id] then old(channels)[c].(closed := true) else old(channels)[c]
    {
      if id in hosts {
        var c := hosts[id];
        hosts := hosts - {id};
        assert !channels[c].closed;
        channels := channels[c := channels[c].(closed := true)];
      } else {
        assert hosts - {id} == hosts;
      }
    }

    /** Two passes: send without blocking, remembering the slow; then drop and close the slow. */
    method BroadcastUpdate(message: Message)
      requires Invariant(View())
      modifies `hosts, `channels, `log
      ensures View() == Broadcasted(old(View()), message)
    {
      ghost var s := View();
      BroadcastIsSafe(s, message);
      hide Clashes;
      log := log + [message];
      var slow := FanOut(message);
      DropSlow(slow);
      assert hosts == Broadcasted(s, message).hosts;
      assert ChannelsOf(s.hosts, s.hosts.Keys) == s.hosts.Values;
      forall c | 0 <= c < |channels|
        ensures channels[c] == AfterBroadcast(s, c, message)
      {
        if c in s.hosts.Values {
          var id :| id in s.hosts && s.hosts[id] == c;
          assert c in ChannelsOf(s.hosts, slow) <==> id in slow;
        }
      }
    }

    method DropSlow(slow: set<HostId>)
      requires slow <= hosts.Keys
      requires forall id :: id in hosts ==> hosts[id] < |channels| && !channels[hosts[id]].closed
      requires forall a, b :: a in hosts && b in hosts && a != b ==> hosts[a] != hosts[b]
      modifies `hosts, `channels
      ensures hosts == old(hosts) - slow && |channels| == |old(channels)|
      ensures forall c :: 0 <= c < |channels| ==>
        channels[c] == if c in ChannelsOf(old(hosts), slow) then old(channels)[c].(closed := true) else old(channels)[c]
    {
      ghost var ids, was := hosts, channels;
      var rest, gone := slow, {};
      while rest != {}
        invariant rest + gone == slow && rest !! gone && hosts == ids - gone && |channels| == |was|
        invariant forall c :: 0 <= c < |channels| ==>
          channels[c] == if c in ChannelsOf(ids, gone) then was[c].(closed := true) else was[c]
        decreases rest
      {
        var id :| id in rest;
        var c := hosts[id];
        assert c !in ChannelsOf(ids, gone);
        assert !channels[c].closed;
        assert ChannelsOf(ids, gone + {id}) == ChannelsOf(ids, gone) + {c};
        hosts := hosts - {id};
        channels := channels[c := channels[c].(closed := true)];
        rest, gone := rest - {id}, gone + {id};
      }
    }

    method FanOut(message: Message) returns (slow: set<HostId>)
      requires forall id :: id in hosts ==> hosts[id] < |channels| && !channels[hosts[id]].closed
      requires forall a, b :: a in hosts && b in hosts && a != b ==> hosts[a] != hosts[b]
      modifies `channels
      ensures slow == set id | id in hosts && NoRoom(old(channels)[hosts[id]])
      ensures |channels| == |old(channels)|
      ensures forall c :: 0 <= c < |channels| ==>
        channels[c] == if c in ChannelsOf(hosts, hosts.Keys) then Offered(old(channels)[c], message)
          else old(channels)[c]
    {
      slow := {};
      var rest, done := hosts.Keys, {};
      ghost var was := channels;
      while rest != {}
        invariant rest + done == hosts.Keys && rest !! done && |channels| == |was|
        invariant slow == set id | id in done && NoRoom(was[hosts[id]])
        invariant forall c :: 0 <= c < |channels| ==>
          channels[c] == if c in ChannelsOf(hosts, done) then Offered(was[c], message) else was[c]
        decreases rest
      {
        var id :| id in rest;
        var c := hosts[id];
        assert c !in ChannelsOf(hosts, done);
        assert ChannelsOf(hosts, done + {id}) == ChannelsOf(hosts, done) + {c};
        if |channels[c].buffer| < BUFFER {
          channels := channels[c := channels[c].(buffer := channels[c].buffer + [message])];
        } else {
          slow := slow + {id};
        }
        rest, done := rest - {id}, done + {id};
      }
    }
  }
}
