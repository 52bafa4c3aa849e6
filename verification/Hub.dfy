// The hub as the program holds it: maps updated in place, broadcasts and the watchdog sweep as loops
// over them in whatever order the maps yield. Each method runs alone, as it does under the write lock.
module HubClass {
  import opened Common
  import opened HubCore
  import opened HubProtocol
  import opened HubProofs

  // The channels `cs` after one offer each.
  function Offered(chans: Chans, cs: set<ChanId>, env: Envelope): Chans {
    map c | c in chans :: if c in cs then Offer(chans[c], env) else chans[c]
  }

  function ChansOf(users: set<Uuid>, sessions: map<Uuid, ClientSession>): set<ChanId> {
    set u | u in users && u in sessions :: sessions[u].chan
  }

  // A broadcast made at once: every client of the organization is offered the message, once.
  function AfterBroadcast(core: Core, env: Envelope): Core {
    core.(chans := Offered(core.chans, ChansOf(Targets(core, env), ClientsOf(core.clients, env.org)), env))
  }

  function AfterRemoval(core: Core, d: Uuid, at: Time, timedOut: bool): Core {
    if d in core.agents
    then AfterBroadcast(DropAgent(core, d), OfflineMessage(core.agents[d], at, timedOut))
    else core
  }

  // Removing the agents `gone` one after the other.
  function AfterSweep(core: Core, gone: seq<Uuid>, now: Time): Core {
    if gone == [] then core
    else AfterRemoval(AfterSweep(core, gone[..|gone| - 1], now), gone[|gone| - 1], now, true)
  }

  // Visiting one more client: its channel is open and has not been offered the message yet.
  lemma OfferedOneMore(clients: Clients, owner: Owners, chans: Chans, org: Uuid, users: set<Uuid>, u: Uuid,
                       env: Envelope)
    requires ClosedInv(chans, owner) && ClientsInv(clients, owner, chans)
    requires org in clients && u in clients[org] && users <= clients[org].Keys && u !in users
    ensures var c := clients[org][u].chan;
      var before := Offered(chans, ChansOf(users, clients[org]), env);
      c in before && before[c] == chans[c] && !chans[c].closed
      && Offered(chans, ChansOf(users + {u}, clients[org]), env) == before[c := Offer(chans[c], env)]
  {
    var sessions := clients[org];
    forall v | v in sessions
      ensures ClientOk(sessions[v], org, v, owner, chans)
    {
    }
    var cs := ChansOf(users, sessions);
    assert sessions[u].chan !in cs;
    assert ChansOf(users + {u}, sessions) == cs + {sessions[u].chan};
  }

  lemma OfferedNobody(chans: Chans, sessions: map<Uuid, ClientSession>, env: Envelope)
    ensures Offered(chans, ChansOf({}, sessions), env) == chans
  {
  }

  // Offered(...) says what it should: see Reached.
  lemma OfferedReaches(clients: Clients, owner: Owners, start: Chans, env: Envelope)
    requires ClosedInv(start, owner) && ClientsInv(clients, owner, start)
    ensures var after := Offered(start, ChansOf(Visits(clients, env), ClientsOf(clients, env.org)), env);
      if env.msg.event.Custom? && env.msg.event.data.None? then after == start
      else Reached(clients, start, after, env.org, env.msg)
  {
    var sessions := ClientsOf(clients, env.org);
    forall u | u in sessions
      ensures ClientOk(sessions[u], env.org, u, owner, start)
    {
    }
    if !(env.msg.event.Custom? && env.msg.event.data.None?) {
      forall u | u in sessions
        ensures sessions[u].chan in ChansOf(Visits(clients, env), sessions)
      {
      }
    }
  }

  // What the hub keeps between operations.
  ghost predicate Sound(core: Core, owner: Owners) {
    && !core.panicked
    && Owned(core.agents, core.clients, map[], owner, core.chans)
    && NoEmptyOrg(core.clients)
  }

  lemma OfferedOwned(agents: Agents, clients: Clients, owner: Owners, chans: Chans, cs: set<ChanId>, env: Envelope)
    requires Owned(agents, clients, map[], owner, chans)
    ensures Owned(agents, clients, map[], owner, Offered(chans, cs, env))
  {
    ClientsReowned(clients, owner, owner, chans, Offered(chans, cs, env), {});
  }

  lemma BroadcastSound(core: Core, owner: Owners, env: Envelope)
    requires Sound(core, owner)
    ensures Sound(AfterBroadcast(core, env), owner)
  {
    OfferedOwned(core.agents, core.clients, owner, core.chans,
                 ChansOf(Targets(core, env), ClientsOf(core.clients, env.org)), env);
  }

  lemma MakeChanSound(core: Core, owner: Owners, c: ChanId, home: Uuid, cap: nat)
    requires Sound(core, owner) && c !in core.chans
    ensures Sound(core.(chans := core.chans[c := NewChannel(home, cap)]), owner[c := PendingOf(0)])
  {
    OpenOwned(core.agents, core.clients, map[], owner, core.chans, 0, UnregisterAgent(NIL), c, NewChannel(home, cap));
    PassOwned(core.agents, core.clients, map[0 := Waiting(UnregisterAgent(NIL))], owner[c := PendingOf(0)],
              core.chans[c := NewChannel(home, cap)], 0, Reading(Quiet));
    assert map[0 := Waiting(UnregisterAgent(NIL))] - {0} == map[];
  }

  lemma AddAgentSound(core: Core, owner: Owners, a: AgentSession, now: Time)
    requires Sound(core, owner) && OwnedBy(owner, a.chan, PendingOf(0))
    ensures Sound(AddAgent(core, a, now), OwnersAfterAgent(core.agents, owner, a))
  {
    AddAgentOwned(core.agents, core.clients, map[], owner, core.chans, 0, a.(lastHeartbeat := now));
  }

  lemma DropAgentSound(core: Core, owner: Owners, d: Uuid)
    requires Sound(core, owner) && d in core.agents
    ensures var c := core.agents[d].chan;
      c in core.chans && !core.chans[c].closed && Sound(DropAgent(core, d), owner[c := Closed])
  {
    DropAgentOwned(core.agents, core.clients, map[], owner, core.chans, d);
  }

  lemma AddClientSound(core: Core, owner: Owners, c: ClientSession)
    requires Sound(core, owner) && OwnedBy(owner, c.chan, PendingOf(0)) && IsHome(core.chans, c.chan, c.org)
    ensures Sound(AddClient(core, c), OwnersAfterClient(core.clients, owner, c))
  {
    AddClientOwned(core.agents, core.clients, map[], owner, core.chans, 0, c);
    assert c.user in AddClient(core, c).clients[c.org];
  }

  lemma DropClientSound(core: Core, owner: Owners, org: Uuid, user: Uuid)
    requires Sound(core, owner)
    ensures var found := ClientsOf(core.clients, org);
      if user in found
      then found[user].chan in core.chans && !core.chans[found[user].chan].closed
           && Sound(DropClient(core, org, user), owner[found[user].chan := Closed])
      else DropClient(core, org, user) == core
  {
    if org in core.clients {
      if user in core.clients[org] {
        DropClientOwned(core.agents, core.clients, map[], owner, core.chans, org, user);
      } else {
        AbsentClient(core.clients, org, user);
      }
    }
  }

  // The loop of broadcastToOrgLocked over the clients of the organization, in any order.
  method OfferEach(clients: Clients, start: Chans, env: Envelope, ghost owner: Owners)
    returns (chans: Chans, panicked: bool)
    requires ClosedInv(start, owner) && ClientsInv(clients, owner, start)
    ensures !panicked
    ensures chans == Offered(start, ChansOf(Visits(clients, env), ClientsOf(clients, env.org)), env)
    ensures if env.msg.event.Custom? && env.msg.event.data.None? then chans == start
            else Reached(clients, start, chans, env.org, env.msg)
  {
    chans, panicked := start, false;
    OfferedNobody(start, ClientsOf(clients, env.org), env);
    if Marshals(env.msg) && env.org in clients {
      var sessions := clients[env.org];
      var todo := sessions.Keys;
      while todo != {}
        invariant todo <= sessions.Keys
        invariant chans == Offered(start, ChansOf(sessions.Keys - todo, sessions), env)
        invariant !panicked
        decreases todo
      {
        var user :| user in todo;
        OfferedOneMore(clients, owner, start, env.org, sessions.Keys - todo, user, env);
        assert sessions.Keys - (todo - {user}) == sessions.Keys - todo + {user};
        var c := sessions[user].chan;
        if chans[c].closed {
          panicked := true;
        } else {
          chans := chans[c := Offer(chans[c], env)];
        }
        todo := todo - {user};
      }
      assert sessions.Keys - todo == sessions.Keys;
    }
    OfferedReaches(clients, owner, start, env);
  }

  lemma DropClientEffect(core: Core, owner: Owners, org: Uuid, user: Uuid)
    requires Sound(core, owner)
    ensures SameBut(core.clients, DropClient(core, org, user).clients, org, user)
    ensures if org in core.clients && user in core.clients[org]
            then var c := core.clients[org][user].chan;
                 c in core.chans && DropClient(core, org, user).chans == core.chans[c := ClosedOnce(core.chans[c])]
            else DropClient(core, org, user).chans == core.chans
  {
    DropClientSound(core, owner, org, user);
    if org in core.clients { LeavesOthers(core.clients, org, user); }
  }

  // The client is gone and all others are as they were.
  ghost predicate SameBut(clients: Clients, clients': Clients, org: Uuid, user: Uuid) {
    && (forall o, u :: (o in clients' && u in clients'[o]) <==>
          (o in clients && u in clients[o] && !(o == org && u == user)))
    && (forall o, u :: o in clients' && u in clients'[o] && o in clients && u in clients[o] ==>
          clients'[o][u] == clients[o][u])
  }

  lemma LeavesOthers(clients: Clients, org: Uuid, user: Uuid)
    requires org in clients
    ensures SameBut(clients, WithoutClient(clients, org, user), org, user)
  {
    var rest := clients[org] - {user};
    forall o, u
      ensures var clients' := WithoutClient(clients, org, user);
        (o in clients' && u in clients'[o]) <==> (o in clients && u in clients[o] && !(o == org && u == user))
    {
      if o == org { assert u in rest <==> u in clients[org] && u != user; }
    }
  }

  // The session is there under its organization and user, and all others are as they were.
  ghost predicate JoinedBy(clients: Clients, clients': Clients, session: ClientSession) {
    && session.org in clients' && session.user in clients'[session.org]
    && clients'[session.org][session.user] == session
    && (forall o, u :: !(o == session.org && u == session.user) ==>
          ((o in clients' && u in clients'[o]) <==> (o in clients && u in clients[o])))
    && (forall o, u :: o in clients' && u in clients'[o] && !(o == session.org && u == session.user) ==>
          o in clients && u in clients[o] && clients'[o][u] == clients[o][u])
  }

  lemma AddsOnly(core: Core, session: ClientSession)
    ensures JoinedBy(core.clients, AddClient(core, session).clients, session)
  {
  }

  // The channel closed.
  function ClosedOnce(ch: Channel): Channel {
    ch.(closed := true, closes := ch.closes + 1)
  }

  // Agent d has left: its channel is closed, the log says so, and every client of its organization has been told
  // once which agent it was and whether its time had run out.
  ghost predicate Announced(core: Core, core': Core, d: Uuid, at: Time, timedOut: bool) {
    && d in core.agents && core'.agents == core.agents - {d} && core'.clients == core.clients
    && core'.presence == core.presence + [Presence(d, false)] && !core'.panicked
    && var gone := core.agents[d];
       gone.chan in core.chans
       && Reached(core.clients, core.chans[gone.chan := ClosedOnce(core.chans[gone.chan])], core'.chans, gone.org,
                  Message(DeviceOffline(d, gone.hostname, timedOut), gone.org, at))
  }

  lemma RemovalAnnounced(core: Core, owner: Owners, d: Uuid, at: Time, timedOut: bool)
    requires Sound(core, owner) && d in core.agents
    ensures Announced(core, AfterRemoval(core, d, at, timedOut), d, at, timedOut)
  {
    var c, dropped := core.agents[d].chan, DropAgent(core, d);
    DropAgentSound(core, owner, d);
    OfferedReaches(core.clients, owner[c := Closed], dropped.chans, OfflineMessage(core.agents[d], at, timedOut));
  }

  // Every client has been told of exactly the agents of its organization that are gone, in order.
  ghost predicate ToldOf(clients: Clients, before: Chans, after: Chans, gone: seq<Uuid>, agents: Agents, at: Time) {
    forall o, u :: o in clients && u in clients[o] ==>
      var c := clients[o][u].chan;
      c in before && c in after && Heard(after[c]) == Heard(before[c]) + News(gone, agents, o, at)
  }

  // What that means for one client: it is told if it is of the organization, and only then.
  lemma ToldOnce(core: Core, core': Core, owner: Owners, d: Uuid, at: Time, o: Uuid, u: Uuid)
    requires Announced(core, core', d, at, true) && ClientsInv(core.clients, owner, core.chans)
    requires o in core.clients && u in core.clients[o]
    ensures var c, gone := core.clients[o][u].chan, core.agents[d];
      && c in core.chans && c in core'.chans
      && Heard(core'.chans[c])
         == Heard(core.chans[c])
            + if gone.org == o then [Envelope(o, Message(DeviceOffline(d, gone.hostname, true), o, at))] else []
  {
    var c, gone := core.clients[o][u].chan, core.agents[d];
    assert ClientOk(core.clients[o][u], o, u, owner, core.chans);
    if gone.org != o {
      forall v | gone.org in core.clients && v in core.clients[gone.org]
        ensures core.clients[gone.org][v].chan != c
      {
        assert ClientOk(core.clients[gone.org][v], gone.org, v, owner, core.chans);
      }
    }
  }

  lemma ToldOneMore(start: Core, core: Core, core': Core, owner: Owners, gone: seq<Uuid>, d: Uuid, at: Time)
    requires ClientsInv(core.clients, owner, core.chans)
    requires core.clients == start.clients && ToldOf(start.clients, start.chans, core.chans, gone, start.agents, at)
    requires Announced(core, core', d, at, true) && d in start.agents && start.agents[d] == core.agents[d]
    ensures ToldOf(start.clients, start.chans, core'.chans, gone + [d], start.agents, at)
  {
    assert (gone + [d])[..|gone|] == gone;
    forall o, u | o in start.clients && u in start.clients[o]
      ensures var c := start.clients[o][u].chan;
        c in core'.chans && Heard(core'.chans[c]) == Heard(start.chans[c]) + News(gone + [d], start.agents, o, at)
    {
      ToldOnce(core, core', owner, d, at, o, u);
      var c := start.clients[o][u].chan;
      Assoc(Heard(start.chans[c]), News(gone, start.agents, o, at),
            if start.agents[d].org == o
            then [Envelope(o, Message(DeviceOffline(d, start.agents[d].hostname, true), o, at))] else []);
    }
  }

  // What a sweep from `start` has done once only `todo` is left to examine.
  ghost predicate WatchInv(core: Core, start: Core, todo: set<Uuid>, gone: seq<Uuid>, now: Time, ttl: Time) {
    && core == AfterSweep(start, gone, now) && core.clients == start.clients
    && SweepOk(Sweep(now, todo, start.agents, start.presence, gone), core.agents, core.presence, now, ttl)
    && ToldOf(start.clients, start.chans, core.chans, gone, start.agents, now)
  }

  lemma WatchStep(core: Core, owner: Owners, start: Core, todo: set<Uuid>, gone: seq<Uuid>, now: Time, ttl: Time,
                  d: Uuid)
    requires Sound(core, owner) && WatchInv(core, start, todo, gone, now, ttl) && d in todo
    ensures d in core.agents
    ensures if Stale(core.agents[d], now, ttl)
            then WatchInv(AfterRemoval(core, d, now, true), start, todo - {d}, gone + [d], now, ttl)
            else WatchInv(core, start, todo - {d}, gone, now, ttl)
  {
    SweepStep(Sweep(now, todo, start.agents, start.presence, gone), core.agents, core.presence, now, ttl, d);
    assert (gone + [d])[..|gone|] == gone;
    if Stale(core.agents[d], now, ttl) {
      RemovalAnnounced(core, owner, d, now, true);
      ToldOneMore(start, core, AfterRemoval(core, d, now, true), owner, gone, d, now);
    }
  }

  lemma WatchDone(core: Core, start: Core, gone: seq<Uuid>, now: Time, ttl: Time)
    requires WatchInv(core, start, {}, gone, now, ttl)
    ensures core.agents == map d | d in start.agents && now - start.agents[d].lastHeartbeat <= ttl :: start.agents[d]
    ensures core.presence == start.presence + OfflineEvents(gone)
    ensures forall d :: d in gone <==> d in start.agents && now - start.agents[d].lastHeartbeat > ttl
    ensures forall i, j :: 0 <= i < j < |gone| ==> gone[i] != gone[j]
  {
  }

  class Hub {
    const heartbeatTTL: Time
    var agents: map<Uuid, AgentSession>
    var clients: Clients
    var chans: map<ChanId, Channel>   // every channel made so far
    var presence: seq<Presence>
    var panicked: bool
    ghost var owner: Owners

    function Core(): Core
      reads this
    {
      HubCore.Core(agents, clients, chans, presence, panicked)
    }

    ghost predicate Valid()
      reads this
    {
      && 0 < heartbeatTTL
      && Sound(Core(), owner)
    }

    constructor (ttl: Time)
      ensures Valid() && Core() == HubCore.Core(map[], map[], map[], [], false)
      ensures heartbeatTTL == if ttl <= 0 then 45 * SECOND else ttl
    {
      heartbeatTTL := if ttl <= 0 then 45 * SECOND else ttl;
      agents, clients, chans, presence, panicked := map[], map[], map[], [], false;
      owner := map[];
    }

    method BroadcastToOrgLocked(org: Uuid, msg: Message)
      requires Valid()
      modifies this`chans, this`panicked
      ensures Valid() && Core() == AfterBroadcast(old(Core()), Envelope(org, msg))
      ensures if msg.event.Custom? && msg.event.data.None? then chans == old(chans)
              else Reached(clients, old(chans), chans, org, msg)
      ensures !panicked
    {
      BroadcastSound(Core(), owner, Envelope(org, msg));
      chans, panicked := OfferEach(clients, chans, Envelope(org, msg), owner);
    }

    // `make(chan []byte, cap)`, for a session about to be registered.
    method MakeChan(c: ChanId, home: Uuid, cap: nat)
      requires Valid() && c !in chans
      modifies this`chans, this`owner
      ensures Valid() && owner == old(owner)[c := PendingOf(0)]
      ensures Core() == old(Core()).(chans := old(chans)[c := NewChannel(home, cap)])
    {
      MakeChanSound(Core(), owner, c, home, cap);
      chans := chans[c := NewChannel(home, cap)];
      owner := owner[c := PendingOf(0)];
    }

    method RegisterAgent(session: AgentSession, now: Time)
      requires Valid() && OwnedBy(owner, session.chan, PendingOf(0))
      modifies this
      ensures Valid()
      ensures Core() == AfterBroadcast(AddAgent(old(Core()), session, now), OnlineMessage(session, now))
      ensures agents == old(agents)[session.device := session.(lastHeartbeat := now)]
      ensures clients == old(clients) && presence == old(presence) + [Presence(session.device, true)]
      ensures Reached(clients, old(chans), chans, session.org,
                      Message(DeviceOnline(session.device, session.hostname), session.org, now))
    {
      AddAgentSound(Core(), owner, session, now);
      owner := OwnersAfterAgent(agents, owner, session);
      agents := agents[session.device := session.(lastHeartbeat := now)];
      presence := presence + [Presence(session.device, true)];
      BroadcastToOrgLocked(session.org, OnlineMessage(session, now).msg);
    }

    // Deleting a registered agent, closing its channel and announcing it, as UnregisterAgent and the
    // watchdog both do.
    method RemoveAgent(device: Uuid, at: Time, timedOut: bool)
      requires Valid() && device in agents
      modifies this
      ensures Valid() && Core() == AfterRemoval(old(Core()), device, at, timedOut)
      ensures Announced(old(Core()), Core(), device, at, timedOut)
    {
      var session := agents[device];
      RemovalAnnounced(Core(), owner, device, at, timedOut);
      DropAgentSound(Core(), owner, device);
      owner := owner[session.chan := Closed];
      agents := agents - {device};
      chans := chans[session.chan := Close(chans[session.chan])];
      presence := presence + [Presence(device, false)];
      BroadcastToOrgLocked(session.org, OfflineMessage(session, at, timedOut).msg);
    }

    method UnregisterAgent(device: Uuid, now: Time)
      requires Valid()
      modifies this
      ensures Valid() && Core() == AfterRemoval(old(Core()), device, now, false)
      ensures if device in old(agents) then Announced(old(Core()), Core(), device, now, false)
              else Core() == old(Core())
    {
      if device in agents {
        RemoveAgent(device, now, false);
      }
    }

    method RecordHeartbeat(device: Uuid, now: Time)
      requires Valid()
      modifies this`agents
      ensures Valid() && Core() == Beat(old(Core()), device, now)
      ensures agents == if device in old(agents) then old(agents)[device := old(agents)[device].(lastHeartbeat := now)]
                        else old(agents)
    {
      if device in agents {
        BeatOwned(agents, clients, map[], owner, chans, device, now);
        agents := agents[device := agents[device].(lastHeartbeat := now)];
      }
    }

    method RegisterClient(session: ClientSession)
      requires Valid() && OwnedBy(owner, session.chan, PendingOf(0)) && IsHome(chans, session.chan, session.org)
      modifies this`clients, this`owner
      ensures Valid() && Core() == AddClient(old(Core()), session)
      ensures JoinedBy(old(clients), clients, session)
    {
      AddsOnly(Core(), session);
      AddClientSound(Core(), owner, session);
      owner := OwnersAfterClient(clients, owner, session);
      var orgClients := if session.org in clients then clients[session.org] else map[];
      clients := clients[session.org := orgClients[session.user := session]];
    }

    method UnregisterClient(org: Uuid, user: Uuid)
      requires Valid()
      modifies this`clients, this`chans, this`owner
      ensures Valid() && Core() == DropClient(old(Core()), org, user)
      ensures SameBut(old(clients), clients, org, user)
      ensures if org in old(clients) && user in old(clients)[org]
              then var c := old(clients)[org][user].chan;
                   c in old(chans) && chans == old(chans)[c := ClosedOnce(old(chans)[c])]
              else chans == old(chans)
    {
      DropClientSound(Core(), owner, org, user);
      DropClientEffect(Core(), owner, org, user);
      if org in clients {
        var orgClients := clients[org];
        if user in orgClients {
          var c := orgClients[user].chan;
          owner := owner[c := Closed];
          orgClients := orgClients - {user};
          chans := chans[c := Close(chans[c])];
        }
        clients := if orgClients == map[] then clients - {org} else clients[org := orgClients];
      }
    }

    method BroadcastTelemetry(org: Uuid, device: Uuid, data: string, now: Time)
      requires Valid()
      modifies this
      ensures Valid()
      ensures Core() == AfterBroadcast(Beat(old(Core()), device, now),
                                       Envelope(org, Message(Custom("device.telemetry", Some(data)), org, now)))
      ensures agents == if device in old(agents) then old(agents)[device := old(agents)[device].(lastHeartbeat := now)]
                        else old(agents)
      ensures clients == old(clients) && presence == old(presence)
      ensures Reached(clients, old(chans), chans, org, Message(Custom("device.telemetry", Some(data)), org, now))
    {
      RecordHeartbeat(device, now);
      BroadcastToOrgLocked(org, Message(Custom("device.telemetry", Some(data)), org, now));
    }

    // One tick of the watchdog: the agents left are exactly those heard from within the TTL; the others have
    // been removed and announced one by one, in an order the map chose.
    method Watch(now: Time) returns (ghost gone: seq<Uuid>)
      requires Valid()
      modifies this
      ensures Valid() && Core() == AfterSweep(old(Core()), gone, now)
      ensures agents == map d | d in old(agents) && now - old(agents)[d].lastHeartbeat <= heartbeatTTL
                          :: old(agents)[d]
      ensures presence == old(presence) + OfflineEvents(gone)
      ensures forall d :: d in gone <==> d in old(agents) && now - old(agents)[d].lastHeartbeat > heartbeatTTL
      ensures forall i, j :: 0 <= i < j < |gone| ==> gone[i] != gone[j]
      ensures clients == old(clients) && ToldOf(clients, old(chans), chans, gone, old(agents), now)
    {
      gone := [];
      var todo := agents.Keys;
      while todo != {}
        invariant Valid() && WatchInv(Core(), old(Core()), todo, gone, now, heartbeatTTL)
        decreases todo
      {
        var device :| device in todo;
        WatchStep(Core(), owner, old(Core()), todo, gone, now, heartbeatTTL, device);
        if now - agents[device].lastHeartbeat > heartbeatTTL {
          RemoveAgent(device, now, true);
          gone := gone + [device];
        }
        todo := todo - {device};
      }
      WatchDone(Core(), old(Core()), gone, now, heartbeatTTL);
    }
  }
}
