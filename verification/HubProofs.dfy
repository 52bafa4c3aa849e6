// Every step of the hub protocol keeps its invariant; what follows for whole runs.
module HubProofs {
  import opened Common
  import opened HubCore
  import opened HubProtocol

  lemma LockKept(s: State, e: Step)
    requires LockInv(s.threads, s.readers, s.writer) && Enabled(s, e)
    ensures var s' := Apply(s, e); LockInv(s'.threads, s'.readers, s'.writer)
  {
  }

  // Nobody else is inside the hub when the write lock is taken.
  lemma SendsKeptByLockWrite(s: State, t: Tid)
    requires LockInv(s.threads, s.readers, s.writer) && Enabled(s, LockWrite(t))
    ensures var s' := ApplyLockWrite(s, t); SendsInv(s'.threads, s'.core.clients)
  {
  }

  lemma SendsKept(s: State, e: Step)
    requires LockInv(s.threads, s.readers, s.writer) && SendsInv(s.threads, s.core.clients) && Enabled(s, e)
    ensures var s' := Apply(s, e); SendsInv(s'.threads, s'.core.clients)
  {
    match e
    case LockWrite(t) => SendsKeptByLockWrite(s, t);
    case _ =>
  }

  // A completed sweep leaves nobody who had been silent for longer than the TTL at its tick.
  lemma TimeKeptByUnlock(s: State, t: Tid)
    requires TimeInv(s.core.agents, s.clock, s.ttl, s.lastTick)
    requires SweepInv(s.threads, s.core.agents, s.core.presence, s.clock, s.ttl) && Enabled(s, Unlock(t))
    ensures var s' := ApplyUnlock(s, t); TimeInv(s'.core.agents, s'.clock, s'.ttl, s'.lastTick)
  {
    var pc := s.threads[t];
    if pc.Writing? && pc.sweep.Sweep? {
      assert SweepOk(pc.sweep, s.core.agents, s.core.presence, s.clock, s.ttl);
      assert forall d :: d in s.core.agents ==> !Stale(s.core.agents[d], pc.sweep.now, s.ttl);
    }
  }

  lemma TimeKeptByLockWrite(s: State, t: Tid)
    requires TimeInv(s.core.agents, s.clock, s.ttl, s.lastTick) && Enabled(s, LockWrite(t))
    ensures var s' := ApplyLockWrite(s, t); TimeInv(s'.core.agents, s'.clock, s'.ttl, s'.lastTick)
  {
    match s.threads[t].op
    case RegisterAgent(_) =>
    case UnregisterAgent(_) =>
    case RecordHeartbeat(_) =>
    case _ =>
  }

  lemma TimeKept(s: State, e: Step)
    requires TimeInv(s.core.agents, s.clock, s.ttl, s.lastTick)
    requires SweepInv(s.threads, s.core.agents, s.core.presence, s.clock, s.ttl) && Enabled(s, e)
    ensures var s' := Apply(s, e); TimeInv(s'.core.agents, s'.clock, s'.ttl, s'.lastTick)
  {
    match e
    case LockWrite(t) => TimeKeptByLockWrite(s, t);
    case Unlock(t) => TimeKeptByUnlock(s, t);
    case Examine(t, d) =>
      assert forall d' :: d' in ApplyExamine(s, t, d).core.agents ==> d' in s.core.agents;
    case _ =>
  }

  // ---- Registry changes ----

  lemma PresenceAfter(agents: Agents, presence: seq<Presence>, p: Presence, agents': Agents)
    requires PresenceInv(agents, presence)
    requires p.online || p.device in agents
    requires agents'.Keys == if p.online then agents.Keys + {p.device} else agents.Keys - {p.device}
    ensures PresenceInv(agents', presence + [p])
  {
    assert (presence + [p])[..|presence|] == presence;
  }

  lemma PresenceKeptByRetire(s: State, t: Tid, d: Uuid, at: Time, timedOut: bool, sweep: Sweep)
    requires PresenceInv(s.core.agents, s.core.presence) && d in s.core.agents
    ensures var s' := Retire(s, t, d, at, timedOut, sweep); PresenceInv(s'.core.agents, s'.core.presence)
  {
    PresenceAfter(s.core.agents, s.core.presence, Presence(d, false), s.core.agents - {d});
  }

  lemma PresenceKeptByLockWrite(s: State, t: Tid)
    requires PresenceInv(s.core.agents, s.core.presence) && Enabled(s, LockWrite(t))
    ensures var s' := ApplyLockWrite(s, t); PresenceInv(s'.core.agents, s'.core.presence)
  {
    match s.threads[t].op
    case RegisterAgent(a) =>
      PresenceAfter(s.core.agents, s.core.presence, Presence(a.device, true), ApplyLockWrite(s, t).core.agents);
    case UnregisterAgent(d) =>
      if d in s.core.agents { PresenceKeptByRetire(s.(writer := Some(t)), t, d, s.clock, false, NoSweep); }
    case RecordHeartbeat(d) =>
      assert ApplyLockWrite(s, t).core.agents.Keys == s.core.agents.Keys;
    case _ =>
  }

  lemma PresenceKept(s: State, e: Step)
    requires PresenceInv(s.core.agents, s.core.presence) && Enabled(s, e)
    ensures var s' := Apply(s, e); PresenceInv(s'.core.agents, s'.core.presence)
  {
    match e
    case LockWrite(t) => PresenceKeptByLockWrite(s, t);
    case Examine(t, d) =>
      if d in s.core.agents {
        PresenceKeptByRetire(s, t, d, s.threads[t].sweep.now, true,
                             s.threads[t].sweep.(todo := s.threads[t].sweep.todo - {d},
                                                  gone := s.threads[t].sweep.gone + [d]));
      }
    case _ =>
  }

  lemma SweepStep(sweep: Sweep, agents: Agents, presence: seq<Presence>, clock: Time, ttl: Time, d: Uuid)
    requires sweep.Sweep? && SweepOk(sweep, agents, presence, clock, ttl) && d in sweep.todo
    ensures d in agents
    ensures var rest := sweep.(todo := sweep.todo - {d});
      if Stale(agents[d], sweep.now, ttl)
      then SweepOk(rest.(gone := sweep.gone + [d]), agents - {d}, presence + [Presence(d, false)], clock, ttl)
      else SweepOk(rest, agents, presence, clock, ttl)
  {
    assert OfflineEvents(sweep.gone + [d]) == OfflineEvents(sweep.gone) + [Presence(d, false)];
  }

  lemma SweepKept(s: State, e: Step)
    requires LockInv(s.threads, s.readers, s.writer)
    requires SweepInv(s.threads, s.core.agents, s.core.presence, s.clock, s.ttl) && Enabled(s, e)
    ensures var s' := Apply(s, e); SweepInv(s'.threads, s'.core.agents, s'.core.presence, s'.clock, s'.ttl)
  {
    match e
    case Examine(t, d) => SweepKeptByExamine(s, t, d);
    case LockWrite(t) => SweepKeptByLock(s, t);
    case _ =>
  }

  lemma SweepKeptByExamine(s: State, t: Tid, d: Uuid)
    requires LockInv(s.threads, s.readers, s.writer)
    requires SweepInv(s.threads, s.core.agents, s.core.presence, s.clock, s.ttl) && Enabled(s, Examine(t, d))
    ensures var s' := ApplyExamine(s, t, d); SweepInv(s'.threads, s'.core.agents, s'.core.presence, s'.clock, s'.ttl)
  {
    assert forall t' :: t' in s.threads && s.threads[t'].Writing? ==> t' == t;
    SweepStep(s.threads[t].sweep, s.core.agents, s.core.presence, s.clock, s.ttl, d);
  }

  lemma SweepKeptByLock(s: State, t: Tid)
    requires LockInv(s.threads, s.readers, s.writer)
    requires SweepInv(s.threads, s.core.agents, s.core.presence, s.clock, s.ttl) && Enabled(s, LockWrite(t))
    ensures var s' := ApplyLockWrite(s, t); SweepInv(s'.threads, s'.core.agents, s'.core.presence, s'.clock, s'.ttl)
  {
    assert forall t' :: t' in s.threads ==> !s.threads[t'].Writing?;
    var s' := ApplyLockWrite(s, t);
    assert forall t' :: t' in s'.threads && t' != t ==> t' in s.threads && s'.threads[t'] == s.threads[t'];
  }

  // ---- Ownership of channels ----

  // `owner'` differs from `owner` only at channels whose owner was in `from`, and no longer mentions `from`.
  ghost predicate Reowned(owner: Owners, owner': Owners, from: set<Owner>) {
    forall c :: c in owner && owner[c] !in from ==> OwnedBy(owner', c, owner[c])
  }

  // Channels keep their home organization.
  ghost predicate SameHomes(chans: Chans, chans': Chans) {
    forall c :: c in chans ==> IsHome(chans', c, chans[c].home)
  }

  lemma AgentsReowned(agents: Agents, owner: Owners, owner': Owners, from: set<Owner>)
    requires AgentsInv(agents, owner) && Reowned(owner, owner', from)
    requires forall d :: d in agents ==> AgentOf(d) !in from
    ensures AgentsInv(agents, owner')
  {
  }

  lemma ClientsReowned(clients: Clients, owner: Owners, owner': Owners, chans: Chans, chans': Chans, from: set<Owner>)
    requires ClientsInv(clients, owner, chans) && Reowned(owner, owner', from) && SameHomes(chans, chans')
    requires forall o, u :: o in clients && u in clients[o] ==> ClientOf(o, u) !in from
    ensures ClientsInv(clients, owner', chans')
  {
  }

  lemma PendingReowned(threads: Threads, owner: Owners, owner': Owners, chans: Chans, chans': Chans, from: set<Owner>)
    requires PendingInv(threads, owner, chans) && Reowned(owner, owner', from) && SameHomes(chans, chans')
    requires forall t :: t in threads && threads[t].Waiting? ==> PendingOf(t) !in from
    ensures PendingInv(threads, owner', chans')
  {
  }

  // The parts of the invariant that speak of channel ownership.
  ghost predicate Owned(agents: Agents, clients: Clients, threads: Threads, owner: Owners, chans: Chans) {
    && ClosedInv(chans, owner)
    && AgentsInv(agents, owner)
    && ClientsInv(clients, owner, chans)
    && PendingInv(threads, owner, chans)
  }

  ghost predicate OwnedIn(s: State) {
    Owned(s.core.agents, s.core.clients, s.threads, s.owner, s.core.chans)
  }

  // A new channel for a registration that waits for the lock.
  lemma OpenOwned(agents: Agents, clients: Clients, threads: Threads, owner: Owners, chans: Chans,
                  t: Tid, op: Op, c: ChanId, ch: Channel)
    requires Owned(agents, clients, threads, owner, chans)
    requires t !in threads && c !in chans && !ch.closed
    requires op.RegisterAgent? ==> op.agent.chan == c
    requires op.RegisterClient? ==> op.client.chan == c && ch.home == op.client.org
    ensures Owned(agents, clients, threads[t := Waiting(op)], owner[c := PendingOf(t)], chans[c := ch])
  {
    var owner', chans' := owner[c := PendingOf(t)], chans[c := ch];
    AgentsReowned(agents, owner, owner', {});
    ClientsReowned(clients, owner, owner', chans, chans', {});
    PendingReowned(threads, owner, owner', chans, chans', {});
  }

  // A thread that does not wait for a registration, or no longer does.
  lemma PassOwned(agents: Agents, clients: Clients, threads: Threads, owner: Owners, chans: Chans, t: Tid, pc: Pc)
    requires Owned(agents, clients, threads, owner, chans)
    requires pc.Waiting? ==> !pc.op.RegisterAgent? && !pc.op.RegisterClient?
    ensures Owned(agents, clients, threads[t := pc], owner, chans)
    ensures Owned(agents, clients, threads - {t}, owner, chans)
  {
  }

  // New contents for one channel.
  lemma TransferOwned(agents: Agents, clients: Clients, threads: Threads, owner: Owners, chans: Chans,
                      c: ChanId, ch: Channel)
    requires Owned(agents, clients, threads, owner, chans)
    requires c in chans && ch.home == chans[c].home && ch.closed == chans[c].closed
    ensures Owned(agents, clients, threads, owner, chans[c := ch])
  {
    var chans' := chans[c := ch];
    ClientsReowned(clients, owner, owner, chans, chans', {});
    PendingReowned(threads, owner, owner, chans, chans', {});
  }

  lemma DropAgentOwned(agents: Agents, clients: Clients, threads: Threads, owner: Owners, chans: Chans, d: Uuid)
    requires Owned(agents, clients, threads, owner, chans) && d in agents
    ensures var c := agents[d].chan;
      c in chans && !chans[c].closed
      && Owned(agents - {d}, clients, threads, owner[c := Closed], chans[c := Close(chans[c])])
  {
    var c := agents[d].chan;
    var owner', chans', from := owner[c := Closed], chans[c := Close(chans[c])], {AgentOf(d)};
    AgentsReowned(agents - {d}, owner, owner', from);
    ClientsReowned(clients, owner, owner', chans, chans', from);
    PendingReowned(threads, owner, owner', chans, chans', from);
  }

  lemma AddAgentOwned(agents: Agents, clients: Clients, threads: Threads, owner: Owners, chans: Chans,
                      t: Tid, a: AgentSession)
    requires Owned(agents, clients, threads, owner, chans) && OwnedBy(owner, a.chan, PendingOf(t))
    requires t !in threads
    ensures Owned(agents[a.device := a], clients, threads, OwnersAfterAgent(agents, owner, a), chans)
  {
    var owner' := OwnersAfterAgent(agents, owner, a);
    var from := {AgentOf(a.device), PendingOf(t)};
    assert Reowned(owner, owner', from);
    AgentsReowned(agents - {a.device}, owner, owner', from);
    ClientsReowned(clients, owner, owner', chans, chans, from);
    PendingReowned(threads, owner, owner', chans, chans, from);
  }

  lemma BeatOwned(agents: Agents, clients: Clients, threads: Threads, owner: Owners, chans: Chans, d: Uuid, now: Time)
    requires Owned(agents, clients, threads, owner, chans) && d in agents
    ensures Owned(agents[d := agents[d].(lastHeartbeat := now)], clients, threads, owner, chans)
  {
  }

  // Setting the clients of one organization.
  lemma SetClientsOwned(clients: Clients, owner: Owners, chans: Chans, org: Uuid, users: map<Uuid, ClientSession>)
    requires ClientsInv(clients - {org}, owner, chans)
    requires forall u :: u in users ==> ClientOk(users[u], org, u, owner, chans)
    ensures ClientsInv(clients[org := users], owner, chans)
  {
    var clients' := clients[org := users];
    forall o, u | o in clients' && u in clients'[o]
      ensures ClientOk(clients'[o][u], o, u, owner, chans)
    {
      if o != org { assert o in clients - {org} && (clients - {org})[o] == clients[o]; }
    }
  }

  lemma OtherOrgs(clients: Clients, owner: Owners, chans: Chans, org: Uuid)
    requires ClientsInv(clients, owner, chans)
    ensures ClientsInv(clients - {org}, owner, chans)
  {
  }

  lemma AddClientOwned(agents: Agents, clients: Clients, threads: Threads, owner: Owners, chans: Chans,
                       t: Tid, c: ClientSession)
    requires Owned(agents, clients, threads, owner, chans)
    requires t !in threads && OwnedBy(owner, c.chan, PendingOf(t)) && IsHome(chans, c.chan, c.org)
    ensures Owned(agents, clients[c.org := ClientsOf(clients, c.org)[c.user := c]], threads,
                  OwnersAfterClient(clients, owner, c), chans)
  {
    var owner' := OwnersAfterClient(clients, owner, c);
    var from := {ClientOf(c.org, c.user), PendingOf(t)};
    assert Reowned(owner, owner', from);
    AgentsReowned(agents, owner, owner', from);
    PendingReowned(threads, owner, owner', chans, chans, from);
    OtherOrgs(clients, owner, chans, c.org);
    ClientsReowned(clients - {c.org}, owner, owner', chans, chans, from);
    SetClientsOwned(clients, owner', chans, c.org, ClientsOf(clients, c.org)[c.user := c]);
  }

  lemma DropClientOwned(agents: Agents, clients: Clients, threads: Threads, owner: Owners, chans: Chans,
                        org: Uuid, user: Uuid)
    requires Owned(agents, clients, threads, owner, chans)
    requires org in clients && user in clients[org]
    ensures var c := clients[org][user].chan;
      c in chans && !chans[c].closed
      && Owned(agents, WithoutClient(clients, org, user), threads, owner[c := Closed], chans[c := Close(chans[c])])
  {
    var c := clients[org][user].chan;
    assert ClientOk(clients[org][user], org, user, owner, chans);
    var owner', chans', from := owner[c := Closed], chans[c := Close(chans[c])], {ClientOf(org, user)};
    AgentsReowned(agents, owner, owner', from);
    PendingReowned(threads, owner, owner', chans, chans', from);
    OtherOrgs(clients, owner, chans, org);
    ClientsReowned(clients - {org}, owner, owner', chans, chans', from);
    var rest := clients[org] - {user};
    forall u | u in rest
      ensures ClientOk(rest[u], org, u, owner', chans')
    {
      assert ClientOk(clients[org][u], org, u, owner, chans);
    }
    SetClientsOwned(clients, owner', chans', org, rest);
  }

  // A user who is not connected: nothing to remove.
  lemma AbsentClient(clients: Clients, org: Uuid, user: Uuid)
    requires org in clients && user !in clients[org] && clients[org] != map[]
    ensures WithoutClient(clients, org, user) == clients
  {
    assert clients[org] - {user} == clients[org];
    assert clients[org := clients[org]] == clients;
  }

  // ---- Steps ----

  lemma OwnedByRetire(s: State, t: Tid, d: Uuid, at: Time, timedOut: bool, sweep: Sweep)
    requires OwnedIn(s) && d in s.core.agents
    ensures OwnedIn(Retire(s, t, d, at, timedOut, sweep))
  {
    var s' := Retire(s, t, d, at, timedOut, sweep);
    PassOwned(s.core.agents, s.core.clients, s.threads, s.owner, s.core.chans, t, s'.threads[t]);
    DropAgentOwned(s.core.agents, s.core.clients, s'.threads, s.owner, s.core.chans, d);
  }

  lemma OwnedByRegisterAgent(s: State, t: Tid, a: AgentSession)
    requires OwnedIn(s) && t in s.threads && s.threads[t] == Waiting(RegisterAgent(a))
    ensures OwnedIn(DoRegisterAgent(s, t, a))
  {
    var s' := DoRegisterAgent(s, t, a);
    var rest := s.threads - {t};
    PassOwned(s.core.agents, s.core.clients, s.threads, s.owner, s.core.chans, t, s'.threads[t]);
    AddAgentOwned(s.core.agents, s.core.clients, rest, s.owner, s.core.chans, t, a.(lastHeartbeat := s.clock));
    PassOwned(s'.core.agents, s.core.clients, rest, s'.owner, s.core.chans, t, s'.threads[t]);
    assert rest[t := s'.threads[t]] == s'.threads;
  }

  lemma OwnedByRegisterClient(s: State, t: Tid, c: ClientSession)
    requires OwnedIn(s) && t in s.threads && s.threads[t] == Waiting(RegisterClient(c))
    ensures OwnedIn(DoRegisterClient(s, t, c))
  {
    var s' := DoRegisterClient(s, t, c);
    var rest := s.threads - {t};
    PassOwned(s.core.agents, s.core.clients, s.threads, s.owner, s.core.chans, t, s'.threads[t]);
    AddClientOwned(s.core.agents, s.core.clients, rest, s.owner, s.core.chans, t, c);
    PassOwned(s.core.agents, s'.core.clients, rest, s'.owner, s.core.chans, t, s'.threads[t]);
    assert rest[t := s'.threads[t]] == s'.threads;
  }

  lemma OwnedByUnregisterClient(s: State, t: Tid, org: Uuid, user: Uuid)
    requires OwnedIn(s) && NoEmptyOrg(s.core.clients)
    ensures OwnedIn(DoUnregisterClient(s, t, org, user))
  {
    var clients := s.core.clients;
    var s' := DoUnregisterClient(s, t, org, user);
    PassOwned(s.core.agents, clients, s.threads, s.owner, s.core.chans, t, s'.threads[t]);
    if org in clients {
      if user in clients[org] {
        DropClientOwned(s.core.agents, clients, s'.threads, s.owner, s.core.chans, org, user);
      } else {
        AbsentClient(clients, org, user);
      }
    }
  }

  lemma OwnedByLockWrite(s: State, t: Tid)
    requires OwnedIn(s) && NoEmptyOrg(s.core.clients) && Enabled(s, LockWrite(t))
    ensures OwnedIn(ApplyLockWrite(s, t))
  {
    var s' := ApplyLockWrite(s, t);
    match s.threads[t].op
    case RegisterAgent(a) => OwnedByRegisterAgent(s.(writer := Some(t)), t, a);
    case UnregisterAgent(d) =>
      if d in s.core.agents { OwnedByRetire(s.(writer := Some(t)), t, d, s.clock, false, NoSweep); }
      else { PassOwned(s.core.agents, s.core.clients, s.threads, s.owner, s.core.chans, t, s'.threads[t]); }
    case RecordHeartbeat(d) =>
      PassOwned(s.core.agents, s.core.clients, s.threads, s.owner, s.core.chans, t, s'.threads[t]);
      if d in s.core.agents { BeatOwned(s.core.agents, s.core.clients, s'.threads, s.owner, s.core.chans, d, s.clock); }
    case RegisterClient(c) => OwnedByRegisterClient(s.(writer := Some(t)), t, c);
    case UnregisterClient(org, user) => OwnedByUnregisterClient(s.(writer := Some(t)), t, org, user);
    case Tick(_) =>
      PassOwned(s.core.agents, s.core.clients, s.threads, s.owner, s.core.chans, t, s'.threads[t]);
  }

  lemma OwnedByExamine(s: State, t: Tid, d: Uuid)
    requires OwnedIn(s) && Enabled(s, Examine(t, d))
    ensures OwnedIn(ApplyExamine(s, t, d))
  {
    var sweep := s.threads[t].sweep;
    if d in s.core.agents && Stale(s.core.agents[d], sweep.now, s.ttl) {
      OwnedByRetire(s, t, d, sweep.now, true,
                    sweep.(todo := sweep.todo - {d}, gone := sweep.gone + [d]));
    } else {
      PassOwned(s.core.agents, s.core.clients, s.threads, s.owner, s.core.chans, t, ApplyExamine(s, t, d).threads[t]);
    }
  }

  lemma OwnedKept(s: State, e: Step)
    requires OwnedIn(s) && NoEmptyOrg(s.core.clients) && SendsInv(s.threads, s.core.clients) && Enabled(s, e)
    ensures OwnedIn(Apply(s, e))
  {
    var agents, clients, owner, chans := s.core.agents, s.core.clients, s.owner, s.core.chans;
    match e
    case Call(t, op, cap) =>
      match op {
        case RegisterAgent(a) =>
          OpenOwned(agents, clients, s.threads, owner, chans, t, op, a.chan, NewChannel(a.org, cap));
        case RegisterClient(c) =>
          OpenOwned(agents, clients, s.threads, owner, chans, t, op, c.chan, NewChannel(c.org, cap));
        case _ => PassOwned(agents, clients, s.threads, owner, chans, t, Waiting(op));
      }
    case LockWrite(t) => OwnedByLockWrite(s, t);
    case LockRead(t) => PassOwned(agents, clients, s.threads, owner, chans, t, Apply(s, e).threads[t]);
    case Send(t, user) =>
      PassOwned(agents, clients, s.threads, owner, chans, t, Apply(s, e).threads[t]);
      var env := s.threads[t].sends.env;
      var c := clients[env.org][user].chan;
      assert ClientOk(clients[env.org][user], env.org, user, owner, chans);
      TransferOwned(agents, clients, Apply(s, e).threads, owner, chans, c, Offer(chans[c], env));
    case Examine(t, d) => OwnedByExamine(s, t, d);
    case Unlock(t) => PassOwned(agents, clients, s.threads, owner, chans, t, s.threads[t]);
    case Consume(c) => TransferOwned(agents, clients, s.threads, owner, chans, c, Receive(chans[c]));
    case Elapse(_) =>
  }

  lemma NoEmptyOrgAfterAdd(core: Core, c: ClientSession)
    requires NoEmptyOrg(core.clients)
    ensures NoEmptyOrg(AddClient(core, c).clients)
  {
    assert c.user in AddClient(core, c).clients[c.org];
  }

  lemma NoEmptyOrgAfterDrop(core: Core, org: Uuid, user: Uuid)
    requires NoEmptyOrg(core.clients)
    ensures NoEmptyOrg(DropClient(core, org, user).clients)
  {
  }

  lemma NoEmptyOrgKept(s: State, e: Step)
    requires NoEmptyOrg(s.core.clients) && Enabled(s, e)
    ensures NoEmptyOrg(Apply(s, e).core.clients)
  {
    match e
    case LockWrite(t) =>
      match s.threads[t].op {
        case RegisterClient(c) => NoEmptyOrgAfterAdd(s.core, c);
        case UnregisterClient(org, user) => NoEmptyOrgAfterDrop(s.core, org, user);
        case _ =>
      }
    case _ =>
      assert Apply(s, e).core.clients == s.core.clients;
  }

  lemma CloseKeepsChansOk(core: Core, c: ChanId)
    requires ChansOk(core.chans) && c in core.chans && !core.chans[c].closed
    ensures ChansOk(CloseOn(core, c).chans)
  {
    assert ChannelOk(Close(core.chans[c]));
  }

  lemma ChansOkKeptBySend(s: State, t: Tid, user: Uuid)
    requires OwnedIn(s) && SendsInv(s.threads, s.core.clients)
    requires ChansOk(s.core.chans) && !s.core.panicked && Enabled(s, Send(t, user))
    ensures var s' := ApplySend(s, t, user); ChansOk(s'.core.chans) && !s'.core.panicked
  {
    var env := s.threads[t].sends.env;
    var c := s.core.clients[env.org][user].chan;
    assert ClientOk(s.core.clients[env.org][user], env.org, user, s.owner, s.core.chans);
    OfferKeepsChannelOk(s.core.chans[c], env);
  }

  lemma ChansOkKeptByLockWrite(s: State, t: Tid)
    requires OwnedIn(s) && ChansOk(s.core.chans) && !s.core.panicked && Enabled(s, LockWrite(t))
    ensures var s' := ApplyLockWrite(s, t); ChansOk(s'.core.chans) && !s'.core.panicked
  {
    match s.threads[t].op
    case UnregisterAgent(d) =>
      if d in s.core.agents { CloseKeepsChansOk(s.core, s.core.agents[d].chan); }
    case UnregisterClient(org, user) =>
      if org in s.core.clients && user in s.core.clients[org] {
        assert ClientOk(s.core.clients[org][user], org, user, s.owner, s.core.chans);
        CloseKeepsChansOk(s.core, s.core.clients[org][user].chan);
      }
    case _ =>
  }

  lemma ChansOkKeptByExamine(s: State, t: Tid, d: Uuid)
    requires OwnedIn(s) && ChansOk(s.core.chans) && !s.core.panicked && Enabled(s, Examine(t, d))
    ensures var s' := ApplyExamine(s, t, d); ChansOk(s'.core.chans) && !s'.core.panicked
  {
    if d in s.core.agents { CloseKeepsChansOk(s.core, s.core.agents[d].chan); }
  }

  lemma ChansOkKeptByCall(s: State, t: Tid, op: Op, cap: nat)
    requires ChansOk(s.core.chans) && !s.core.panicked
    ensures var s' := ApplyCall(s, t, op, cap); ChansOk(s'.core.chans) && !s'.core.panicked
  {
    assert forall home :: ChannelOk(NewChannel(home, cap));
  }

  lemma ChansOkKeptByConsume(s: State, c: ChanId)
    requires ChansOk(s.core.chans) && !s.core.panicked && Enabled(s, Consume(c))
    ensures var s' := Apply(s, Consume(c)); ChansOk(s'.core.chans) && !s'.core.panicked
  {
    ReceiveKeepsChannelOk(s.core.chans[c]);
  }

  // No send reaches a closed channel, no channel is closed twice, and every channel keeps its history straight.
  lemma ChansOkKept(s: State, e: Step)
    requires OwnedIn(s) && SendsInv(s.threads, s.core.clients)
    requires ChansOk(s.core.chans) && !s.core.panicked && Enabled(s, e)
    ensures ChansOk(Apply(s, e).core.chans) && !Apply(s, e).core.panicked
  {
    match e
    case Call(t, op, cap) => ChansOkKeptByCall(s, t, op, cap);
    case LockWrite(t) => ChansOkKeptByLockWrite(s, t);
    case Send(t, user) => ChansOkKeptBySend(s, t, user);
    case Examine(t, d) => ChansOkKeptByExamine(s, t, d);
    case Consume(c) => ChansOkKeptByConsume(s, c);
    case _ =>
  }

  lemma StepKeepsInv(s: State, e: Step)
    requires Inv(s) && Enabled(s, e)
    ensures Inv(Apply(s, e))
  {
    LockKept(s, e);
    SendsKept(s, e);
    TimeKept(s, e);
    SweepKept(s, e);
    PresenceKept(s, e);
    OwnedKept(s, e);
    NoEmptyOrgKept(s, e);
    ChansOkKept(s, e);
  }

  lemma NewHubInv(ttl: Time, clock: Time)
    ensures Inv(NewHub(ttl, clock))
  {
  }
}
