// The hub as a shared-memory protocol. Any number of goroutines call the hub's operations; an RWMutex
// admits many readers or one writer; every channel send of a broadcast, every receive by a client and
// every agent examined by the watchdog is a step of its own, so all of them interleave.
module HubProtocol {
  import opened Common
  import opened HubCore

  type Tid = nat

  datatype Op =
    | RegisterAgent(agent: AgentSession)
    | UnregisterAgent(device: Uuid)
    | RecordHeartbeat(device: Uuid)
    | RegisterClient(client: ClientSession)
    | UnregisterClient(org: Uuid, user: Uuid)
    | BroadcastToOrg(env: Envelope)
    | Tick(now: Time)

  // The sends a broadcast still has to make.
  datatype Sends = Quiet | Sends(env: Envelope, todo: set<Uuid>)

  // The agents a watchdog sweep still has to examine; `before` is the registry and `log` the presence log
  // it found, `gone` the agents it has removed so far, in order.
  datatype Sweep =
    | NoSweep
    | Sweep(now: Time, todo: set<Uuid>, before: map<Uuid, AgentSession>, log: seq<Presence>, gone: seq<Uuid>)

  datatype Pc =
    | Waiting(op: Op)                       // blocked in Lock or RLock
    | Reading(sends: Sends)                 // inside BroadcastToOrg, holding the read lock
    | Writing(sends: Sends, sweep: Sweep)   // inside any other operation, holding the write lock

  // Who may still send on, or close, a channel.
  datatype Owner = PendingOf(t: Tid) | AgentOf(device: Uuid) | ClientOf(org: Uuid, user: Uuid) | Abandoned | Closed

  datatype State = State(
    core: Core,
    readers: set<Tid>,
    writer: Option<Tid>,
    threads: map<Tid, Pc>,
    owner: map<ChanId, Owner>,
    clock: Time,
    ttl: Time,
    lastTick: Time)

  datatype Step =
    | Call(t: Tid, op: Op, cap: nat)
    | LockWrite(t: Tid)
    | LockRead(t: Tid)
    | Send(t: Tid, user: Uuid)
    | Examine(t: Tid, device: Uuid)
    | Unlock(t: Tid)
    | Consume(c: ChanId)
    | Elapse(d: nat)

  // NewHub: an empty hub; a non-positive TTL becomes 45 seconds.
  function NewHub(ttl: Time, clock: Time): State {
    State(Core(map[], map[], map[], [], false), {}, None, map[], map[], clock,
          if ttl <= 0 then 45 * SECOND else ttl, clock)
  }

  // ---- Steps ----

  predicate InHub(s: State, t: Tid) {
    t in s.threads && !s.threads[t].Waiting?
  }

  predicate Idle(sends: Sends) {
    sends.Quiet? || sends.todo == {}
  }

  // A session is registered with a channel of its own, made for it at the call;
  // the ticker delivers no tick from the future.
  predicate MayCall(s: State, op: Op) {
    match op
    case RegisterAgent(a) => a.chan !in s.core.chans
    case RegisterClient(c) => c.chan !in s.core.chans
    case Tick(now) => now <= s.clock
    case _ => true
  }

  predicate Enabled(s: State, e: Step) {
    match e
    case Call(t, op, _) => t !in s.threads && MayCall(s, op)
    case LockWrite(t) =>
      t in s.threads && s.threads[t].Waiting? && !s.threads[t].op.BroadcastToOrg? && s.writer.None? && s.readers == {}
    case LockRead(t) =>
      t in s.threads && s.threads[t].Waiting? && s.threads[t].op.BroadcastToOrg? && s.writer.None?
    case Send(t, user) =>
      InHub(s, t) && s.threads[t].sends.Sends? && user in s.threads[t].sends.todo
    case Examine(t, device) =>
      t in s.threads && s.threads[t].Writing? && Idle(s.threads[t].sends)
      && s.threads[t].sweep.Sweep? && device in s.threads[t].sweep.todo
    case Unlock(t) =>
      InHub(s, t) && Idle(s.threads[t].sends)
      && (s.threads[t].Writing? && s.threads[t].sweep.Sweep? ==> s.threads[t].sweep.todo == {})
    case Consume(c) => c in s.core.chans && s.core.chans[c].buffer != []
    case Elapse(_) => true
  }

  // The caller makes the channel of the session it is about to register.
  function ApplyCall(s: State, t: Tid, op: Op, cap: nat): State {
    var s' := s.(threads := s.threads[t := Waiting(op)]);
    match op
    case RegisterAgent(a) =>
      s'.(core := s.core.(chans := s.core.chans[a.chan := NewChannel(a.org, cap)]),
          owner := s.owner[a.chan := PendingOf(t)])
    case RegisterClient(c) =>
      s'.(core := s.core.(chans := s.core.chans[c.chan := NewChannel(c.org, cap)]),
          owner := s.owner[c.chan := PendingOf(t)])
    case _ => s'
  }

  // A session that is overwritten loses its channel, unclosed.
  function OwnersAfterAgent(agents: map<Uuid, AgentSession>, owner: map<ChanId, Owner>, a: AgentSession)
    : map<ChanId, Owner>
  {
    var left := if a.device in agents then owner[agents[a.device].chan := Abandoned] else owner;
    left[a.chan := AgentOf(a.device)]
  }

  function OwnersAfterClient(clients: Clients, owner: map<ChanId, Owner>, c: ClientSession): map<ChanId, Owner> {
    var found := ClientsOf(clients, c.org);
    var left := if c.user in found then owner[found[c.user].chan := Abandoned] else owner;
    left[c.chan := ClientOf(c.org, c.user)]
  }

  function DoRegisterAgent(s: State, t: Tid, a: AgentSession): State {
    var core := AddAgent(s.core, a, s.clock);
    var env := OnlineMessage(a, s.clock);
    s.(core := core, owner := OwnersAfterAgent(s.core.agents, s.owner, a),
       threads := s.threads[t := Writing(Sends(env, Targets(core, env)), NoSweep)])
  }

  function DoRegisterClient(s: State, t: Tid, c: ClientSession): State {
    s.(core := AddClient(s.core, c), owner := OwnersAfterClient(s.core.clients, s.owner, c),
       threads := s.threads[t := Writing(Quiet, NoSweep)])
  }

  function DoUnregisterClient(s: State, t: Tid, org: Uuid, user: Uuid): State {
    var found := ClientsOf(s.core.clients, org);
    s.(core := DropClient(s.core, org, user),
       owner := if user in found then s.owner[found[user].chan := Closed] else s.owner,
       threads := s.threads[t := Writing(Quiet, NoSweep)])
  }

  // Entering the write lock and updating the registry.
  function ApplyLockWrite(s: State, t: Tid): State
    requires Enabled(s, LockWrite(t))
  {
    var s := s.(writer := Some(t));
    match s.threads[t].op
    case RegisterAgent(a) => DoRegisterAgent(s, t, a)
    case UnregisterAgent(d) =>
      if d in s.core.agents then Retire(s, t, d, s.clock, false, NoSweep)
      else s.(threads := s.threads[t := Writing(Quiet, NoSweep)])
    case RecordHeartbeat(d) =>
      s.(core := Beat(s.core, d, s.clock), threads := s.threads[t := Writing(Quiet, NoSweep)])
    case RegisterClient(c) => DoRegisterClient(s, t, c)
    case UnregisterClient(org, user) => DoUnregisterClient(s, t, org, user)
    case Tick(now) =>
      s.(threads := s.threads[t := Writing(Quiet, Sweep(now, s.core.agents.Keys, s.core.agents, s.core.presence, []))])
    case BroadcastToOrg(_) => s
  }

  // Deleting an agent, closing its channel and starting the offline broadcast.
  function Retire(s: State, t: Tid, d: Uuid, at: Time, timedOut: bool, sweep: Sweep): State
    requires d in s.core.agents
  {
    var core := DropAgent(s.core, d);
    var env := OfflineMessage(s.core.agents[d], at, timedOut);
    s.(core := core, owner := s.owner[s.core.agents[d].chan := Closed],
       threads := s.threads[t := Writing(Sends(env, Targets(core, env)), sweep)])
  }

  function ApplyExamine(s: State, t: Tid, d: Uuid): State
    requires Enabled(s, Examine(t, d))
  {
    var sweep := s.threads[t].sweep;
    var rest := sweep.(todo := sweep.todo - {d});
    if d in s.core.agents && Stale(s.core.agents[d], sweep.now, s.ttl)
    then Retire(s, t, d, sweep.now, true, rest.(gone := sweep.gone + [d]))
    else s.(threads := s.threads[t := Writing(Quiet, rest)])
  }

  function WithSends(pc: Pc, sends: Sends): Pc
    requires !pc.Waiting?
  {
    if pc.Reading? then Reading(sends) else pc.(sends := sends)
  }

  function ApplySend(s: State, t: Tid, user: Uuid): State
    requires Enabled(s, Send(t, user))
  {
    var sends := s.threads[t].sends;
    s.(core := if user in Targets(s.core, sends.env) then SendTo(s.core, user, sends.env)
               else s.core.(panicked := true),
       threads := s.threads[t := WithSends(s.threads[t], sends.(todo := sends.todo - {user}))])
  }

  function ApplyUnlock(s: State, t: Tid): State
    requires Enabled(s, Unlock(t))
  {
    var pc := s.threads[t];
    s.(readers := s.readers - {t},
       writer := if pc.Writing? then None else s.writer,
       threads := s.threads - {t},
       lastTick := if pc.Writing? && pc.sweep.Sweep? && s.lastTick < pc.sweep.now then pc.sweep.now else s.lastTick)
  }

  function Apply(s: State, e: Step): State
    requires Enabled(s, e)
  {
    match e
    case Call(t, op, cap) => ApplyCall(s, t, op, cap)
    case LockWrite(t) => ApplyLockWrite(s, t)
    case LockRead(t) =>
      var env := s.threads[t].op.env;
      s.(readers := s.readers + {t}, threads := s.threads[t := Reading(Sends(env, Targets(s.core, env)))])
    case Send(t, user) => ApplySend(s, t, user)
    case Examine(t, d) => ApplyExamine(s, t, d)
    case Unlock(t) => ApplyUnlock(s, t)
    case Consume(c) => s.(core := s.core.(chans := s.core.chans[c := Receive(s.core.chans[c])]))
    case Elapse(d) => s.(clock := s.clock + d)
  }

  predicate Next(s: State, e: Step, s': State) {
    Enabled(s, e) && s' == Apply(s, e)
  }

  // ---- The invariant ----

  type Threads = map<Tid, Pc>
  type Owners = map<ChanId, Owner>
  type Chans = map<ChanId, Channel>
  type Agents = map<Uuid, AgentSession>

  // One writer or many readers.
  ghost predicate LockInv(threads: Threads, readers: set<Tid>, writer: Option<Tid>) {
    && (forall t :: t in readers <==> t in threads && threads[t].Reading?)
    && (forall t :: writer == Some(t) <==> t in threads && threads[t].Writing?)
    && (writer.Some? ==> readers == {})
  }

  ghost predicate ChansOk(chans: Chans) {
    forall c :: c in chans ==> ChannelOk(chans[c])
  }

  ghost predicate ClosedInv(chans: Chans, owner: Owners) {
    && owner.Keys == chans.Keys
    && (forall c :: c in chans ==> (chans[c].closed <==> owner[c].Closed?))
  }

  ghost predicate OwnedBy(owner: Owners, c: ChanId, o: Owner) {
    c in owner && owner[c] == o
  }

  // The channel of a registered session is open and belongs to that session alone.
  ghost predicate AgentsInv(agents: Agents, owner: Owners) {
    forall d :: d in agents ==> agents[d].device == d && OwnedBy(owner, agents[d].chan, AgentOf(d))
  }

  ghost predicate IsHome(chans: Chans, c: ChanId, org: Uuid) {
    c in chans && chans[c].home == org
  }

  ghost predicate NoEmptyOrg(clients: Clients) {
    forall o :: o in clients ==> clients[o] != map[]
  }

  ghost predicate ClientOk(c: ClientSession, org: Uuid, user: Uuid, owner: Owners, chans: Chans) {
    c.user == user && c.org == org && OwnedBy(owner, c.chan, ClientOf(org, user)) && IsHome(chans, c.chan, org)
  }

  ghost predicate ClientsInv(clients: Clients, owner: Owners, chans: Chans) {
    forall o, u :: o in clients && u in clients[o] ==> ClientOk(clients[o][u], o, u, owner, chans)
  }

  ghost predicate PendingInv(threads: Threads, owner: Owners, chans: Chans) {
    && (forall t :: t in threads && threads[t].Waiting? && threads[t].op.RegisterAgent? ==>
          OwnedBy(owner, threads[t].op.agent.chan, PendingOf(t)))
    && (forall t :: t in threads && threads[t].Waiting? && threads[t].op.RegisterClient? ==>
          OwnedBy(owner, threads[t].op.client.chan, PendingOf(t))
          && IsHome(chans, threads[t].op.client.chan, threads[t].op.client.org))
  }

  // Clients still to be visited by a broadcast are still registered.
  ghost predicate SendsInv(threads: Threads, clients: Clients) {
    forall t :: t in threads && !threads[t].Waiting? && threads[t].sends.Sends? ==>
      threads[t].sends.todo <= Visits(clients, threads[t].sends.env)
  }

  function OfflineEvents(gone: seq<Uuid>): seq<Presence> {
    seq(|gone|, i requires 0 <= i < |gone| => Presence(gone[i], false))
  }

  // What a sweep has done so far: the stale agents it examined are gone, each announced once, nobody else is.
  ghost predicate SweepOk(sweep: Sweep, agents: Agents, presence: seq<Presence>, clock: Time, ttl: Time)
    requires sweep.Sweep?
  {
    && sweep.now <= clock
    && sweep.todo <= sweep.before.Keys
    && agents == Survivors(sweep.before, sweep.todo, sweep.now, ttl)
    && presence == sweep.log + OfflineEvents(sweep.gone)
    && (forall d :: d in sweep.gone <==> d in sweep.before && d !in agents)
    && (forall i, j :: 0 <= i < j < |sweep.gone| ==> sweep.gone[i] != sweep.gone[j])
  }

  // The agents of `before` that are still to be examined or have a recent heartbeat.
  function Survivors(before: Agents, todo: set<Uuid>, now: Time, ttl: Time): Agents {
    map d | d in before && (d in todo || !Stale(before[d], now, ttl)) :: before[d]
  }

  ghost predicate SweepInv(threads: Threads, agents: Agents, presence: seq<Presence>, clock: Time, ttl: Time) {
    && (forall t :: t in threads && threads[t].Waiting? && threads[t].op.Tick? ==> threads[t].op.now <= clock)
    && (forall t :: t in threads && threads[t].Writing? && threads[t].sweep.Sweep? ==>
          SweepOk(threads[t].sweep, agents, presence, clock, ttl))
  }

  // Nobody in the registry had been silent for more than the TTL at the last completed tick.
  ghost predicate TimeInv(agents: Agents, clock: Time, ttl: Time, lastTick: Time) {
    && 0 < ttl
    && lastTick <= clock
    && (forall d :: d in agents ==> agents[d].lastHeartbeat <= clock && lastTick - agents[d].lastHeartbeat <= ttl)
  }

  ghost predicate PresenceInv(agents: Agents, presence: seq<Presence>) {
    Alternates(presence) && forall d :: d in agents <==> LastOnline(presence, d)
  }

  ghost predicate Inv(s: State) {
    && !s.core.panicked
    && LockInv(s.threads, s.readers, s.writer)
    && ChansOk(s.core.chans)
    && ClosedInv(s.core.chans, s.owner)
    && AgentsInv(s.core.agents, s.owner)
    && NoEmptyOrg(s.core.clients)
    && ClientsInv(s.core.clients, s.owner, s.core.chans)
    && PendingInv(s.threads, s.owner, s.core.chans)
    && SendsInv(s.threads, s.core.clients)
    && SweepInv(s.threads, s.core.agents, s.core.presence, s.clock, s.ttl)
    && TimeInv(s.core.agents, s.clock, s.ttl, s.lastTick)
    && PresenceInv(s.core.agents, s.core.presence)
  }
}
