// The data of the realtime hub and the effect of each of its elementary actions:
// one offer to one client channel, one change of the agent or client registry.
// The sequential class in Hub.dfy and the interleaved protocol in HubProtocol.dfy share them.
module HubCore {
  import opened Common

  datatype Event =
    | DeviceOnline(device: Uuid, hostname: string)
    | DeviceOffline(device: Uuid, hostname: string, timedOut: bool)
    | Custom(name: string, data: Option<string>)  // None: a value that JSON cannot encode

  datatype Message = Message(event: Event, org: Uuid, at: Time)

  // A message together with the organization it is broadcast to.
  datatype Envelope = Envelope(org: Uuid, msg: Message)

  predicate Marshals(msg: Message) {
    msg.event.Custom? ==> msg.event.data.Some?
  }

  // ---- Channels ----

  type ChanId = nat

  // One non-blocking send: how many messages were waiting, and whether it was taken.
  datatype Attempt = Attempt(env: Envelope, waiting: nat, taken: bool)

  // A buffered Go channel. `home` is the organization it was made for; `closes`, `attempts`
  // and `consumed` record its history.
  datatype Channel = Channel(
    home: Uuid,
    cap: nat,
    buffer: seq<Envelope>,
    closed: bool,
    closes: nat,
    attempts: seq<Attempt>,
    consumed: seq<Envelope>)

  function NewChannel(home: Uuid, cap: nat): Channel {
    Channel(home, cap, [], false, 0, [], [])
  }

  // `select { case ch <- env: default: }`
  function Offer(ch: Channel, env: Envelope): Channel {
    var taken := |ch.buffer| < ch.cap;
    ch.(buffer := if taken then ch.buffer + [env] else ch.buffer,
        attempts := ch.attempts + [Attempt(env, |ch.buffer|, taken)])
  }

  // `<-ch`
  function Receive(ch: Channel): Channel
    requires ch.buffer != []
  {
    ch.(buffer := ch.buffer[1..], consumed := ch.consumed + [ch.buffer[0]])
  }

  function Close(ch: Channel): Channel {
    ch.(closed := true, closes := ch.closes + 1)
  }

  // The envelopes of the attempts that were taken (or dropped), in the order of the attempts.
  function Outcome(attempts: seq<Attempt>, taken: bool): seq<Envelope> {
    if attempts == [] then []
    else
      var front := Outcome(attempts[..|attempts| - 1], taken);
      var last := attempts[|attempts| - 1];
      if last.taken == taken then front + [last.env] else front
  }

  // The indexes of the attempts that were taken.
  function TakenAt(attempts: seq<Attempt>): (at: seq<nat>)
    ensures forall i :: 0 <= i < |at| ==> at[i] < |attempts|
  {
    if attempts == [] then []
    else
      var n := |attempts| - 1;
      TakenAt(attempts[..n]) + if attempts[n].taken then [n] else []
  }

  // What every channel keeps: no message is lost, duplicated or reordered, the buffer is bounded,
  // and a message is dropped exactly when the buffer was full.
  predicate ChannelOk(ch: Channel) {
    && ch.consumed + ch.buffer == Outcome(ch.attempts, true)
    && |ch.buffer| <= ch.cap
    && (forall a :: a in ch.attempts ==> a.waiting <= ch.cap && (a.taken <==> a.waiting < ch.cap))
    && (forall a :: a in ch.attempts ==> a.env.org == ch.home)
    && ch.closes == (if ch.closed then 1 else 0)
  }

  lemma OfferKeepsChannelOk(ch: Channel, env: Envelope)
    requires ChannelOk(ch) && env.org == ch.home
    ensures ChannelOk(Offer(ch, env))
  {
    var ch' := Offer(ch, env);
    assert ch'.attempts[..|ch'.attempts| - 1] == ch.attempts;
    assert ch'.consumed + ch'.buffer
        == if |ch.buffer| < ch.cap then ch.consumed + ch.buffer + [env] else ch.consumed + ch.buffer;
  }

  lemma ReceiveKeepsChannelOk(ch: Channel)
    requires ChannelOk(ch) && ch.buffer != []
    ensures ChannelOk(Receive(ch))
  {
    var ch' := Receive(ch);
    assert ch'.consumed + ch'.buffer == ch.consumed + ch.buffer;
  }

  lemma {:induction false} OutcomeCounts(attempts: seq<Attempt>)
    ensures |Outcome(attempts, true)| + |Outcome(attempts, false)| == |attempts|
  {
    if attempts != [] { OutcomeCounts(attempts[..|attempts| - 1]); }
  }

  lemma {:induction false} TakenInOrder(attempts: seq<Attempt>)
    ensures |TakenAt(attempts)| == |Outcome(attempts, true)|
    ensures forall i :: 0 <= i < |TakenAt(attempts)| ==>
              attempts[TakenAt(attempts)[i]].env == Outcome(attempts, true)[i]
    ensures forall i, j :: 0 <= i < j < |TakenAt(attempts)| ==> TakenAt(attempts)[i] < TakenAt(attempts)[j]
  {
    if attempts != [] { TakenInOrder(attempts[..|attempts| - 1]); }
  }

  // Delivery conservation for one channel: sends attempted = consumed + buffered + dropped, and what was
  // consumed is, position by position, an order-preserving choice of the attempted sends.
  lemma Conservation(ch: Channel)
    requires ChannelOk(ch)
    ensures |ch.attempts| == |ch.consumed| + |ch.buffer| + |Outcome(ch.attempts, false)|
    ensures |ch.consumed| <= |TakenAt(ch.attempts)|
    ensures forall i :: 0 <= i < |ch.consumed| ==> ch.attempts[TakenAt(ch.attempts)[i]].env == ch.consumed[i]
    ensures forall i, j :: 0 <= i < j < |ch.consumed| ==> TakenAt(ch.attempts)[i] < TakenAt(ch.attempts)[j]
    ensures forall e :: e in ch.consumed ==> e.org == ch.home
  {
    OutcomeCounts(ch.attempts);
    TakenInOrder(ch.attempts);
    var whole := ch.consumed + ch.buffer;
    forall i | 0 <= i < |ch.consumed|
      ensures ch.attempts[TakenAt(ch.attempts)[i]].env == ch.consumed[i]
    {
      assert whole[i] == ch.consumed[i];
    }
  }

  // The messages a channel has been offered, in order.
  function Heard(ch: Channel): (r: seq<Envelope>)
    ensures |r| == |ch.attempts| && forall i :: 0 <= i < |r| ==> r[i] == ch.attempts[i].env
  {
    seq(|ch.attempts|, i requires 0 <= i < |ch.attempts| => ch.attempts[i].env)
  }

  // One send that does not block: the message joins the buffer if there is room for it, and is dropped if not.
  ghost predicate OfferedOnce(ch: Channel, ch': Channel, env: Envelope) {
    ch' == ch.(attempts := ch.attempts + [Attempt(env, |ch.buffer|, |ch.buffer| < ch.cap)],
               buffer := if |ch.buffer| < ch.cap then ch.buffer + [env] else ch.buffer)
  }

  // ---- Registries ----

  datatype AgentSession = AgentSession(device: Uuid, org: Uuid, hostname: string, lastHeartbeat: Time, chan: ChanId)

  datatype ClientSession = ClientSession(user: Uuid, org: Uuid, chan: ChanId)

  datatype Presence = Presence(device: Uuid, online: bool)

  // `chans` holds every channel ever made; `presence` logs the online and offline events in the order
  // in which they are emitted; `panicked` is set by a send on, or a second close of, a closed channel.
  datatype Core = Core(
    agents: map<Uuid, AgentSession>,
    clients: Clients,
    chans: map<ChanId, Channel>,
    presence: seq<Presence>,
    panicked: bool)

  function OnlineMessage(s: AgentSession, at: Time): Envelope {
    Envelope(s.org, Message(DeviceOnline(s.device, s.hostname), s.org, at))
  }

  function OfflineMessage(s: AgentSession, at: Time, timedOut: bool): Envelope {
    Envelope(s.org, Message(DeviceOffline(s.device, s.hostname, timedOut), s.org, at))
  }

  // The clients connected to each organization, by user.
  type Clients = map<Uuid, map<Uuid, ClientSession>>

  // Every client of the organization has been offered the message once, and no other channel has changed.
  ghost predicate Reached(clients: Clients, before: map<ChanId, Channel>, after: map<ChanId, Channel>,
                          org: Uuid, msg: Message) {
    && after.Keys == before.Keys
    && (forall u :: org in clients && u in clients[org] ==>
          var c := clients[org][u].chan;
          c in before && c in after && OfferedOnce(before[c], after[c], Envelope(org, msg)))
    && (forall c :: c in before && (forall u :: org in clients && u in clients[org] ==> clients[org][u].chan != c) ==>
          c in after && after[c] == before[c])
  }

  // What the clients of an organization are to be told of the agents that a sweep has removed, in order.
  function News(gone: seq<Uuid>, agents: map<Uuid, AgentSession>, org: Uuid, at: Time): seq<Envelope> {
    if gone == [] then []
    else
      var n := |gone| - 1;
      var d := gone[n];
      News(gone[..n], agents, org, at)
      + if d in agents && agents[d].org == org
        then [Envelope(org, Message(DeviceOffline(d, agents[d].hostname, true), org, at))]
        else []
  }

  // The users a broadcast will visit.
  function Visits(clients: Clients, env: Envelope): set<Uuid> {
    if Marshals(env.msg) && env.org in clients then clients[env.org].Keys else {}
  }

  function Targets(core: Core, env: Envelope): set<Uuid> {
    Visits(core.clients, env)
  }

  function SendOn(core: Core, c: ChanId, env: Envelope): Core {
    if c !in core.chans || core.chans[c].closed then core.(panicked := true)
    else core.(chans := core.chans[c := Offer(core.chans[c], env)])
  }

  function SendTo(core: Core, user: Uuid, env: Envelope): Core
    requires user in Targets(core, env)
  {
    SendOn(core, core.clients[env.org][user].chan, env)
  }

  function CloseOn(core: Core, c: ChanId): Core {
    if c !in core.chans || core.chans[c].closed then core.(panicked := true)
    else core.(chans := core.chans[c := Close(core.chans[c])])
  }

  function AddAgent(core: Core, s: AgentSession, now: Time): Core {
    core.(agents := core.agents[s.device := s.(lastHeartbeat := now)],
          presence := core.presence + [Presence(s.device, true)])
  }

  function DropAgent(core: Core, device: Uuid): Core
    requires device in core.agents
  {
    var core' := CloseOn(core.(agents := core.agents - {device}), core.agents[device].chan);
    core'.(presence := core.presence + [Presence(device, false)])
  }

  function Beat(core: Core, device: Uuid, now: Time): Core {
    if device in core.agents
    then core.(agents := core.agents[device := core.agents[device].(lastHeartbeat := now)])
    else core
  }

  function ClientsOf(clients: Clients, org: Uuid): map<Uuid, ClientSession> {
    if org in clients then clients[org] else map[]
  }

  function AddClient(core: Core, s: ClientSession): Core {
    core.(clients := core.clients[s.org := ClientsOf(core.clients, s.org)[s.user := s]])
  }

  function WithoutClient(clients: Clients, org: Uuid, user: Uuid): Clients
    requires org in clients
  {
    var rest := clients[org] - {user};
    if rest == map[] then clients - {org} else clients[org := rest]
  }

  // Removes the client, closes its channel, and removes an organization left without clients.
  function DropClient(core: Core, org: Uuid, user: Uuid): Core {
    if org !in core.clients then core
    else
      var closed := if user in core.clients[org] then CloseOn(core, core.clients[org][user].chan) else core;
      closed.(clients := WithoutClient(core.clients, org, user))
  }

  predicate Stale(s: AgentSession, now: Time, ttl: Time) {
    now - s.lastHeartbeat > ttl
  }

  // ---- The presence log ----

  function LastOnline(log: seq<Presence>, device: Uuid): bool {
    if log == [] then false
    else
      var last := log[|log| - 1];
      if last.device == device then last.online else LastOnline(log[..|log| - 1], device)
  }

  // Every offline event is about a device that the log showed online until then.
  predicate Alternates(log: seq<Presence>) {
    log == [] ||
    (var n := |log| - 1; Alternates(log[..n]) && (log[n].online || LastOnline(log[..n], log[n].device)))
  }

  // The log shows a device online at its end exactly when it has an online event
  // and no offline event after it.
  lemma {:induction false} LastOnlineMeansOnlineSince(log: seq<Presence>, d: Uuid)
    ensures LastOnline(log, d) <==>
            exists k :: 0 <= k < |log| && log[k] == Presence(d, true)
                     && forall j :: k < j < |log| ==> log[j] != Presence(d, false)
  {
    if log != [] {
      var n := |log| - 1;
      var front := log[..n];
      LastOnlineMeansOnlineSince(front, d);
      if log[n].device == d {
        if log[n].online { assert log[n] == Presence(d, true); }
      } else if LastOnline(front, d) {
        var k :| 0 <= k < |front| && front[k] == Presence(d, true)
              && forall j :: k < j < |front| ==> front[j] != Presence(d, false);
        assert log[k] == Presence(d, true);
        assert forall j :: k < j < |log| && j != n ==> log[j] == front[j];
      }
    }
  }

  lemma {:induction false} AlternatesAt(log: seq<Presence>, j: nat)
    requires Alternates(log) && j < |log| && !log[j].online
    ensures LastOnline(log[..j], log[j].device)
  {
    var n := |log| - 1;
    if j < n {
      assert log[..n][..j] == log[..j];
      AlternatesAt(log[..n], j);
    }
  }

  // Between two offline events of a device there is an online event of that device.
  lemma OnlineBetweenOfflines(log: seq<Presence>, i: nat, j: nat, d: Uuid)
    requires Alternates(log) && i < j < |log|
    requires log[i] == Presence(d, false) && log[j] == Presence(d, false)
    ensures exists k :: i < k < j && log[k] == Presence(d, true)
  {
    AlternatesAt(log, j);
    LastOnlineMeansOnlineSince(log[..j], d);
    var k :| 0 <= k < j && log[..j][k] == Presence(d, true)
          && forall m :: k < m < j ==> log[..j][m] != Presence(d, false);
    assert log[..j][i] == Presence(d, false);
    assert log[k] == Presence(d, true);
  }
}
