// Who is told what, in every run: each announcement and each broadcast reaches every client of its organization once,
// and a heartbeat keeps its agent registered.
module HubDelivery {
  import opened Common
  import opened HubCore
  import opened HubProtocol
  import opened HubProofs
  import opened HubRuns

  ghost predicate Connected(s: State, o: Uuid, u: Uuid) {
    o in s.core.clients && u in s.core.clients[o] && s.core.clients[o][u].chan in s.core.chans
  }

  // The channel of client u of organization o.
  function ChannelOf(s: State, o: Uuid, u: Uuid): Channel
    requires Connected(s, o, u)
  {
    s.core.chans[s.core.clients[o][u].chan]
  }

  lemma ClientConnected(s: State, o: Uuid, u: Uuid)
    requires Inv(s) && o in s.core.clients && u in s.core.clients[o]
    ensures Connected(s, o, u) && !ChannelOf(s, o, u).closed
  {
    assert ClientOk(s.core.clients[o][u], o, u, s.owner, s.core.chans);
  }

  // ---- Announcements, made under the write lock ----

  // What thread t, inside the hub, has still to tell the client.
  function Owed(s: State, t: Tid, o: Uuid, u: Uuid): seq<Envelope> {
    if InHub(s, t) && s.threads[t].sends.Sends? && s.threads[t].sends.env.org == o && u in s.threads[t].sends.todo
    then [s.threads[t].sends.env] else []
  }

  function Online(a: AgentSession, at: Time): Envelope {
    Envelope(a.org, Message(DeviceOnline(a.device, a.hostname), a.org, at))
  }

  function Offline(a: AgentSession, at: Time, timedOut: bool): Envelope {
    Envelope(a.org, Message(DeviceOffline(a.device, a.hostname, timedOut), a.org, at))
  }

  // The envelope, if it is for the organization.
  function For(o: Uuid, env: Envelope): seq<Envelope> {
    if env.org == o then [env] else []
  }

  // What the clients of the organization are to be told because of a step.
  function Due(s: State, e: Step, o: Uuid): seq<Envelope>
    requires Enabled(s, e)
  {
    match e
    case LockWrite(t) =>
      (match s.threads[t].op
       case RegisterAgent(a) => For(o, Online(a, s.clock))
       case UnregisterAgent(d) => if d in s.core.agents then For(o, Offline(s.core.agents[d], s.clock, false)) else []
       case _ => [])
    case Examine(t, d) =>
      var now := s.threads[t].sweep.now;
      if d in s.core.agents && now - s.core.agents[d].lastHeartbeat > s.ttl
      then For(o, Offline(s.core.agents[d], now, true)) else []
    case _ => []
  }

  // What the client has heard, and is about to hear from thread t.
  function Story(s: State, t: Tid, o: Uuid, u: Uuid): seq<Envelope>
    requires Connected(s, o, u)
  {
    Heard(ChannelOf(s, o, u)) + Owed(s, t, o, u)
  }

  // The thread has entered by registering, unregistering or sweeping agents.
  predicate Announcer(op: Op) {
    op.RegisterAgent? || op.UnregisterAgent? || op.Tick?
  }

  lemma SameHeard(ch: Channel, ch': Channel)
    requires ch'.attempts == ch.attempts
    ensures Heard(ch') == Heard(ch)
  {
  }

  // Entering the hub changes no attempts.
  lemma EnterTells(s: State, t: Tid, o: Uuid, u: Uuid)
    requires Enabled(s, LockWrite(t)) && Announcer(s.threads[t].op) && Connected(s, o, u)
    ensures var s' := Apply(s, LockWrite(t));
      && s'.core.clients == s.core.clients && Connected(s', o, u)
      && Story(s', t, o, u) == Heard(ChannelOf(s, o, u)) + Due(s, LockWrite(t), o)
  {
    SameHeard(ChannelOf(s, o, u), ChannelOf(Apply(s, LockWrite(t)), o, u));
  }

  lemma ExamineTells(s: State, t: Tid, d: Uuid, o: Uuid, u: Uuid)
    requires Enabled(s, Examine(t, d)) && Connected(s, o, u)
    ensures var s' := Apply(s, Examine(t, d));
      && s'.core.clients == s.core.clients && Connected(s', o, u)
      && Story(s', t, o, u) == Story(s, t, o, u) + Due(s, Examine(t, d), o)
  {
    SameHeard(ChannelOf(s, o, u), ChannelOf(Apply(s, Examine(t, d)), o, u));
    assert Owed(s, t, o, u) == [];
  }

  // What a send finds: its client is registered with an open channel, which no other client shares.
  ghost predicate SendReady(s: State, t: Tid, user: Uuid, o: Uuid, u: Uuid)
    requires Enabled(s, Send(t, user)) && Connected(s, o, u)
  {
    var env := s.threads[t].sends.env;
    && user in Visits(s.core.clients, env) && Connected(s, env.org, user) && !ChannelOf(s, env.org, user).closed
    && (s.core.clients[env.org][user].chan == s.core.clients[o][u].chan ==> env.org == o && user == u)
  }

  lemma InvSendReady(s: State, t: Tid, user: Uuid, o: Uuid, u: Uuid)
    requires Inv(s) && Enabled(s, Send(t, user)) && Connected(s, o, u)
    ensures SendReady(s, t, user, o, u)
  {
    var env := s.threads[t].sends.env;
    assert user in Visits(s.core.clients, env);
    ClientConnected(s, env.org, user);
    assert ClientOk(s.core.clients[o][u], o, u, s.owner, s.core.chans);
    assert ClientOk(s.core.clients[env.org][user], env.org, user, s.owner, s.core.chans);
  }

  lemma HeardOnce(ch: Channel, env: Envelope)
    ensures Heard(Offer(ch, env)) == Heard(ch) + [env]
  {
  }

  // A send turns what is owed to one client into what it has heard, and leaves every other client alone.
  lemma SendTells(s: State, t: Tid, user: Uuid, o: Uuid, u: Uuid)
    requires Enabled(s, Send(t, user)) && Connected(s, o, u) && SendReady(s, t, user, o, u)
    ensures var s' := Apply(s, Send(t, user));
      && s'.core.clients == s.core.clients && Connected(s', o, u)
      && Story(s', t, o, u) == Story(s, t, o, u)
  {
    var env := s.threads[t].sends.env;
    var s' := Apply(s, Send(t, user));
    HeardOnce(ChannelOf(s, env.org, user), env);
    if o == env.org && u == user {
      assert Owed(s, t, o, u) == [env] && Owed(s', t, o, u) == [];
    } else {
      assert ChannelOf(s', o, u) == ChannelOf(s, o, u);
    }
  }

  lemma OthersTellNothing(s: State, e: Step, t: Tid, o: Uuid, u: Uuid)
    requires LockInv(s.threads, s.readers, s.writer) && Enabled(s, e)
    requires s.writer == Some(t) && e != Unlock(t) && Connected(s, o, u)
    requires !e.Send? && !e.Examine?
    ensures var s' := Apply(s, e);
      && s'.core.clients == s.core.clients && Connected(s', o, u)
      && t in s.threads && t in s'.threads && s'.threads[t] == s.threads[t]
      && ChannelOf(s', o, u).attempts == ChannelOf(s, o, u).attempts && Due(s, e, o) == []
  {
    assert t in s.threads && s.threads[t].Writing?;
    match e
    case Call(_, op, _) =>
    case LockWrite(_) => assert false;
    case LockRead(_) => assert false;
    case Unlock(_) =>
    case Consume(_) =>
    case Elapse(_) =>
  }

  // While thread t holds the write lock, a client's story grows by what is due and in no other way.
  lemma WriterTells(s: State, e: Step, t: Tid, o: Uuid, u: Uuid)
    requires Inv(s) && Enabled(s, e) && s.writer == Some(t) && e != Unlock(t) && Connected(s, o, u)
    ensures var s' := Apply(s, e);
      && s'.core.clients == s.core.clients && Connected(s', o, u)
      && Story(s', t, o, u) == Story(s, t, o, u) + Due(s, e, o)
  {
    if e.Send? { InvSendReady(s, e.t, e.user, o, u); }
    EachTells(s, e, t, o, u);
  }

  lemma EachTells(s: State, e: Step, t: Tid, o: Uuid, u: Uuid)
    requires LockInv(s.threads, s.readers, s.writer) && Enabled(s, e)
    requires s.writer == Some(t) && e != Unlock(t) && Connected(s, o, u)
    requires e.Send? ==> SendReady(s, e.t, e.user, o, u)
    ensures var s' := Apply(s, e);
      && s'.core.clients == s.core.clients && Connected(s', o, u)
      && Story(s', t, o, u) == Story(s, t, o, u) + Due(s, e, o)
  {
    if e.Send? {
      OnlyWriter(s, e.t, t);
      SendTells(s, t, e.user, o, u);
    } else if e.Examine? {
      OnlyWriter(s, e.t, t);
      ExamineTells(s, t, e.device, o, u);
    } else {
      OthersTellNothing(s, e, t, o, u);
      SameHeard(ChannelOf(s, o, u), ChannelOf(Apply(s, e), o, u));
    }
  }

  lemma OnlyWriter(s: State, t': Tid, t: Tid)
    requires LockInv(s.threads, s.readers, s.writer) && s.writer == Some(t) && InHub(s, t')
    ensures t' == t
  {
  }

  // The writer stays in the hub; an operation other than a sweep does not turn into one.
  lemma WriterStays(s: State, e: Step, t: Tid)
    requires LockInv(s.threads, s.readers, s.writer) && Enabled(s, e) && e != Unlock(t)
    requires t in s.threads && s.threads[t].Writing?
    ensures var s' := Apply(s, e);
      && t in s'.threads && s'.threads[t].Writing? && (s.threads[t].sweep.NoSweep? ==> s'.threads[t].sweep.NoSweep?)
  {
    match e
    case LockWrite(_) => assert false;
    case _ =>
  }

  // Since state s, at which thread t entered the hub to register or unregister an agent, the client's story has
  // grown by what was due then.
  ghost predicate Telling(s: State, s': State, t: Tid, o: Uuid, u: Uuid, due: seq<Envelope>) {
    && Connected(s, o, u) && Connected(s', o, u) && s'.core.clients == s.core.clients
    && t in s'.threads && s'.threads[t].Writing? && s'.threads[t].sweep.NoSweep?
    && Story(s', t, o, u) == Heard(ChannelOf(s, o, u)) + due
  }

  lemma TellingGoesOn(s: State, s1: State, e: Step, t: Tid, o: Uuid, u: Uuid, due: seq<Envelope>)
    requires Inv(s1) && Enabled(s1, e) && e != Unlock(t) && Telling(s, s1, t, o, u, due)
    ensures Telling(s, Apply(s1, e), t, o, u, due)
  {
    assert s1.writer == Some(t);
    WriterStays(s1, e, t);
    WriterTells(s1, e, t, o, u);
    assert Due(s1, e, o) == [] by { OnlySweepsExamine(s1, e, t, o); }
  }

  lemma OnlySweepsExamine(s: State, e: Step, t: Tid, o: Uuid)
    requires LockInv(s.threads, s.readers, s.writer) && Enabled(s, e)
    requires t in s.threads && s.threads[t].Writing? && s.threads[t].sweep.NoSweep?
    ensures Due(s, e, o) == []
  {
  }

  lemma {:induction false} TellingLasts(states: seq<State>, steps: seq<Step>, t: Tid, i: nat, k: nat, o: Uuid, u: Uuid)
    requires Run(states, steps) && i < k < |states| && Holds(steps, t, i, k)
    requires t in states[i].threads && states[i].threads[t].Waiting?
    requires states[i].threads[t].op.RegisterAgent? || states[i].threads[t].op.UnregisterAgent?
    requires o in states[i].core.clients && u in states[i].core.clients[o]
    ensures StepAt(states, steps, i) && Telling(states[i], states[k], t, o, u, Due(states[i], steps[i], o))
    decreases k
  {
    assert StepAt(states, steps, i);
    if k == i + 1 {
      RunInv(states, steps, i);
      ClientConnected(states[i], o, u);
      EnterTells(states[i], t, o, u);
    } else {
      TellingLasts(states, steps, t, i, k - 1, o, u);
      RunInv(states, steps, k - 1);
      assert StepAt(states, steps, k - 1);
      TellingGoesOn(states[i], states[k - 1], steps[k - 1], t, o, u, Due(states[i], steps[i], o));
    }
  }

  // Thread t takes the write lock at step i and has not released it before step k.
  ghost predicate Holds(steps: seq<Step>, t: Tid, i: nat, k: nat) {
    i < k <= |steps| && steps[i] == LockWrite(t) && forall m :: i < m < k ==> steps[m] != Unlock(t)
  }

  // Between states s and s' every client has been offered exactly the messages `told`, those for its organization.
  ghost predicate ToldExactly(s: State, s': State, told: seq<Envelope>, o: Uuid, u: Uuid) {
    Connected(s, o, u) && Connected(s', o, u) && Heard(ChannelOf(s', o, u)) == Heard(ChannelOf(s, o, u)) + told
  }

  lemma UnlockTells(s: State, t: Tid, o: Uuid, u: Uuid)
    requires Enabled(s, Unlock(t)) && Connected(s, o, u)
    ensures var s' := Apply(s, Unlock(t));
      Connected(s', o, u) && ChannelOf(s', o, u) == ChannelOf(s, o, u) && Owed(s, t, o, u) == []
  {
  }

  // A registration, from taking the lock at step i to releasing it at step j: the agent is in the registry, heard
  // from now, and every client of its organization is told so once; nobody else is told anything.
  lemma RegistrationAnnounced(states: seq<State>, steps: seq<Step>, t: Tid, a: AgentSession, i: nat, j: nat)
    requires Run(states, steps) && j < |steps| && Holds(steps, t, i, j) && steps[j] == Unlock(t)
    requires AtPc(states[i], t, Waiting(RegisterAgent(a)))
    ensures states[i + 1].core.agents == states[i].core.agents[a.device := a.(lastHeartbeat := states[i].clock)]
    ensures var told := Envelope(a.org, Message(DeviceOnline(a.device, a.hostname), a.org, states[i].clock));
      forall o, u :: o in states[i].core.clients && u in states[i].core.clients[o] ==>
        ToldExactly(states[i], states[j + 1], if a.org == o then [told] else [], o, u)
  {
    assert StepAt(states, steps, i) && StepAt(states, steps, j);
    forall o, u | o in states[i].core.clients && u in states[i].core.clients[o]
      ensures ToldExactly(states[i], states[j + 1], For(o, Online(a, states[i].clock)), o, u)
    {
      TellingLasts(states, steps, t, i, j, o, u);
      UnlockTells(states[j], t, o, u);
    }
  }

  // An unregistration: of a registered agent every client of its organization is told once, with no word of a
  // timeout; of an unknown one nobody is told anything.
  lemma UnregistrationAnnounced(states: seq<State>, steps: seq<Step>, t: Tid, d: Uuid, i: nat, j: nat)
    requires Run(states, steps) && j < |steps| && Holds(steps, t, i, j) && steps[j] == Unlock(t)
    requires AtPc(states[i], t, Waiting(UnregisterAgent(d)))
    ensures states[i + 1].core.agents == states[i].core.agents - {d}
    ensures d !in states[i].core.agents ==>
      forall o, u :: o in states[i].core.clients && u in states[i].core.clients[o] ==>
        ToldExactly(states[i], states[j + 1], [], o, u)
    ensures d in states[i].core.agents ==>
      var a := states[i].core.agents[d];
      var told := Envelope(a.org, Message(DeviceOffline(d, a.hostname, false), a.org, states[i].clock));
      forall o, u :: o in states[i].core.clients && u in states[i].core.clients[o] ==>
        ToldExactly(states[i], states[j + 1], if a.org == o then [told] else [], o, u)
  {
    assert StepAt(states, steps, i) && StepAt(states, steps, j);
    RunInv(states, steps, i);
    forall o, u | o in states[i].core.clients && u in states[i].core.clients[o]
      ensures ToldExactly(states[i], states[j + 1], Due(states[i], steps[i], o), o, u)
    {
      TellingLasts(states, steps, t, i, j, o, u);
      UnlockTells(states[j], t, o, u);
    }
  }

  // ---- The sweep ----

  // In the sweep that thread t entered at state s, the client's story has grown by the news of the agents gone so far.
  ghost predicate Reporting(s: State, s': State, t: Tid, now: Time, o: Uuid, u: Uuid) {
    && Connected(s, o, u) && Connected(s', o, u) && s'.core.clients == s.core.clients && SweepFrom(s', t, now, s)
    && Story(s', t, o, u)
       == Heard(ChannelOf(s, o, u)) + News(s'.threads[t].sweep.gone, s.core.agents, o, now)
  }

  lemma NewsGrows(gone: seq<Uuid>, d: Uuid, agents: Agents, o: Uuid, now: Time)
    requires d in agents && agents[d].device == d
    ensures News(gone + [d], agents, o, now) == News(gone, agents, o, now) + For(o, Offline(agents[d], now, true))
  {
    assert (gone + [d])[..|gone|] == gone;
  }

  // What an examination adds to the list of those gone is what is due because of it.
  lemma ExamineReports(s: State, t: Tid, d: Uuid, now: Time, start: State, o: Uuid)
    requires Inv(s) && Enabled(s, Examine(t, d)) && SweepFrom(s, t, now, start)
    requires forall x :: x in start.core.agents ==> start.core.agents[x].device == x
    ensures var s' := Apply(s, Examine(t, d));
      && t in s'.threads && s'.threads[t].Writing? && s'.threads[t].sweep.Sweep?
      && News(s'.threads[t].sweep.gone, start.core.agents, o, now)
         == News(s.threads[t].sweep.gone, start.core.agents, o, now) + Due(s, Examine(t, d), o)
  {
    var sweep := s.threads[t].sweep;
    assert SweepOk(sweep, s.core.agents, s.core.presence, s.clock, s.ttl);
    if d in s.core.agents {
      assert s.core.agents[d] == start.core.agents[d];
      NewsGrows(sweep.gone, d, start.core.agents, o, now);
    }
  }

  lemma SweepSame(s: State, e: Step, t: Tid)
    requires LockInv(s.threads, s.readers, s.writer) && Enabled(s, e) && e != Unlock(t) && !e.Examine?
    requires Sweeping(s, t)
    ensures Sweeping(Apply(s, e), t) && Apply(s, e).threads[t].sweep == s.threads[t].sweep
    ensures forall o :: Due(s, e, o) == []
  {
    match e
    case LockWrite(_) => assert false;
    case _ =>
  }

  // What a step adds to the list of those gone is what is due because of it.
  lemma SweepReports(s: State, e: Step, t: Tid, now: Time, start: State, o: Uuid)
    requires Inv(s) && Enabled(s, e) && e != Unlock(t) && SweepFrom(s, t, now, start)
    requires forall x :: x in start.core.agents ==> start.core.agents[x].device == x
    ensures SweepFrom(Apply(s, e), t, now, start)
    ensures News(Apply(s, e).threads[t].sweep.gone, start.core.agents, o, now)
         == News(s.threads[t].sweep.gone, start.core.agents, o, now) + Due(s, e, o)
  {
    SweepGoesOn(s, e, Apply(s, e), t, now, start);
    if e.Examine? {
      assert s.writer == Some(t);
      OnlyWriter(s, e.t, t);
      ExamineReports(s, t, e.device, now, start, o);
    } else {
      SweepSame(s, e, t);
    }
  }

  lemma SweeperWrites(s: State, t: Tid)
    requires Inv(s) && Sweeping(s, t)
    ensures s.writer == Some(t)
  {
  }

  lemma ReportingGoesOn(s: State, s1: State, e: Step, t: Tid, now: Time, o: Uuid, u: Uuid)
    requires Inv(s1) && Enabled(s1, e) && e != Unlock(t) && Reporting(s, s1, t, now, o, u)
    requires forall x :: x in s.core.agents ==> s.core.agents[x].device == x
    ensures Reporting(s, Apply(s1, e), t, now, o, u)
  {
    SweeperWrites(s1, t);
    SweepReports(s1, e, t, now, s, o);
    WriterTells(s1, e, t, o, u);
    Assoc(Heard(ChannelOf(s, o, u)), News(s1.threads[t].sweep.gone, s.core.agents, o, now), Due(s1, e, o));
  }

  lemma ReportingStarts(s: State, t: Tid, now: Time, o: Uuid, u: Uuid)
    requires Enabled(s, LockWrite(t)) && AtPc(s, t, Waiting(Tick(now))) && Connected(s, o, u)
    ensures Reporting(s, Apply(s, LockWrite(t)), t, now, o, u)
  {
    EnterTells(s, t, o, u);
    TickStartsSweep(s, Apply(s, LockWrite(t)), t, now);
  }

  lemma DevicesKeyed(s: State)
    requires Inv(s)
    ensures forall x :: x in s.core.agents ==> s.core.agents[x].device == x
  {
  }

  lemma {:induction false} ReportingLasts(states: seq<State>, steps: seq<Step>, t: Tid, now: Time, i: nat, k: nat,
                                          o: Uuid, u: Uuid)
    requires Run(states, steps) && i < k < |states| && Holds(steps, t, i, k)
    requires AtPc(states[i], t, Waiting(Tick(now)))
    requires o in states[i].core.clients && u in states[i].core.clients[o]
    ensures Reporting(states[i], states[k], t, now, o, u)
    decreases k
  {
    RunInv(states, steps, k - 1);
    assert StepAt(states, steps, k - 1);
    if k == i + 1 {
      ClientConnected(states[i], o, u);
      ReportingStarts(states[i], t, now, o, u);
    } else {
      ReportingLasts(states, steps, t, now, i, k - 1, o, u);
      RunInv(states, steps, i);
      DevicesKeyed(states[i]);
      ReportingGoesOn(states[i], states[k - 1], steps[k - 1], t, now, o, u);
    }
  }

  // A whole sweep: the agents gone are exactly those silent for longer than the TTL, and every client has been told of
  // exactly those of its own organization, of each once and of each that its time had run out.
  lemma SweepAnnounced(states: seq<State>, steps: seq<Step>, t: Tid, now: Time, i: nat, j: nat)
    returns (gone: seq<Uuid>)
    requires Run(states, steps) && j < |steps| && Holds(steps, t, i, j) && steps[j] == Unlock(t)
    requires AtPc(states[i], t, Waiting(Tick(now)))
    ensures forall d :: d in gone <==>
              d in states[i].core.agents && now - states[i].core.agents[d].lastHeartbeat > states[i].ttl
    ensures forall k, l :: 0 <= k < l < |gone| ==> gone[k] != gone[l]
    ensures states[j + 1].core.presence == states[i].core.presence + OfflineEvents(gone)
    ensures forall o, u :: o in states[i].core.clients && u in states[i].core.clients[o] ==>
              ToldExactly(states[i], states[j + 1], News(gone, states[i].core.agents, o, now), o, u)
  {
    SweepStart(states, steps, t, now, i, j);
    RunInv(states, steps, j);
    assert StepAt(states, steps, j);
    var sweep := states[j].threads[t].sweep;
    assert SweepOk(sweep, states[j].core.agents, states[j].core.presence, states[j].clock, states[j].ttl);
    gone := sweep.gone;
    forall o, u | o in states[i].core.clients && u in states[i].core.clients[o]
      ensures ToldExactly(states[i], states[j + 1], News(gone, states[i].core.agents, o, now), o, u)
    {
      ReportingLasts(states, steps, t, now, i, j, o, u);
      UnlockTells(states[j], t, o, u);
    }
  }

  // ---- Broadcasts, made under the read lock ----

  // Thread t, having entered at state s, has still to serve the clients in `todo`.
  ghost predicate Serving(s: State, s': State, t: Tid, env: Envelope, todo: set<Uuid>) {
    && s'.core.clients == s.core.clients
    && t in s'.threads && s'.threads[t] == Reading(Sends(env, todo))
  }

  // The clients of the organization; nobody, if the message cannot be encoded.
  function Audience(s: State, env: Envelope): set<Uuid> {
    if (env.msg.event.Custom? && env.msg.event.data.None?) || env.org !in s.core.clients then {}
    else s.core.clients[env.org].Keys
  }

  lemma ServingStarts(s: State, t: Tid, env: Envelope)
    requires Enabled(s, LockRead(t)) && AtPc(s, t, Waiting(BroadcastToOrg(env)))
    ensures Serving(s, Apply(s, LockRead(t)), t, env, Audience(s, env))
  {
  }

  // Only a send of its own changes whom a reader has still to serve, and nobody joins or leaves meanwhile.
  lemma ServingGoesOn(s: State, s1: State, e: Step, t: Tid, env: Envelope, todo: set<Uuid>)
    requires LockInv(s1.threads, s1.readers, s1.writer) && Enabled(s1, e) && e != Unlock(t)
    requires Serving(s, s1, t, env, todo)
    ensures Serving(s, Apply(s1, e), t, env, if e.Send? && e.t == t then todo - {e.user} else todo)
    ensures e.Send? && e.t == t ==> e.user in todo
  {
    assert t in s1.readers;
    match e
    case LockWrite(_) => assert false;
    case Examine(_, _) => assert false;
    case _ =>
  }

  // Step k serves client u: its channel is offered the message, and no other channel changes.
  ghost predicate Serves(states: seq<State>, steps: seq<Step>, t: Tid, k: nat, env: Envelope, u: Uuid)
    requires k < |steps| && |states| == |steps| + 1
  {
    && steps[k] == Send(t, u)
    && Connected(states[k], env.org, u)
    && var c := states[k].core.clients[env.org][u].chan;
       && c in states[k + 1].core.chans
       && OfferedOnce(states[k].core.chans[c], states[k + 1].core.chans[c], env)
       && (forall c' :: c' in states[k].core.chans && c' != c ==>
             c' in states[k + 1].core.chans && states[k + 1].core.chans[c'] == states[k].core.chans[c'])
  }

  lemma SendServes(s: State, t: Tid, u: Uuid, env: Envelope)
    requires Enabled(s, Send(t, u)) && s.threads[t].sends.env == env
    requires Connected(s, env.org, u) && SendReady(s, t, u, env.org, u)
    ensures var s' := Apply(s, Send(t, u));
         var c := s.core.clients[env.org][u].chan;
         && c in s'.core.chans && OfferedOnce(s.core.chans[c], s'.core.chans[c], env)
         && (forall c' :: c' in s.core.chans && c' != c ==>
               c' in s'.core.chans && s'.core.chans[c'] == s.core.chans[c'])
  {
  }

  lemma SenderConnected(s: State, t: Tid, u: Uuid)
    requires Inv(s) && Enabled(s, Send(t, u))
    ensures Connected(s, s.threads[t].sends.env.org, u)
  {
    assert u in Visits(s.core.clients, s.threads[t].sends.env);
    ClientConnected(s, s.threads[t].sends.env.org, u);
  }

  // The users served by steps i..k.
  function Served(steps: seq<Step>, t: Tid, i: nat, k: nat): set<Uuid>
    requires k <= |steps|
  {
    set m | i <= m < k && steps[m].Send? && steps[m].t == t :: steps[m].user
  }

  lemma ServedOneMore(steps: seq<Step>, t: Tid, i: nat, k: nat)
    requires i <= k < |steps|
    ensures Served(steps, t, i, k + 1)
         == Served(steps, t, i, k) + if steps[k].Send? && steps[k].t == t then {steps[k].user} else {}
  {
    if steps[k].Send? && steps[k].t == t { assert steps[k].user in Served(steps, t, i, k + 1); }
  }

  // Thread t takes the read lock at step i to broadcast, and has not released it before step k.
  ghost predicate Broadcasts(states: seq<State>, steps: seq<Step>, t: Tid, env: Envelope, i: nat, k: nat) {
    && Run(states, steps) && i < k < |states| && steps[i] == LockRead(t)
    && AtPc(states[i], t, Waiting(BroadcastToOrg(env)))
    && forall m :: i < m < k ==> steps[m] != Unlock(t)
  }

  lemma {:induction false} ServingLasts(states: seq<State>, steps: seq<Step>, t: Tid, env: Envelope, i: nat, k: nat)
    requires Broadcasts(states, steps, t, env, i, k)
    ensures Serving(states[i], states[k], t, env, Audience(states[i], env) - Served(steps, t, i + 1, k))
    ensures Served(steps, t, i + 1, k) <= Audience(states[i], env)
    decreases k
  {
    if k == i + 1 {
      assert StepAt(states, steps, i);
      ServingStarts(states[i], t, env);
      assert Audience(states[i], env) - Served(steps, t, i + 1, k) == Audience(states[i], env);
    } else {
      ServingLasts(states, steps, t, env, i, k - 1);
      RunLockInv(states, steps, k - 1);
      assert StepAt(states, steps, k - 1);
      var left := Audience(states[i], env) - Served(steps, t, i + 1, k - 1);
      ServingGoesOn(states[i], states[k - 1], steps[k - 1], t, env, left);
      ServedOneMore(steps, t, i + 1, k - 1);
      assert Audience(states[i], env) - Served(steps, t, i + 1, k)
          == if steps[k - 1].Send? && steps[k - 1].t == t then left - {steps[k - 1].user} else left;
    }
  }

  // Nobody is served twice.
  lemma ServedOnce(states: seq<State>, steps: seq<Step>, t: Tid, env: Envelope, i: nat, k: nat, l: nat)
    requires Broadcasts(states, steps, t, env, i, l + 1) && i < k < l
    requires steps[k].Send? && steps[k].t == t && steps[l].Send? && steps[l].t == t
    ensures steps[k].user != steps[l].user
  {
    ServingLasts(states, steps, t, env, i, l);
    assert StepAt(states, steps, l);
    assert steps[k].user in Served(steps, t, i + 1, l);
  }

  lemma NoneLeft<A>(xs: set<A>, ys: set<A>)
    requires xs - ys == {}
    ensures xs <= ys
  {
    assert xs <= (xs - ys) + ys;
  }

  // A broadcast, from taking the read lock at step i to releasing it at step j, whatever other broadcasts, receives
  // and calls go on meanwhile: a message that can be encoded is offered, by a step of its own, to every client of the
  // organization, to each once; every send of the broadcast is such a step. One that cannot is offered to nobody.
  lemma BroadcastReachesAll(states: seq<State>, steps: seq<Step>, t: Tid, env: Envelope, i: nat, j: nat)
    requires j < |steps| && Broadcasts(states, steps, t, env, i, j) && steps[j] == Unlock(t)
    ensures env.msg.event.Custom? && env.msg.event.data.None? ==>
              forall k :: i < k < j ==> !(steps[k].Send? && steps[k].t == t)
    ensures !(env.msg.event.Custom? && env.msg.event.data.None?) ==>
              forall u :: env.org in states[i].core.clients && u in states[i].core.clients[env.org] ==>
                exists k :: i < k < j && Serves(states, steps, t, k, env, u)
    ensures forall k :: i < k < j && steps[k].Send? && steps[k].t == t ==>
              Serves(states, steps, t, k, env, steps[k].user)
    ensures forall k, l :: i < k < l < j && steps[k].Send? && steps[k].t == t && steps[l].Send? && steps[l].t == t ==>
              steps[k].user != steps[l].user
  {
    ServingLasts(states, steps, t, env, i, j);
    assert StepAt(states, steps, j);
    forall k | i < k < j && steps[k].Send? && steps[k].t == t
      ensures Serves(states, steps, t, k, env, steps[k].user) && steps[k].user in Audience(states[i], env)
    {
      ServingLasts(states, steps, t, env, i, k);
      RunInv(states, steps, k);
      assert StepAt(states, steps, k);
      SenderConnected(states[k], t, steps[k].user);
      InvSendReady(states[k], t, steps[k].user, env.org, steps[k].user);
      SendServes(states[k], t, steps[k].user, env);
      assert steps[k].user in Served(steps, t, i + 1, j);
    }
    forall k, l | i < k < l < j && steps[k].Send? && steps[k].t == t && steps[l].Send? && steps[l].t == t
      ensures steps[k].user != steps[l].user
    {
      ServedOnce(states, steps, t, env, i, k, l);
    }
    NoneLeft(Audience(states[i], env), Served(steps, t, i + 1, j));
    forall u | u in Audience(states[i], env)
      ensures exists k :: i < k < j && Serves(states, steps, t, k, env, u)
    {
      assert u in Served(steps, t, i + 1, j);
    }
  }

  // ---- Receiving ----

  // A client that goes on receiving gets, in order, everything that was not dropped: as many receives as messages
  // wait empty the buffer.
  lemma {:induction false} DrainDelivers(states: seq<State>, steps: seq<Step>, c: ChanId)
    returns (states': seq<State>, steps': seq<Step>)
    requires Run(states, steps) && c in states[|steps|].core.chans
    ensures Run(states', steps') && states <= states' && steps <= steps'
    ensures |steps'| == |steps| + |states[|steps|].core.chans[c].buffer|
    ensures forall k :: |steps| <= k < |steps'| ==> steps'[k] == Consume(c)
    ensures c in states'[|steps'|].core.chans
    ensures var ch := states'[|steps'|].core.chans[c];
      && ch.buffer == [] && ch.attempts == states[|steps|].core.chans[c].attempts
      && ch.consumed == Outcome(ch.attempts, true)
    decreases |states[|steps|].core.chans[c].buffer|
  {
    var s := states[|steps|];
    RunInv(states, steps, |steps|);
    var ch := s.core.chans[c];
    assert ChannelOk(ch);
    if ch.buffer == [] {
      states', steps' := states, steps;
      assert ch.consumed + ch.buffer == ch.consumed;
    } else {
      var longer, more := Extend(states, steps, Consume(c));
      states', steps' := DrainDelivers(longer, more, c);
      assert steps'[|steps|] == more[|steps|];
    }
  }

  lemma Extend(states: seq<State>, steps: seq<Step>, e: Step) returns (states': seq<State>, steps': seq<Step>)
    requires Run(states, steps) && Enabled(states[|steps|], e)
    ensures Run(states', steps') && steps' == steps + [e]
    ensures states' == states + [Apply(states[|steps|], e)]
  {
    states', steps' := states + [Apply(states[|steps|], e)], steps + [e];
    forall i | 0 <= i < |steps'|
      ensures StepAt(states', steps', i)
    {
      if i < |steps| { assert StepAt(states, steps, i); }
    }
  }

  // ---- Heartbeats ----

  // The agent is registered, and has been heard from since.
  predicate HeardSince(s: State, d: Uuid, at: Time) {
    at <= s.clock && d in s.core.agents && at <= s.core.agents[d].lastHeartbeat
  }

  lemma BeatHeard(s: State, t: Tid, d: Uuid)
    requires Enabled(s, LockWrite(t)) && AtPc(s, t, Waiting(RecordHeartbeat(d))) && d in s.core.agents
    ensures HeardSince(Apply(s, LockWrite(t)), d, s.clock)
  {
  }

  lemma HeardSinceKept(s: State, e: Step, d: Uuid, at: Time)
    requires Inv(s) && Enabled(s, e) && HeardSince(s, d, at) && s.clock - at <= s.ttl
    requires !(e.LockWrite? && AtPc(s, e.t, Waiting(UnregisterAgent(d))))
    ensures HeardSince(Apply(s, e), d, at)
  {
    if d !in Apply(s, e).core.agents {
      StepRemoves(s, e, d);
    } else {
      HeartbeatsOnlyRise(s, e, d);
    }
  }

  lemma HeartbeatsOnlyRise(s: State, e: Step, d: Uuid)
    requires Enabled(s, e) && d in s.core.agents && d in Apply(s, e).core.agents
    requires s.core.agents[d].lastHeartbeat <= s.clock
    ensures var s' := Apply(s, e);
      s.clock <= s'.clock && s.core.agents[d].lastHeartbeat <= s'.core.agents[d].lastHeartbeat && s'.ttl == s.ttl
  {
    if e.LockWrite? { EntryOnlyRaises(s, e.t, d); }
  }

  lemma EntryOnlyRaises(s: State, t: Tid, d: Uuid)
    requires Enabled(s, LockWrite(t)) && d in s.core.agents && d in Apply(s, LockWrite(t)).core.agents
    requires s.core.agents[d].lastHeartbeat <= s.clock
    ensures s.core.agents[d].lastHeartbeat <= Apply(s, LockWrite(t)).core.agents[d].lastHeartbeat
  {
  }

  // A heartbeat of a registered agent at step i keeps it registered, whatever sweeps run, as long as no more than the
  // TTL has passed since and nobody unregisters it.
  lemma {:induction false} HeartbeatKeeps(states: seq<State>, steps: seq<Step>, t: Tid, d: Uuid, i: nat, j: nat)
    requires Run(states, steps) && i < j < |states|
    requires steps[i] == LockWrite(t) && AtPc(states[i], t, Waiting(RecordHeartbeat(d))) && d in states[i].core.agents
    requires states[j].clock - states[i].clock <= states[i].ttl
    requires forall k :: i < k < j ==>
               !(steps[k].LockWrite? && AtPc(states[k], steps[k].t, Waiting(UnregisterAgent(d))))
    ensures HeardSince(states[j], d, states[i].clock) && states[j].ttl == states[i].ttl
    decreases j
  {
    if j == i + 1 {
      assert StepAt(states, steps, i);
      BeatHeard(states[i], t, d);
      TtlConstant(states[i], steps[i]);
    } else {
      assert StepAt(states, steps, j - 1);
      TtlConstant(states[j - 1], steps[j - 1]);
      HeartbeatKeeps(states, steps, t, d, i, j - 1);
      RunInv(states, steps, j - 1);
      HeardSinceKept(states[j - 1], steps[j - 1], d, states[i].clock);
    }
  }

  lemma TtlConstant(s: State, e: Step)
    requires Enabled(s, e)
    ensures Apply(s, e).ttl == s.ttl && s.clock <= Apply(s, e).clock
  {
  }

  // The TTL of a run is the one its hub was made with, 45 seconds if that was not positive.
  lemma {:induction false} TtlOfRun(states: seq<State>, steps: seq<Step>, ttl: Time, clock: Time, i: nat)
    requires Run(states, steps) && i < |states| && states[0] == NewHub(ttl, clock)
    ensures states[i].ttl == if ttl <= 0 then 45 * SECOND else ttl
  {
    if i > 0 {
      TtlOfRun(states, steps, ttl, clock, i - 1);
      assert StepAt(states, steps, i - 1);
      TtlConstant(states[i - 1], steps[i - 1]);
    }
  }

  // Once the holder has left, whoever waits can enter: the lock is never lost.
  lemma FreeLockTaken(s: State, t: Tid)
    requires s.writer.None? && s.readers == {} && t in s.threads && s.threads[t].Waiting?
    ensures Enabled(s, LockWrite(t)) || Enabled(s, LockRead(t))
    ensures var e := if s.threads[t].op.BroadcastToOrg? then LockRead(t) else LockWrite(t);
      Enabled(s, e) && InHub(Apply(s, e), t)
  {
  }
}
