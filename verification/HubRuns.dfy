// What the hub guarantees in every run, whatever the interleaving.
module HubRuns {
  import opened Common
  import opened HubCore
  import opened HubProtocol
  import opened HubProofs

  // states[i] --steps[i]--> states[i + 1], from a new hub.
  ghost predicate Run(states: seq<State>, steps: seq<Step>) {
    && |states| == |steps| + 1
    && (exists ttl, clock :: states[0] == NewHub(ttl, clock))
    && (forall i :: 0 <= i < |steps| ==> StepAt(states, steps, i))
  }

  ghost predicate StepAt(states: seq<State>, steps: seq<Step>, i: nat)
    requires i < |steps| && |states| == |steps| + 1
  {
    Next(states[i], steps[i], states[i + 1])
  }

  lemma {:induction false} RunInv(states: seq<State>, steps: seq<Step>, i: nat)
    requires Run(states, steps) && i < |states|
    ensures Inv(states[i])
  {
    if i == 0 {
      var ttl, clock :| states[0] == NewHub(ttl, clock);
      NewHubInv(ttl, clock);
    } else {
      RunInv(states, steps, i - 1);
      assert StepAt(states, steps, i - 1);
      StepKeepsInv(states[i - 1], steps[i - 1]);
    }
  }

  ghost predicate OpenChan(core: Core, c: ChanId) {
    c in core.chans && !core.chans[c].closed
  }

  // Nothing ever sends on a closed channel or closes one twice; the channel of every registered
  // session is open, and no two registered sessions share one.
  lemma ChannelSafety(states: seq<State>, steps: seq<Step>, i: nat)
    requires Run(states, steps) && i < |states|
    ensures !states[i].core.panicked
    ensures forall c :: c in states[i].core.chans ==> states[i].core.chans[c].closes <= 1
    ensures forall d :: d in states[i].core.agents ==> OpenChan(states[i].core, states[i].core.agents[d].chan)
    ensures forall o, u :: o in states[i].core.clients && u in states[i].core.clients[o] ==>
              OpenChan(states[i].core, states[i].core.clients[o][u].chan)
    ensures forall d, d' :: d in states[i].core.agents && d' in states[i].core.agents && d != d' ==>
              states[i].core.agents[d].chan != states[i].core.agents[d'].chan
    ensures forall o, u, o', u' ::
              (o in states[i].core.clients && u in states[i].core.clients[o]
               && o' in states[i].core.clients && u' in states[i].core.clients[o'] && (o != o' || u != u')) ==>
              states[i].core.clients[o][u].chan != states[i].core.clients[o'][u'].chan
  {
    RunInv(states, steps, i);
    var s := states[i];
    forall c | c in s.core.chans
      ensures s.core.chans[c].closes <= 1
    {
      assert ChannelOk(s.core.chans[c]);
    }
    forall o, u | o in s.core.clients && u in s.core.clients[o]
      ensures OpenChan(s.core, s.core.clients[o][u].chan)
    {
      assert ClientOk(s.core.clients[o][u], o, u, s.owner, s.core.chans);
    }
    forall o, u, o', u' | o in s.core.clients && u in s.core.clients[o]
        && o' in s.core.clients && u' in s.core.clients[o'] && (o != o' || u != u')
      ensures s.core.clients[o][u].chan != s.core.clients[o'][u'].chan
    {
      assert ClientOk(s.core.clients[o][u], o, u, s.owner, s.core.chans);
      assert ClientOk(s.core.clients[o'][u'], o', u', s.owner, s.core.chans);
    }
  }

  // Delivery to one client channel: nothing lost but what was dropped, a message dropped exactly when the
  // buffer was full, order kept, and nothing from another organization.
  lemma DeliveryConservation(states: seq<State>, steps: seq<Step>, i: nat, c: ChanId)
    requires Run(states, steps) && i < |states| && c in states[i].core.chans
    ensures var ch := states[i].core.chans[c];
      && |ch.attempts| == |ch.consumed| + |ch.buffer| + |Outcome(ch.attempts, false)|
      && |ch.buffer| <= ch.cap
      && (forall a :: a in ch.attempts ==> (!a.taken <==> a.waiting == ch.cap))
      && |ch.consumed| <= |TakenAt(ch.attempts)|
      && (forall k :: 0 <= k < |ch.consumed| ==> ch.attempts[TakenAt(ch.attempts)[k]].env == ch.consumed[k])
      && (forall k, l :: 0 <= k < l < |ch.consumed| ==> TakenAt(ch.attempts)[k] < TakenAt(ch.attempts)[l])
      && (forall e :: e in ch.consumed + ch.buffer ==> e.org == ch.home)
  {
    RunInv(states, steps, i);
    var ch := states[i].core.chans[c];
    assert ChannelOk(ch);
    Conservation(ch);
    TakenInOrder(ch.attempts);
    forall e | e in ch.consumed + ch.buffer
      ensures e.org == ch.home
    {
      var k :| 0 <= k < |Outcome(ch.attempts, true)| && Outcome(ch.attempts, true)[k] == e;
      assert ch.attempts[TakenAt(ch.attempts)[k]] in ch.attempts;
    }
  }

  // A registered client receives only what was broadcast to its own organization.
  lemma ClientSeesOwnOrgOnly(states: seq<State>, steps: seq<Step>, i: nat, org: Uuid, user: Uuid)
    requires Run(states, steps) && i < |states|
    requires org in states[i].core.clients && user in states[i].core.clients[org]
    ensures var c := states[i].core.clients[org][user];
      && c.org == org && c.user == user
      && c.chan in states[i].core.chans
      && (forall e :: e in states[i].core.chans[c.chan].consumed ==> e.org == org)
  {
    RunInv(states, steps, i);
    var s := states[i];
    var c := s.core.clients[org][user];
    assert ClientOk(c, org, user, s.owner, s.core.chans);
    DeliveryConservation(states, steps, i, c.chan);
  }

  // The registry agrees with the events emitted so far, and keys agree with sessions.
  lemma RegistryMatchesEvents(states: seq<State>, steps: seq<Step>, i: nat, d: Uuid)
    requires Run(states, steps) && i < |states|
    ensures var log := states[i].core.presence;
      d in states[i].core.agents <==>
      exists k :: 0 <= k < |log| && log[k] == Presence(d, true)
               && forall j :: k < j < |log| ==> log[j] != Presence(d, false)
    ensures d in states[i].core.agents ==> states[i].core.agents[d].device == d
    ensures forall o :: o in states[i].core.clients ==> states[i].core.clients[o] != map[]
  {
    RunInv(states, steps, i);
    LastOnlineMeansOnlineSince(states[i].core.presence, d);
  }

  lemma OfflineEventsAlternate(states: seq<State>, steps: seq<Step>, i: nat, j: nat, k: nat, d: Uuid)
    requires Run(states, steps) && i < |states| && j < k < |states[i].core.presence|
    requires states[i].core.presence[j] == states[i].core.presence[k] == Presence(d, false)
    ensures exists m :: j < m < k && states[i].core.presence[m] == Presence(d, true)
  {
    RunInv(states, steps, i);
    OnlineBetweenOfflines(states[i].core.presence, j, k, d);
  }

  // ---- The watchdog ----

  predicate AtPc(s: State, t: Tid, pc: Pc) {
    t in s.threads && s.threads[t] == pc
  }

  ghost predicate Sweeping(s: State, t: Tid) {
    t in s.threads && s.threads[t].Writing? && s.threads[t].sweep.Sweep?
  }

  // The sweep of tick `now` that thread t is in found this registry and this log.
  ghost predicate SweepFrom(s: State, t: Tid, now: Time, start: State) {
    && Sweeping(s, t)
    && s.threads[t].sweep.now == now
    && s.threads[t].sweep.before == start.core.agents
    && s.threads[t].sweep.log == start.core.presence
    && s.ttl == start.ttl
  }

  lemma TickStartsSweep(s: State, s': State, t: Tid, now: Time)
    requires Next(s, LockWrite(t), s') && AtPc(s, t, Waiting(Tick(now)))
    ensures SweepFrom(s', t, now, s)
  {
  }

  lemma SweepGoesOn(s: State, e: Step, s': State, t: Tid, now: Time, start: State)
    requires Next(s, e, s') && LockInv(s.threads, s.readers, s.writer)
    requires SweepFrom(s, t, now, start) && e != Unlock(t)
    ensures SweepFrom(s', t, now, start)
  {
    match e
    case LockWrite(_) => assert false;
    case Send(t', _) =>
    case Examine(t', _) =>
    case Unlock(t') =>
    case _ =>
  }

  lemma RunLockInv(states: seq<State>, steps: seq<Step>, i: nat)
    requires Run(states, steps) && i < |states|
    ensures LockInv(states[i].threads, states[i].readers, states[i].writer)
  {
    RunInv(states, steps, i);
  }

  // While a sweep holds the lock, it keeps its tick, its starting registry and its starting log.
  lemma {:induction false} SweepStart(states: seq<State>, steps: seq<Step>, t: Tid, now: Time, i: nat, j: nat)
    requires Run(states, steps) && i < j < |states|
    requires steps[i] == LockWrite(t) && AtPc(states[i], t, Waiting(Tick(now)))
    requires forall k :: i < k < j ==> steps[k] != Unlock(t)
    ensures SweepFrom(states[j], t, now, states[i])
    decreases j
  {
    if i == j - 1 {
      assert StepAt(states, steps, i);
      TickStartsSweep(states[i], states[j], t, now);
    } else {
      SweepStart(states, steps, t, now, i, j - 1);
      RunLockInv(states, steps, j - 1);
      assert StepAt(states, steps, j - 1);
      SweepGoesOn(states[j - 1], steps[j - 1], states[j], t, now, states[i]);
    }
  }

  // A whole sweep, from taking the lock at step i to releasing it at step j: the agents left are exactly those
  // whose last heartbeat is at most TTL before the tick, and exactly the others have been announced offline,
  // once each, in some order.
  lemma SweepRemovesExactlyTheStale(states: seq<State>, steps: seq<Step>, t: Tid, now: Time, i: nat, j: nat)
    requires Run(states, steps) && i < j < |steps|
    requires steps[i] == LockWrite(t) && AtPc(states[i], t, Waiting(Tick(now)))
    requires forall k :: i < k < j ==> steps[k] != Unlock(t)
    requires steps[j] == Unlock(t)
    ensures var start := states[i].core;
      var end := states[j + 1].core;
      && end.agents == (map d | d in start.agents && now - start.agents[d].lastHeartbeat <= states[i].ttl
                         :: start.agents[d])
      && exists gone: seq<Uuid> ::
           && end.presence == start.presence + OfflineEvents(gone)
           && (forall d :: d in gone <==> d in start.agents && now - start.agents[d].lastHeartbeat > states[i].ttl)
           && (forall k, l :: 0 <= k < l < |gone| ==> gone[k] != gone[l])
  {
    SweepStart(states, steps, t, now, i, j);
    RunInv(states, steps, j);
    assert StepAt(states, steps, j);
    var sweep := states[j].threads[t].sweep;
    assert SweepOk(sweep, states[j].core.agents, states[j].core.presence, states[j].clock, states[j].ttl);
    assert states[j + 1].core == states[j].core;
    assert states[j].core.presence == states[i].core.presence + OfflineEvents(sweep.gone);
  }

  // Silence is bounded: while the last completed tick is at most 5 seconds old,
  // no registered agent has been silent for more than TTL + 5 seconds.
  lemma SilenceBound(states: seq<State>, steps: seq<Step>, i: nat, d: Uuid)
    requires Run(states, steps) && i < |states| && d in states[i].core.agents
    requires states[i].clock - states[i].lastTick <= 5 * SECOND
    ensures states[i].clock - states[i].core.agents[d].lastHeartbeat <= states[i].ttl + 5 * SECOND
  {
    RunInv(states, steps, i);
  }

  lemma LockRemoves(s: State, t: Tid, d: Uuid)
    requires Enabled(s, LockWrite(t)) && d in s.core.agents && d !in ApplyLockWrite(s, t).core.agents
    ensures AtPc(s, t, Waiting(UnregisterAgent(d)))
  {
    match s.threads[t].op
    case UnregisterAgent(_) =>
    case RegisterAgent(_) =>
    case RecordHeartbeat(_) =>
    case _ =>
  }

  lemma StepRemoves(s: State, e: Step, d: Uuid)
    requires SweepInv(s.threads, s.core.agents, s.core.presence, s.clock, s.ttl) && Enabled(s, e)
    requires d in s.core.agents && d !in Apply(s, e).core.agents
    ensures (e.LockWrite? && AtPc(s, e.t, Waiting(UnregisterAgent(d))))
         || (e.Examine? && e.device == d && s.clock - s.core.agents[d].lastHeartbeat > s.ttl)
  {
    match e
    case LockWrite(t) => LockRemoves(s, t, d);
    case Examine(t, _) =>
      assert SweepOk(s.threads[t].sweep, s.core.agents, s.core.presence, s.clock, s.ttl);
    case _ =>
  }

  // An agent leaves the registry only when it is unregistered, or when a sweep finds it
  // silent for longer than the TTL.
  lemma NoEarlyRemoval(states: seq<State>, steps: seq<Step>, i: nat, d: Uuid)
    requires Run(states, steps) && i < |steps|
    requires d in states[i].core.agents && d !in states[i + 1].core.agents
    ensures (steps[i].LockWrite? && AtPc(states[i], steps[i].t, Waiting(UnregisterAgent(d))))
         || (steps[i].Examine? && steps[i].device == d
             && states[i].clock - states[i].core.agents[d].lastHeartbeat > states[i].ttl)
  {
    RunInv(states, steps, i);
    assert StepAt(states, steps, i);
    StepRemoves(states[i], steps[i], d);
  }

  lemma DropAgentCloses(core: Core, d: Uuid)
    requires d in core.agents && OpenChan(core, core.agents[d].chan)
    ensures var c := core.agents[d].chan;
      c in DropAgent(core, d).chans && DropAgent(core, d).chans[c].closed
  {
  }

  // The step that removes an agent closes its channel.
  lemma RemovalStep(s: State, e: Step, d: Uuid)
    requires Inv(s) && Enabled(s, e) && d in s.core.agents && d !in Apply(s, e).core.agents
    ensures Apply(s, e).core == DropAgent(s.core, d)
  {
    StepRemoves(s, e, d);
  }

  // Every agent that leaves the registry has its channel closed, for the first and only time.
  lemma RemovedIsClosed(states: seq<State>, steps: seq<Step>, i: nat, d: Uuid)
    requires Run(states, steps) && i < |steps|
    requires d in states[i].core.agents && d !in states[i + 1].core.agents
    ensures var c := states[i].core.agents[d].chan;
      && OpenChan(states[i].core, c)
      && c in states[i + 1].core.chans && states[i + 1].core.chans[c].closed && states[i + 1].core.chans[c].closes == 1
  {
    RunInv(states, steps, i);
    RunInv(states, steps, i + 1);
    ChannelSafety(states, steps, i);
    assert StepAt(states, steps, i);
    RemovalStep(states[i], steps[i], d);
    DropAgentCloses(states[i].core, d);
    assert ChannelOk(states[i + 1].core.chans[states[i].core.agents[d].chan]);
  }

  // ---- Progress ----

  function SendsLeft(pc: Pc): nat {
    if !pc.Waiting? && pc.sends.Sends? then |pc.sends.todo| else 0
  }

  function AgentsLeft(pc: Pc): nat {
    if pc.Writing? && pc.sweep.Sweep? then |pc.sweep.todo| else 0
  }

  // No organization has more than n clients.
  ghost predicate AtMost(clients: Clients, n: nat) {
    forall o :: o in clients ==> |clients[o]| <= n
  }

  // How many steps the holder of the lock still needs: each agent it examines may call for a broadcast.
  function StepsLeft(pc: Pc, n: nat): nat {
    AgentsLeft(pc) * (n + 1) + SendsLeft(pc) + 1
  }

  // The holder of the lock is never blocked: it can always take a step of its own that releases the lock or leaves
  // it with fewer steps to take.
  lemma HolderProgress(s: State, t: Tid, n: nat) returns (e: Step)
    requires InHub(s, t) && AtMost(s.core.clients, n)
    ensures Enabled(s, e) && ByHolder(e, t)
    ensures e == Unlock(t)
         || (InHub(Apply(s, e), t) && Apply(s, e).core.clients == s.core.clients
             && StepsLeft(Apply(s, e).threads[t], n) < StepsLeft(s.threads[t], n))
  {
    var pc := s.threads[t];
    if !Idle(pc.sends) {
      var user :| user in pc.sends.todo;
      e := Send(t, user);
    } else if pc.Writing? && pc.sweep.Sweep? && pc.sweep.todo != {} {
      var d :| d in pc.sweep.todo;
      e := Examine(t, d);
      ExamineProgress(s, t, d, n);
    } else {
      e := Unlock(t);
    }
  }

  predicate ByHolder(e: Step, t: Tid) {
    (e.Send? || e.Examine? || e.Unlock?) && e.t == t
  }

  lemma VisitsBound(clients: Clients, env: Envelope, n: nat)
    requires AtMost(clients, n)
    ensures |Visits(clients, env)| <= n
  {
  }

  lemma OneLess(k: nat, n: nat)
    requires 0 < k
    ensures k * (n + 1) == (k - 1) * (n + 1) + (n + 1)
  {
  }

  // What examining an agent leaves the sweep to do.
  lemma ExamineMoves(s: State, t: Tid, d: Uuid)
    requires Enabled(s, Examine(t, d))
    ensures var s' := ApplyExamine(s, t, d);
      && InHub(s', t) && s'.core.clients == s.core.clients
      && s'.threads[t].Writing? && s'.threads[t].sweep.Sweep?
      && s'.threads[t].sweep.todo == s.threads[t].sweep.todo - {d}
      && (s'.threads[t].sends.Sends? ==> s'.threads[t].sends.todo == Visits(s.core.clients, s'.threads[t].sends.env))
  {
  }

  lemma ExamineProgress(s: State, t: Tid, d: Uuid, n: nat)
    requires Enabled(s, Examine(t, d)) && AtMost(s.core.clients, n)
    ensures var s' := ApplyExamine(s, t, d);
      InHub(s', t) && s'.core.clients == s.core.clients && StepsLeft(s'.threads[t], n) < StepsLeft(s.threads[t], n)
  {
    ExamineMoves(s, t, d);
    var pc, pc' := s.threads[t], ApplyExamine(s, t, d).threads[t];
    if pc'.sends.Sends? { VisitsBound(s.core.clients, pc'.sends.env, n); }
    OneLess(AgentsLeft(pc), n);
  }

  // The steps lead from s to s'.
  ghost predicate Leads(s: State, steps: seq<Step>, s': State)
    decreases |steps|
  {
    if steps == [] then s' == s
    else Enabled(s, steps[0]) && Leads(Apply(s, steps[0]), steps[1..], s')
  }

  // From every reachable state the holder of the lock, by steps of its own alone and within a bound, releases it.
  lemma {:induction false} HolderReleases(s: State, t: Tid, n: nat) returns (steps: seq<Step>, s': State)
    requires LockInv(s.threads, s.readers, s.writer) && InHub(s, t) && AtMost(s.core.clients, n)
    ensures Leads(s, steps, s') && |steps| <= StepsLeft(s.threads[t], n)
    ensures forall e :: e in steps ==> ByHolder(e, t)
    ensures steps != [] && steps[|steps| - 1] == Unlock(t)
    ensures t !in s'.threads && t !in s'.readers && s'.writer != Some(t)
    decreases StepsLeft(s.threads[t], n)
  {
    var e := HolderProgress(s, t, n);
    if e == Unlock(t) {
      steps, s' := [e], Apply(s, e);
      assert steps[1..] == [];
    } else {
      LockKept(s, e);
      var rest;
      rest, s' := HolderReleases(Apply(s, e), t, n);
      steps := [e] + rest;
      assert steps[1..] == rest;
    }
  }
}
