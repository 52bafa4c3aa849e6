// Handshakes as interleaved sequences of store calls: look up the invitation, count a use, register the device. The
// handler ignores an error of the second.
module Enrollment {
  import opened Common
  import opened Records
  import Postgres
  import Stores

  type Tid = nat

  datatype Pc =
    | LookedUp(inv: Invitation)   // GetEnrollmentInvitationByHash succeeded
    | Consumed(inv: Invitation)   // ConsumeEnrollmentInvitation done, or failed and the error ignored

  // For each invitation ever created `limits` holds its max_uses, `consumes` counts the consume calls that the store
  // carried out and `failures` those that failed in the database; `enrolled` names the invitation of each device.
  datatype State = State(
    kind: StoreKind,
    orgs: set<Uuid>,
    invitations: Invitations,
    devices: Devices,
    threads: map<Tid, Pc>,
    limits: map<Uuid, int>,
    consumes: map<Uuid, nat>,
    failures: multiset<Uuid>,
    enrolled: map<Uuid, Uuid>)

  datatype Step =
    | Create(inv: Invitation)
    | Delete(i: Uuid)
    | LookUp(t: Tid, i: Uuid, now: Time)
    | Consume(t: Tid)
    | ConsumeFails(t: Tid)
    | Register(t: Tid, device: Uuid, hostname: string, version: string)
    | GiveUp(t: Tid)   // an error after the consume ends the handshake

  function Initial(kind: StoreKind, orgs: set<Uuid>): State {
    State(kind, orgs, map[], map[], map[], map[], map[], multiset{}, map[])
  }

  predicate Enabled(s: State, e: Step) {
    match e
    case Create(inv) => inv.id !in s.limits && inv.timesUsed == 0
    case Delete(i) => true
    case LookUp(t, i, now) => t !in s.threads && i in s.invitations && Judge(s.invitations[i], now).Ok?
    case Consume(t) => t in s.threads && s.threads[t].LookedUp?
    case ConsumeFails(t) => t in s.threads && s.threads[t].LookedUp? && s.kind == InPostgres
    case GiveUp(t) => t in s.threads && s.threads[t].Consumed?
    case Register(t, d, _, _) => t in s.threads && s.threads[t].Consumed? && d !in s.devices
  }

  function ConsumeIn(kind: StoreKind, invitations: Invitations, i: Uuid): Invitations {
    if kind == InMemory then ConsumeInMemory(invitations, i) else ConsumeInPostgres(invitations, i)
  }

  function Apply(s: State, e: Step): State
    requires Enabled(s, e)
  {
    match e
    case Create(inv) =>
      s.(invitations := s.invitations[inv.id := inv],
         limits := s.limits[inv.id := inv.maxUses],
         consumes := s.consumes[inv.id := 0])
    case Delete(i) => s.(invitations := s.invitations - {i})
    case LookUp(t, i, _) => s.(threads := s.threads[t := LookedUp(s.invitations[i])])
    case Consume(t) =>
      // The error of a refused consume is ignored.
      var inv := s.threads[t].inv;
      s.(invitations := ConsumeIn(s.kind, s.invitations, inv.id),
         consumes := if inv.id in s.consumes then s.consumes[inv.id := s.consumes[inv.id] + 1] else s.consumes,
         threads := s.threads[t := Consumed(inv)])
    case ConsumeFails(t) =>
      var inv := s.threads[t].inv;
      s.(failures := s.failures + multiset{inv.id}, threads := s.threads[t := Consumed(inv)])
    case GiveUp(t) => s.(threads := s.threads - {t})
    case Register(t, d, hostname, version) =>
      var inv := s.threads[t].inv;
      var s' := s.(threads := s.threads - {t});
      // GetOrganization fails, or in Postgres the foreign key does, when the organization is gone.
      if inv.org !in s.orgs then s'
      else s'.(devices := s.devices[d := Device(d, inv.org, hostname, version,
                                                if inv.requiresApproval then PENDING else ACTIVE)],
               enrolled := s.enrolled[d := inv.id])
  }

  predicate Next(s: State, e: Step, s': State) {
    Enabled(s, e) && s' == Apply(s, e)
  }

  ghost predicate Run(states: seq<State>, steps: seq<Step>) {
    && |states| == |steps| + 1
    && (exists kind, orgs :: states[0] == Initial(kind, orgs))
    && (forall i :: 0 <= i < |steps| ==> StepAt(states, steps, i))
  }

  ghost predicate StepAt(states: seq<State>, steps: seq<Step>, i: nat)
    requires i < |steps| && |states| == |steps| + 1
  {
    Next(states[i], steps[i], states[i + 1])
  }

  // Handshakes between lookup and consume, and between consume and registration.
  function InFlight(s: State, i: Uuid): set<Tid> {
    set t | t in s.threads && s.threads[t].LookedUp? && s.threads[t].inv.id == i
  }

  function Registering(s: State, i: Uuid): set<Tid> {
    set t | t in s.threads && s.threads[t].Consumed? && s.threads[t].inv.id == i
  }

  function DevicesFrom(s: State, i: Uuid): set<Uuid> {
    set d | d in s.enrolled && s.enrolled[d] == i
  }

  // The uses an invitation with `consumes` consume calls shows.
  function CountOf(kind: StoreKind, consumes: nat, limit: int): int {
    if kind == InMemory || consumes < limit then consumes else if limit < 0 then 0 else limit
  }

  ghost predicate Inv(s: State) {
    && s.limits.Keys == s.consumes.Keys
    && s.enrolled.Keys <= s.devices.Keys
    && (s.kind == InMemory ==> s.failures == multiset{})
    && (forall t :: t in s.threads ==> s.threads[t].inv.id in s.limits)
    && (forall i :: i in s.invitations ==>
          i in s.limits && s.invitations[i].id == i && s.invitations[i].maxUses == s.limits[i]
          && s.invitations[i].timesUsed == CountOf(s.kind, s.consumes[i], s.limits[i]))
  }

  // No more devices than consume calls, counted or failed.
  ghost predicate DevicesInv(s: State, i: Uuid) {
    i in s.limits && i in s.consumes && |Registering(s, i)| + |DevicesFrom(s, i)| <= s.consumes[i] + s.failures[i]
  }

  // The handshakes that ever got past the lookup, when at most k are in flight at once.
  ghost predicate EntryInv(s: State, i: Uuid, k: nat) {
    i in s.limits && i in s.consumes
    && s.consumes[i] + |InFlight(s, i)| <= (if s.limits[i] <= 0 then 0 else s.limits[i] + k - 1)
  }

  lemma ConsumeKeepsInv(s: State, t: Tid)
    requires Inv(s) && Enabled(s, Consume(t))
    ensures Inv(Apply(s, Consume(t)))
  {
  }

  lemma StepKeepsInv(s: State, e: Step)
    requires Inv(s) && Enabled(s, e)
    ensures Inv(Apply(s, e))
  {
    match e
    case Consume(t) => ConsumeKeepsInv(s, t);
    case _ =>
  }

  lemma ConsumeMoves(s: State, t: Tid, i: Uuid)
    requires Enabled(s, Consume(t))
    ensures var s', own := Apply(s, Consume(t)), if s.threads[t].inv.id == i then {t} else {};
      Registering(s', i) == Registering(s, i) + own && InFlight(s', i) == InFlight(s, i) - own
  {
  }

  lemma ConsumeKeepsCounts(s: State, t: Tid, i: Uuid)
    requires Inv(s) && Enabled(s, Consume(t)) && i in s.consumes
    ensures var s' := Apply(s, Consume(t));
      i in s'.consumes
      && s'.consumes[i] + |InFlight(s', i)| == s.consumes[i] + |InFlight(s, i)|
      && s'.consumes[i] - |Registering(s', i)| == s.consumes[i] - |Registering(s, i)|
      && DevicesFrom(s', i) == DevicesFrom(s, i)
  {
    ConsumeMoves(s, t, i);
    if s.threads[t].inv.id == i { assert t in InFlight(s, i) && t !in Registering(s, i); }
  }

  lemma ConsumeFailsMoves(s: State, t: Tid, i: Uuid)
    requires Enabled(s, ConsumeFails(t))
    ensures var s', own := Apply(s, ConsumeFails(t)), if s.threads[t].inv.id == i then {t} else {};
      && Registering(s', i) == Registering(s, i) + own && InFlight(s', i) == InFlight(s, i) - own
      && s'.failures[i] == s.failures[i] + |own| && DevicesFrom(s', i) == DevicesFrom(s, i)
  {
  }

  lemma ConsumeFailsKeepsCounts(s: State, t: Tid, i: Uuid)
    requires Enabled(s, ConsumeFails(t))
    ensures var s' := Apply(s, ConsumeFails(t));
      && |InFlight(s', i)| <= |InFlight(s, i)|
      && |Registering(s', i)| - s'.failures[i] == |Registering(s, i)| - s.failures[i]
      && DevicesFrom(s', i) == DevicesFrom(s, i)
  {
    ConsumeFailsMoves(s, t, i);
    SubsetBound(InFlight(Apply(s, ConsumeFails(t)), i), InFlight(s, i));
    assert t !in Registering(s, i);
  }

  lemma GiveUpKeepsCounts(s: State, t: Tid, i: Uuid)
    requires Enabled(s, GiveUp(t))
    ensures var s' := Apply(s, GiveUp(t));
      InFlight(s', i) == InFlight(s, i) && |Registering(s', i)| <= |Registering(s, i)|
      && DevicesFrom(s', i) == DevicesFrom(s, i)
  {
    var s' := Apply(s, GiveUp(t));
    SubsetBound(Registering(s', i), Registering(s, i));
  }

  lemma RegisterAddsDevice(s: State, t: Tid, d: Uuid, hostname: string, version: string, i: Uuid)
    requires Inv(s) && Enabled(s, Register(t, d, hostname, version))
    ensures var s' := Apply(s, Register(t, d, hostname, version));
      DevicesFrom(s', i) == if s.threads[t].inv.org in s.orgs && s.threads[t].inv.id == i
                            then DevicesFrom(s, i) + {d} else DevicesFrom(s, i)
  {
  }

  lemma RegisterKeepsCounts(s: State, t: Tid, d: Uuid, hostname: string, version: string, i: Uuid)
    requires Inv(s) && Enabled(s, Register(t, d, hostname, version))
    ensures var s' := Apply(s, Register(t, d, hostname, version));
      InFlight(s', i) == InFlight(s, i)
      && |Registering(s', i)| + |DevicesFrom(s', i)| <= |Registering(s, i)| + |DevicesFrom(s, i)|
  {
    var s' := Apply(s, Register(t, d, hostname, version));
    assert s'.threads == s.threads - {t};
    assert Registering(s', i) == Registering(s, i) - {t};
    RegisterAddsDevice(s, t, d, hostname, version, i);
    assert s.threads[t].inv.id == i ==> t in Registering(s, i);
  }

  lemma LookUpKeepsCounts(s: State, t: Tid, j: Uuid, now: Time, i: Uuid)
    requires Inv(s) && Enabled(s, LookUp(t, j, now))
    ensures var s' := Apply(s, LookUp(t, j, now));
      Registering(s', i) == Registering(s, i) && DevicesFrom(s', i) == DevicesFrom(s, i)
      && (i != j ==> InFlight(s', i) == InFlight(s, i))
      && (i == j ==> s.consumes[i] < s.limits[i])
  {
  }

  lemma StepKeepsDevicesInv(s: State, e: Step, i: Uuid)
    requires Inv(s) && Enabled(s, e) && DevicesInv(s, i)
    ensures DevicesInv(Apply(s, e), i)
  {
    match e
    case Consume(t) => ConsumeKeepsCounts(s, t, i);
    case ConsumeFails(t) => ConsumeFailsKeepsCounts(s, t, i);
    case GiveUp(t) => GiveUpKeepsCounts(s, t, i);
    case Register(t, d, hostname, version) => RegisterKeepsCounts(s, t, d, hostname, version, i);
    case LookUp(t, j, now) => LookUpKeepsCounts(s, t, j, now, i);
    case _ =>
  }

  lemma StepKeepsEntryInv(s: State, e: Step, i: Uuid, k: nat)
    requires Inv(s) && Enabled(s, e) && EntryInv(s, i, k) && 1 <= k && |InFlight(Apply(s, e), i)| <= k
    ensures EntryInv(Apply(s, e), i, k)
  {
    match e
    case Consume(t) => ConsumeKeepsCounts(s, t, i);
    case ConsumeFails(t) => ConsumeFailsKeepsCounts(s, t, i);
    case GiveUp(t) => GiveUpKeepsCounts(s, t, i);
    case Register(t, d, hostname, version) => RegisterKeepsCounts(s, t, d, hostname, version, i);
    case LookUp(t, j, now) => LookUpKeepsCounts(s, t, j, now, i);
    case _ =>
  }

  // What holds of invitation i once it exists; until then nothing is in flight for it.
  ghost predicate BoundInv(s: State, i: Uuid, k: nat) {
    && Inv(s)
    && (if i in s.limits then DevicesInv(s, i) && EntryInv(s, i, k)
        else InFlight(s, i) == {} && Registering(s, i) == {} && DevicesFrom(s, i) == {})
  }

  lemma StepKeepsBoundInv(s: State, e: Step, i: Uuid, k: nat)
    requires BoundInv(s, i, k) && Enabled(s, e) && 1 <= k && |InFlight(Apply(s, e), i)| <= k
    ensures BoundInv(Apply(s, e), i, k)
  {
    StepKeepsInv(s, e);
    var s' := Apply(s, e);
    if i in s.limits {
      StepKeepsDevicesInv(s, e, i);
      StepKeepsEntryInv(s, e, i, k);
    } else {
      assert InFlight(s', i) == {} && Registering(s', i) == {} && DevicesFrom(s', i) == {};
    }
  }

  lemma {:induction false} RunBoundInv(states: seq<State>, steps: seq<Step>, n: nat, i: Uuid, k: nat)
    requires Run(states, steps) && n < |states| && 1 <= k
    requires forall m :: 0 <= m <= n ==> |InFlight(states[m], i)| <= k
    ensures BoundInv(states[n], i, k)
  {
    if n > 0 {
      RunBoundInv(states, steps, n - 1, i, k);
      assert StepAt(states, steps, n - 1);
      StepKeepsBoundInv(states[n - 1], steps[n - 1], i, k);
    }
  }

  // Over either store: if at most k handshakes are ever between lookup and consume, at most max_uses + k - 1
  // devices come from one invitation (none when max_uses is not positive), plus one for every consume call that
  // failed in the database. In Postgres times_used never passes max_uses; in memory it counts every consume call, and
  // none fails.
  lemma EnrollmentBound(states: seq<State>, steps: seq<Step>, n: nat, i: Uuid, k: nat)
    requires Run(states, steps) && n < |states| && 1 <= k && i in states[n].limits
    requires forall m :: 0 <= m <= n ==> |InFlight(states[m], i)| <= k
    ensures |DevicesFrom(states[n], i)|
         <= (if states[n].limits[i] <= 0 then 0 else states[n].limits[i] + k - 1) + states[n].failures[i]
    ensures states[n].kind == InMemory ==> states[n].failures[i] == 0
    ensures i in states[n].invitations ==>
              states[n].invitations[i].maxUses == states[n].limits[i]
              && (states[n].kind == InPostgres ==>
                    states[n].invitations[i].timesUsed <= (if states[n].limits[i] < 0 then 0 else states[n].limits[i]))
              && (states[n].kind == InMemory ==>
                    i in states[n].consumes && states[n].invitations[i].timesUsed == states[n].consumes[i])
  {
    RunBoundInv(states, steps, n, i, k);
  }

  // ---- Where a device comes from ----

  // Step i looked up the invitation that request t is using, in time and before it was used up.
  ghost predicate FoundAt(states: seq<State>, steps: seq<Step>, i: nat, t: Tid, inv: Invitation)
    requires |states| == |steps| + 1
  {
    && i < |steps| && steps[i].LookUp? && steps[i].t == t
    && steps[i].i in states[i].invitations && states[i].invitations[steps[i].i] == inv
    && steps[i].now <= inv.expires && inv.timesUsed < inv.maxUses
  }

  lemma {:induction false} ThreadFound(states: seq<State>, steps: seq<Step>, n: nat, t: Tid) returns (i: nat)
    requires Run(states, steps) && n < |states| && t in states[n].threads
    ensures i < n && FoundAt(states, steps, i, t, states[n].threads[t].inv)
  {
    assert n > 0;
    assert StepAt(states, steps, n - 1);
    if t in states[n - 1].threads {
      i := ThreadFound(states, steps, n - 1, t);
    } else {
      i := n - 1;
    }
  }

  // Step k registered the device for the request that looked its invitation up at step i: under the organization of the
  // invitation and with the names given, pending if the invitation asks for approval and active if not.
  ghost predicate RegisteredAt(states: seq<State>, steps: seq<Step>, i: nat, k: nat, d: Uuid, device: Device)
    requires |states| == |steps| + 1
  {
    && i < k < |steps| && steps[k].Register? && steps[k].device == d
    && steps[k].t in states[k].threads
    && var inv := states[k].threads[steps[k].t].inv;
       && FoundAt(states, steps, i, steps[k].t, inv)
       && device == Device(d, inv.org, steps[k].hostname, steps[k].version,
                           if inv.requiresApproval then PENDING else ACTIVE)
  }

  // Every enrolled device goes back to such a lookup: no expired or used-up invitation ever enrolls anything.
  lemma {:induction false} DeviceOrigin(states: seq<State>, steps: seq<Step>, n: nat, d: Uuid) returns (i: nat, k: nat)
    requires Run(states, steps) && n < |states| && d in states[n].devices
    ensures k < n && RegisteredAt(states, steps, i, k, d, states[n].devices[d])
  {
    assert n > 0;
    assert StepAt(states, steps, n - 1);
    if d in states[n - 1].devices {
      i, k := DeviceOrigin(states, steps, n - 1, d);
    } else {
      k := n - 1;
      i := ThreadFound(states, steps, k, steps[k].t);
    }
  }

  // ---- Handshakes that run alone ----

  // The three steps of a handshake, one right after the other.
  function Alone(s: State, t: Tid, i: Uuid, now: Time, d: Uuid, hostname: string, version: string): State
    requires Enabled(s, LookUp(t, i, now)) && d !in s.devices
  {
    Apply(Apply(Apply(s, LookUp(t, i, now)), Consume(t)), Register(t, d, hostname, version))
  }

  lemma AloneIs(s: State, t: Tid, i: Uuid, now: Time, d: Uuid, hostname: string, version: string)
    requires Enabled(s, LookUp(t, i, now)) && d !in s.devices
    ensures var s', inv := Alone(s, t, i, now, d, hostname, version), s.invitations[i];
      && s'.invitations == ConsumeIn(s.kind, s.invitations, inv.id) && s'.threads == s.threads
      && s'.devices == if inv.org !in s.orgs then s.devices
                       else s.devices[d := Device(d, inv.org, hostname, version,
                                                  if inv.requiresApproval then PENDING else ACTIVE)]
  {
    var s1 := Apply(s, LookUp(t, i, now));
    ConsumeIs(s1, t);
    var s2 := Apply(s1, Consume(t));
    RegisterIs(s2, t, d, hostname, version);
    assert s2.threads - {t} == s.threads;
  }

  lemma ConsumeIs(s: State, t: Tid)
    requires Enabled(s, Consume(t))
    ensures var s', inv := Apply(s, Consume(t)), s.threads[t].inv;
      && s'.invitations == ConsumeIn(s.kind, s.invitations, inv.id) && s'.devices == s.devices && s'.orgs == s.orgs
      && s'.threads == s.threads[t := Consumed(inv)]
  {
  }

  lemma RegisterIs(s: State, t: Tid, d: Uuid, hostname: string, version: string)
    requires Enabled(s, Register(t, d, hostname, version))
    ensures var s', inv := Apply(s, Register(t, d, hostname, version)), s.threads[t].inv;
      && s'.invitations == s.invitations && s'.threads == s.threads - {t}
      && s'.devices == if inv.org !in s.orgs then s.devices
                       else s.devices[d := Device(d, inv.org, hostname, version,
                                                  if inv.requiresApproval then PENDING else ACTIVE)]
  {
  }

  // They are what the handshake of either store does.
  lemma AloneInMemory(s: State, t: Tid, i: Uuid, now: Time, d: Uuid, hostname: string, version: string,
                      m: Stores.Mem, key: seq<Byte>)
    requires s.kind == InMemory && Enabled(s, LookUp(t, i, now)) && d !in s.devices
    requires m.invitations == s.invitations && m.devices == s.devices && m.orgs.Keys == s.orgs
    ensures var s', m' := Alone(s, t, i, now, d, hostname, version),
                          Stores.MemEnroll(m, Ok(s.invitations[i]), d, hostname, version, key).0;
      m'.invitations == s'.invitations && m'.devices == s'.devices && s'.threads == s.threads
  {
    AloneIs(s, t, i, now, d, hostname, version);
    assert s.invitations[i].org in m.orgs <==> s.invitations[i].org in s.orgs;
  }

  lemma AloneInPostgres(s: State, t: Tid, i: Uuid, now: Time, d: Uuid, hostname: string, version: string,
                        p: Postgres.Tables, key: seq<Byte>)
    requires s.kind == InPostgres && Enabled(s, LookUp(t, i, now)) && d !in s.devices && d !in p.creds
    requires p.invitations == s.invitations && p.devices == s.devices && p.orgs.Keys == s.orgs
    ensures var s', p' := Alone(s, t, i, now, d, hostname, version),
                          Stores.PgEnroll(p, Ok(s.invitations[i]), d, hostname, version, key).0;
      p'.invitations == s'.invitations && p'.devices == s'.devices && s'.threads == s.threads
  {
    AloneIs(s, t, i, now, d, hostname, version);
    assert s.invitations[i].org in p.orgs <==> s.invitations[i].org in s.orgs;
  }

  // Creating and deleting an invitation are the calls of the stores, where they are carried out.
  lemma CreateAndDelete(s: State, inv: Invitation, org: Uuid, i: Uuid, m: Stores.Mem, p: Postgres.Tables)
    requires Enabled(s, Create(inv)) && m.invitations == s.invitations && p.invitations == s.invitations
    ensures Stores.MemDo(m, Stores.CreateInvitation(inv)).0.invitations == Apply(s, Create(inv)).invitations
    ensures Stores.MemDo(m, Stores.Call.DeleteInvitation(org, i)).0.invitations == Apply(s, Delete(i)).invitations
    ensures var r := Stores.PgDo(p, Stores.CreateInvitation(inv));
      r.1 == Stores.Done ==> r.0.invitations == Apply(s, Create(inv)).invitations
    ensures var r := Stores.PgDo(p, Stores.Call.DeleteInvitation(org, i));
      r.1 == Stores.Done ==> r.0.invitations == Apply(s, Delete(i)).invitations
  {
  }

  // ---- The bound is attained ----

  // A run in which at most k handshakes for i are ever in flight.
  ghost predicate Paced(states: seq<State>, steps: seq<Step>, i: Uuid, k: nat) {
    Run(states, steps) && forall m :: 0 <= m < |states| ==> |InFlight(states[m], i)| <= k
  }

  ghost function Last(states: seq<State>): State
    requires states != []
  {
    states[|states| - 1]
  }

  lemma Extend(states: seq<State>, steps: seq<Step>, i: Uuid, k: nat, e: Step)
    returns (states': seq<State>, steps': seq<Step>)
    requires Paced(states, steps, i, k) && Enabled(Last(states), e) && |InFlight(Apply(Last(states), e), i)| <= k
    ensures Paced(states', steps', i, k) && Last(states') == Apply(Last(states), e)
  {
    states', steps' := states + [Apply(Last(states), e)], steps + [e];
    forall m | 0 <= m < |steps'|
      ensures StepAt(states', steps', m)
    {
      if m < |steps| { assert StepAt(states, steps, m); }
    }
  }

  // A state reached with c devices enrolled: a handshakes have tried to consume, f of them in vain, handshakes a..b are
  // between lookup and consume, handshakes c..a between consume and registration.
  ghost predicate Stage(s: State, inv: Invitation, f: nat, c: nat, a: nat, b: nat) {
    && inv.id in s.invitations && s.invitations[inv.id].maxUses == inv.maxUses
    && s.invitations[inv.id].expires == inv.expires
    && s.invitations[inv.id].org == inv.org && s.invitations[inv.id].id == inv.id
    && f <= a && c <= a <= b && s.failures[inv.id] == f && inv.org in s.orgs
    && s.invitations[inv.id].timesUsed == (if s.kind == InMemory || a - f < inv.maxUses then a - f else inv.maxUses)
    && (forall t :: t in s.threads <==> c <= t < b)
    && (forall t :: c <= t < b ==> (s.threads[t].LookedUp? <==> a <= t))
    && (forall t :: c <= t < b ==> s.threads[t].inv.id == inv.id && s.threads[t].inv.org == inv.org)
    && (forall d :: d in s.devices ==> d.bits < c)
    && (forall d :: d in s.enrolled ==> d in s.devices)
    && |DevicesFrom(s, inv.id)| == c
  }

  function Range(a: nat, b: nat): (r: set<nat>)
    requires a <= b
    ensures |r| == b - a
    ensures forall t :: t in r <==> a <= t < b
    decreases b - a
  {
    if a == b then {}
    else
      var r := Range(a, b - 1);
      assert b - 1 !in r;
      r + {b - 1}
  }

  lemma StageFlight(s: State, inv: Invitation, f: nat, c: nat, a: nat, b: nat)
    requires Stage(s, inv, f, c, a, b)
    ensures |InFlight(s, inv.id)| <= b - a
  {
    SubsetBound(InFlight(s, inv.id), Range(a, b));
  }

  lemma StageLookUp(s: State, inv: Invitation, f: nat, c: nat, a: nat, b: nat)
    requires Stage(s, inv, f, c, a, b) && a - f < inv.maxUses
    ensures Enabled(s, LookUp(b, inv.id, inv.expires))
    ensures Stage(Apply(s, LookUp(b, inv.id, inv.expires)), inv, f, c, a, b + 1)
  {
  }

  lemma StageConsume(s: State, inv: Invitation, f: nat, c: nat, a: nat, b: nat)
    requires Stage(s, inv, f, c, a, b) && a < b
    ensures Enabled(s, Consume(a)) && Stage(Apply(s, Consume(a)), inv, f, c, a + 1, b)
  {
    assert DevicesFrom(Apply(s, Consume(a)), inv.id) == DevicesFrom(s, inv.id);
  }

  lemma StageConsumeFails(s: State, inv: Invitation, f: nat, c: nat, a: nat, b: nat)
    requires Stage(s, inv, f, c, a, b) && a < b && s.kind == InPostgres
    ensures Enabled(s, ConsumeFails(a)) && Stage(Apply(s, ConsumeFails(a)), inv, f + 1, c, a + 1, b)
  {
    assert DevicesFrom(Apply(s, ConsumeFails(a)), inv.id) == DevicesFrom(s, inv.id);
  }

  lemma StageRegister(s: State, inv: Invitation, f: nat, c: nat, a: nat, b: nat)
    requires Stage(s, inv, f, c, a, b) && c < a
    ensures Uuid(c) !in s.devices && Enabled(s, Register(c, Uuid(c), "", ""))
    ensures Stage(Apply(s, Register(c, Uuid(c), "", "")), inv, f, c + 1, a, b)
  {
    var s' := Apply(s, Register(c, Uuid(c), "", ""));
    assert DevicesFrom(s', inv.id) == DevicesFrom(s, inv.id) + {Uuid(c)};
  }

  lemma StageCreate(kind: StoreKind, orgs: set<Uuid>, inv: Invitation)
    requires inv.timesUsed == 0 && 1 <= inv.maxUses && inv.org in orgs
    ensures Enabled(Initial(kind, orgs), Create(inv))
    ensures Stage(Apply(Initial(kind, orgs), Create(inv)), inv, 0, 0, 0, 0)
  {
    assert DevicesFrom(Apply(Initial(kind, orgs), Create(inv)), inv.id) == {};
  }

  // A paced run over the given store that has reached a stage.
  ghost predicate Reached(states: seq<State>, steps: seq<Step>, kind: StoreKind, inv: Invitation, k: nat,
                          f: nat, c: nat, a: nat, b: nat) {
    Paced(states, steps, inv.id, k) && Last(states).kind == kind && Stage(Last(states), inv, f, c, a, b)
  }

  lemma ExtendLookUp(states: seq<State>, steps: seq<Step>, kind: StoreKind, inv: Invitation, k: nat,
                     f: nat, c: nat, a: nat, b: nat)
    returns (states': seq<State>, steps': seq<Step>)
    requires Reached(states, steps, kind, inv, k, f, c, a, b) && a - f < inv.maxUses && b + 1 - a <= k
    ensures Reached(states', steps', kind, inv, k, f, c, a, b + 1)
  {
    StageLookUp(Last(states), inv, f, c, a, b);
    var e := LookUp(b, inv.id, inv.expires);
    StageFlight(Apply(Last(states), e), inv, f, c, a, b + 1);
    states', steps' := Extend(states, steps, inv.id, k, e);
  }

  lemma ExtendConsume(states: seq<State>, steps: seq<Step>, kind: StoreKind, inv: Invitation, k: nat,
                      f: nat, c: nat, a: nat, b: nat)
    returns (states': seq<State>, steps': seq<Step>)
    requires Reached(states, steps, kind, inv, k, f, c, a, b) && a < b && b - a <= k
    ensures Reached(states', steps', kind, inv, k, f, c, a + 1, b)
  {
    StageConsume(Last(states), inv, f, c, a, b);
    StageFlight(Apply(Last(states), Consume(a)), inv, f, c, a + 1, b);
    states', steps' := Extend(states, steps, inv.id, k, Consume(a));
  }

  lemma ExtendConsumeFails(states: seq<State>, steps: seq<Step>, inv: Invitation, k: nat, f: nat, c: nat, a: nat,
                           b: nat)
    returns (states': seq<State>, steps': seq<Step>)
    requires Reached(states, steps, InPostgres, inv, k, f, c, a, b) && a < b && b - a <= k
    ensures Reached(states', steps', InPostgres, inv, k, f + 1, c, a + 1, b)
  {
    StageConsumeFails(Last(states), inv, f, c, a, b);
    StageFlight(Apply(Last(states), ConsumeFails(a)), inv, f + 1, c, a + 1, b);
    states', steps' := Extend(states, steps, inv.id, k, ConsumeFails(a));
  }

  lemma ExtendRegister(states: seq<State>, steps: seq<Step>, kind: StoreKind, inv: Invitation, k: nat,
                       f: nat, c: nat, a: nat, b: nat)
    returns (states': seq<State>, steps': seq<Step>)
    requires Reached(states, steps, kind, inv, k, f, c, a, b) && c < a && b - a <= k
    ensures Reached(states', steps', kind, inv, k, f, c + 1, a, b)
  {
    StageRegister(Last(states), inv, f, c, a, b);
    var e := Register(c, Uuid(c), "", "");
    StageFlight(Apply(Last(states), e), inv, f, c + 1, a, b);
    states', steps' := Extend(states, steps, inv.id, k, e);
  }

  // What an invitation to be used up needs; only Postgres fails.
  predicate Fresh(kind: StoreKind, orgs: set<Uuid>, inv: Invitation, k: nat, f: nat) {
    inv.timesUsed == 0 && 1 <= inv.maxUses && inv.org in orgs && 1 <= k && (kind == InMemory ==> f == 0)
  }

  // f handshakes, one after the other, none of them counted.
  lemma {:induction false} InVain(kind: StoreKind, orgs: set<Uuid>, inv: Invitation, k: nat, f: nat)
    returns (states: seq<State>, steps: seq<Step>)
    requires Fresh(kind, orgs, inv, k, f)
    ensures Reached(states, steps, kind, inv, k, f, f, f, f)
  {
    if f == 0 {
      var s0 := Initial(kind, orgs);
      StageCreate(kind, orgs, inv);
      StageFlight(Apply(s0, Create(inv)), inv, 0, 0, 0, 0);
      assert InFlight(s0, inv.id) == {};
      states, steps := Extend([s0], [], inv.id, k, Create(inv));
    } else {
      var p := f - 1;
      states, steps := InVain(kind, orgs, inv, k, p);
      states, steps := ExtendLookUp(states, steps, kind, inv, k, p, p, p, p);
      states, steps := ExtendConsumeFails(states, steps, inv, k, p, p, p, f);
      states, steps := ExtendRegister(states, steps, kind, inv, k, f, p, f, f);
    }
  }

  // Then m handshakes, one after the other, all of them counted.
  lemma {:induction false} InTurn(kind: StoreKind, orgs: set<Uuid>, inv: Invitation, k: nat, f: nat, m: nat)
    returns (states: seq<State>, steps: seq<Step>)
    requires Fresh(kind, orgs, inv, k, f) && m < inv.maxUses
    ensures Reached(states, steps, kind, inv, k, f, f + m, f + m, f + m)
  {
    if m == 0 {
      states, steps := InVain(kind, orgs, inv, k, f);
    } else {
      var p := f + m - 1;
      states, steps := InTurn(kind, orgs, inv, k, f, m - 1);
      states, steps := ExtendLookUp(states, steps, kind, inv, k, f, p, p, p);
      states, steps := ExtendConsume(states, steps, kind, inv, k, f, p, p, p + 1);
      states, steps := ExtendRegister(states, steps, kind, inv, k, f, p, p + 1, p + 1);
    }
  }

  // j further lookups, then j consumes, then j registrations.
  lemma {:induction false} LookUps(kind: StoreKind, orgs: set<Uuid>, inv: Invitation, k: nat, f: nat, m: nat, j: nat)
    returns (states: seq<State>, steps: seq<Step>)
    requires Fresh(kind, orgs, inv, k, f) && m < inv.maxUses && j <= k
    ensures Reached(states, steps, kind, inv, k, f, f + m, f + m, f + m + j)
  {
    if j == 0 {
      states, steps := InTurn(kind, orgs, inv, k, f, m);
    } else {
      states, steps := LookUps(kind, orgs, inv, k, f, m, j - 1);
      states, steps := ExtendLookUp(states, steps, kind, inv, k, f, f + m, f + m, f + m + j - 1);
    }
  }

  lemma {:induction false} Consumes(kind: StoreKind, orgs: set<Uuid>, inv: Invitation, k: nat, f: nat, m: nat, j: nat)
    returns (states: seq<State>, steps: seq<Step>)
    requires Fresh(kind, orgs, inv, k, f) && m < inv.maxUses && j <= k
    ensures Reached(states, steps, kind, inv, k, f, f + m, f + m + j, f + m + k)
  {
    if j == 0 {
      states, steps := LookUps(kind, orgs, inv, k, f, m, k);
    } else {
      states, steps := Consumes(kind, orgs, inv, k, f, m, j - 1);
      states, steps := ExtendConsume(states, steps, kind, inv, k, f, f + m, f + m + j - 1, f + m + k);
    }
  }

  lemma {:induction false} Registers(kind: StoreKind, orgs: set<Uuid>, inv: Invitation, k: nat, f: nat, m: nat, j: nat)
    returns (states: seq<State>, steps: seq<Step>)
    requires Fresh(kind, orgs, inv, k, f) && m < inv.maxUses && j <= k
    ensures Reached(states, steps, kind, inv, k, f, f + m + j, f + m + k, f + m + k)
  {
    if j == 0 {
      states, steps := Consumes(kind, orgs, inv, k, f, m, k);
    } else {
      states, steps := Registers(kind, orgs, inv, k, f, m, j - 1);
      states, steps := ExtendRegister(states, steps, kind, inv, k, f, f + m + j - 1, f + m + k, f + m + k);
    }
  }

  // The bound is exact, over either store, for every limit, every k and every number f of failing consumes (none in
  // memory): f handshakes that are not counted and max_uses - 1 that are, one after the other, then k looked up before
  // any of them is counted, enroll max_uses + k - 1 + f devices.
  lemma BoundAttained(kind: StoreKind, orgs: set<Uuid>, inv: Invitation, k: nat, f: nat)
    returns (states: seq<State>, steps: seq<Step>)
    requires Fresh(kind, orgs, inv, k, f)
    ensures Run(states, steps) && Last(states).kind == kind
    ensures forall m :: 0 <= m < |states| ==> |InFlight(states[m], inv.id)| <= k
    ensures Last(states).failures[inv.id] == f
    ensures |DevicesFrom(Last(states), inv.id)| == inv.maxUses + k - 1 + f
    ensures inv.id in Last(states).invitations
    ensures Last(states).invitations[inv.id].timesUsed == if kind == InMemory then inv.maxUses + k - 1 else inv.maxUses
  {
    states, steps := Registers(kind, orgs, inv, k, f, inv.maxUses - 1, k);
  }
}
