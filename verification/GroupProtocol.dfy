// The group endpoints over Postgres: statements of different requests interleave, and assigning a device
// takes three of them.
module GroupProtocol {
  import opened Common
  import opened Records
  import opened Postgres
  import opened GroupHierarchy
  import opened TableProofs
  import Stores

  type Tid = nat

  datatype Pc =
    | FoundGroup(org: Uuid, group: Uuid, device: Uuid)    // AssignDeviceToGroup after GetGroup
    | FoundDevice(org: Uuid, group: Uuid, device: Uuid)   // ... and after GetDevice

  // `born` numbers the groups ever created in order of creation, `home` is the organization they were created in.
  datatype State = State(
    p: Tables,
    threads: map<Tid, Pc>,
    births: nat,
    born: map<Uuid, nat>,
    home: map<Uuid, Uuid>)

  datatype Step =
    | CreateGroup(g: Group)
    | UpdateGroup(org: Uuid, group: Uuid, edit: Edit)
    | DeleteGroup(org: Uuid, group: Uuid)
    | GetGroup(t: Tid, org: Uuid, group: Uuid, device: Uuid)
    | GetDevice(t: Tid)
    | Insert(t: Tid)
    | Remove(group: Uuid, device: Uuid)
    | RegisterDevice(d: Device, key: seq<Byte>)
    | SetStatus(org: Uuid, device: Uuid, status: Status)
    | Invite(inv: Invitation)
    | Consume(i: Uuid)
    | Withdraw(org: Uuid, i: Uuid)

  // Ids are generated after the request was made: a new group has an id nobody has mentioned.
  predicate Enabled(s: State, e: Step) {
    match e
    case CreateGroup(g) => g.id !in s.born && g.parent != Some(g.id)
    case GetGroup(t, _, _, _) => t !in s.threads
    case GetDevice(t) => t in s.threads && s.threads[t].FoundGroup?
    case Insert(t) => t in s.threads && s.threads[t].FoundDevice?
    case _ => true
  }

  function Apply(s: State, e: Step): State
    requires Enabled(s, e)
  {
    match e
    case CreateGroup(g) =>
      if CanInsertGroup(s.p, g)
      then State(InsertGroup(s.p, g), s.threads, s.births + 1, s.born[g.id := s.births], s.home[g.id := g.org])
      else s
    case UpdateGroup(org, g, edit) => s.(p := Postgres.UpdateGroup(s.p, org, g, edit))
    case DeleteGroup(org, g) => s.(p := Postgres.DeleteGroup(s.p, org, g))
    case GetGroup(t, org, g, d) =>
      if HasGroup(s.p, org, g) then s.(threads := s.threads[t := FoundGroup(org, g, d)]) else s
    case GetDevice(t) =>
      var pc := s.threads[t];
      if HasDevice(s.p, pc.org, pc.device)
      then s.(threads := s.threads[t := FoundDevice(pc.org, pc.group, pc.device)])
      else s.(threads := s.threads - {t})
    case Insert(t) =>
      s.(p := InsertMembership(s.p, s.threads[t].group, s.threads[t].device), threads := s.threads - {t})
    case Remove(g, d) => s.(p := DeleteMembership(s.p, g, d))
    case RegisterDevice(d, key) => s.(p := InsertDevice(s.p, d, key))
    case SetStatus(org, d, status) => s.(p := UpdateStatus(s.p, org, d, status))
    case Invite(inv) => s.(p := InsertInvitation(s.p, inv))
    case Consume(i) => s.(p := s.p.(invitations := ConsumeInPostgres(s.p.invitations, i)))
    case Withdraw(org, i) => s.(p := DeleteInvitation(s.p, org, i))
  }

  predicate Next(s: State, e: Step, s': State) {
    Enabled(s, e) && s' == Apply(s, e)
  }

  // A database with organizations and users but no groups or devices yet.
  function Initial(orgs: map<Uuid, string>, users: set<Uuid>): State {
    State(Tables(orgs, users, map[], map[], map[], map[], {}, map[]), map[], 0, map[], map[])
  }

  ghost predicate Run(states: seq<State>, steps: seq<Step>) {
    && |states| == |steps| + 1
    && (exists orgs, users :: states[0] == Initial(orgs, users))
    && (forall i :: 0 <= i < |steps| ==> StepAt(states, steps, i))
  }

  ghost predicate StepAt(states: seq<State>, steps: seq<Step>, i: nat)
    requires i < |steps| && |states| == |steps| + 1
  {
    Next(states[i], steps[i], states[i + 1])
  }

  ghost predicate BirthInv(s: State) {
    && s.born.Keys == s.home.Keys
    && (forall g :: g in s.born ==> s.born[g] < s.births)
    && (forall g :: g in s.p.groups ==> g in s.home && s.home[g] == s.p.groups[g].org)
    && Ranked(s.p.groups, s.born)
  }

  // What a request has checked stays true as long as the group exists.
  ghost predicate ThreadsInv(s: State) {
    && (forall t :: t in s.threads ==> s.threads[t].group in s.home && s.home[s.threads[t].group] == s.threads[t].org)
    && (forall t :: t in s.threads && s.threads[t].FoundDevice? ==>
          HasDevice(s.p, s.threads[t].org, s.threads[t].device))
  }

  ghost predicate Inv(s: State) {
    TablesOk(s.p) && BirthInv(s) && ThreadsInv(s)
  }

  // A new group is younger than its parent.
  lemma CreateKeepsBirths(s: State, g: Group)
    requires BirthInv(s) && Enabled(s, CreateGroup(g)) && CanInsertGroup(s.p, g)
    ensures BirthInv(Apply(s, CreateGroup(g)))
  {
  }

  lemma CreateKeepsInv(s: State, g: Group)
    requires Inv(s) && Enabled(s, CreateGroup(g))
    ensures Inv(Apply(s, CreateGroup(g)))
  {
    InsertGroupKeeps(s.p, g);
    if CanInsertGroup(s.p, g) {
      CreateKeepsBirths(s, g);
      assert ThreadsInv(Apply(s, CreateGroup(g)));
    }
  }

  lemma UpdateKeepsInv(s: State, org: Uuid, g: Uuid, edit: Edit)
    requires Inv(s)
    ensures Inv(s.(p := Postgres.UpdateGroup(s.p, org, g, edit)))
  {
    UpdateGroupKeeps(s.p, org, g, edit);
  }

  lemma DeleteKeepsInv(s: State, org: Uuid, g: Uuid)
    requires Inv(s)
    ensures Inv(s.(p := Postgres.DeleteGroup(s.p, org, g)))
  {
    DeleteGroupKeeps(s.p, org, g);
    if HasGroup(s.p, org, g) { DeleteRemovesSubtree(s.p, org, g); }
  }

  lemma ChecksKeepInv(s: State, e: Step)
    requires Inv(s) && Enabled(s, e) && (e.GetGroup? || e.GetDevice?)
    ensures Inv(Apply(s, e))
  {
  }

  // Between the checks and the insertion the group may be deleted, but neither row can move to another organization.
  lemma InsertKeepsInv(s: State, t: Tid)
    requires Inv(s) && Enabled(s, Insert(t))
    ensures Inv(Apply(s, Insert(t)))
  {
    var pc := s.threads[t];
    InsertMembershipKeeps(s.p, pc.group, pc.device);
  }

  lemma RemoveKeepsInv(s: State, g: Uuid, d: Uuid)
    requires Inv(s)
    ensures Inv(Apply(s, Remove(g, d)))
  {
    DeleteMembershipKeeps(s.p, g, d);
  }

  lemma RegisterKeepsInv(s: State, d: Device, key: seq<Byte>)
    requires Inv(s)
    ensures Inv(Apply(s, RegisterDevice(d, key)))
  {
    InsertDeviceKeeps(s.p, d, key);
  }

  lemma StatusKeepsInv(s: State, org: Uuid, d: Uuid, status: Status)
    requires Inv(s)
    ensures Inv(Apply(s, SetStatus(org, d, status)))
  {
    UpdateStatusKeeps(s.p, org, d, status);
  }

  lemma InvitationKeepsInv(s: State, p': Tables)
    requires Inv(s) && TablesOk(p') && p' == s.p.(invitations := p'.invitations)
    ensures Inv(s.(p := p'))
  {
  }

  lemma StepKeepsInv(s: State, e: Step)
    requires Inv(s) && Enabled(s, e)
    ensures Inv(Apply(s, e))
  {
    match e
    case CreateGroup(g) => CreateKeepsInv(s, g);
    case UpdateGroup(org, g, edit) => UpdateKeepsInv(s, org, g, edit);
    case DeleteGroup(org, g) => DeleteKeepsInv(s, org, g);
    case GetGroup(_, _, _, _) => ChecksKeepInv(s, e);
    case GetDevice(_) => ChecksKeepInv(s, e);
    case Insert(t) => InsertKeepsInv(s, t);
    case Remove(g, d) => RemoveKeepsInv(s, g, d);
    case RegisterDevice(d, key) => RegisterKeepsInv(s, d, key);
    case SetStatus(org, d, status) => StatusKeepsInv(s, org, d, status);
    case Invite(inv) => InsertInvitationKeeps(s.p, inv); InvitationKeepsInv(s, InsertInvitation(s.p, inv));
    case Consume(i) =>
      ConsumeKeeps(s.p, i);
      InvitationKeepsInv(s, s.p.(invitations := ConsumeInPostgres(s.p.invitations, i)));
    case Withdraw(org, i) => DeleteInvitationKeeps(s.p, org, i); InvitationKeepsInv(s, DeleteInvitation(s.p, org, i));
  }

  lemma {:induction false} RunInv(states: seq<State>, steps: seq<Step>, i: nat)
    requires Run(states, steps) && i < |states|
    ensures Inv(states[i])
  {
    if i > 0 {
      RunInv(states, steps, i - 1);
      assert StepAt(states, steps, i - 1);
      StepKeepsInv(states[i - 1], steps[i - 1]);
    }
  }

  // In every run the groups form a forest, no foreign key dangles, and names and token hashes are unique.
  lemma HierarchyIsForest(states: seq<State>, steps: seq<Step>, i: nat)
    requires Run(states, steps) && i < |states|
    ensures Forest(states[i].p.groups) && ForeignKeys(states[i].p) && UniqueKeys(states[i].p)
  {
    RunInv(states, steps, i);
    RankedIsForest(states[i].p.groups, states[i].born);
  }

  // In every run and interleaving a membership links a group and a device of the same organization, so the
  // health count, which does not filter by organization, counts exactly the devices that GetGroupDevices lists
  // for the organization in which the group was found, even if the group has been deleted since; and
  // total = online + offline.
  lemma HealthCountsListedDevices(states: seq<State>, steps: seq<Step>, i: nat, j: nat, org: Uuid, g: Uuid)
    requires Run(states, steps) && j <= i < |states| && HasGroup(states[j].p, org, g)
    ensures SameOrg(states[i].p)
    ensures Members(states[i].p, g) == MembersIn(states[i].p, org, g)
    ensures var health := CountHealth(states[i].p.devices, Members(states[i].p, g));
      health.total == |MembersIn(states[i].p, org, g)| && health.total == health.online + health.offline
  {
    RunInv(states, steps, i);
    RunInv(states, steps, j);
    HomeForGood(states, steps, j, i, g);
    AllOwnMembers(states[i].p, org, g);
    HealthAddsUp(states[i].p.devices, Members(states[i].p, g));
  }

  // A group never moves to another organization.
  lemma {:induction false} HomeForGood(states: seq<State>, steps: seq<Step>, j: nat, i: nat, g: Uuid)
    requires Run(states, steps) && j <= i < |states| && g in states[j].home
    ensures g in states[i].home && states[i].home[g] == states[j].home[g]
    decreases i - j
  {
    if j < i {
      HomeForGood(states, steps, j, i - 1, g);
      RunInv(states, steps, i - 1);
      assert StepAt(states, steps, i - 1);
    }
  }

  // ---- The statements are those of the store ----

  // Every step of one statement has the effect of the store's call.
  lemma StepsAreCalls(s: State, e: Step, c: Stores.Call)
    requires Enabled(s, e)
    requires match e
      case CreateGroup(g) => c == Stores.Call.CreateGroup(g)
      case UpdateGroup(org, g, edit) => c == Stores.Call.UpdateGroup(org, g, edit)
      case DeleteGroup(org, g) => c == Stores.Call.DeleteGroup(org, g)
      case RegisterDevice(d, key) => c == Stores.Call.RegisterDevice(d, key)
      case SetStatus(org, d, status) => c == Stores.Call.UpdateDeviceStatus(org, d, status)
      case Invite(inv) => c == Stores.CreateInvitation(inv)
      case Withdraw(org, i) => c == Stores.Call.DeleteInvitation(org, i)
      case Remove(g, d) => c.RemoveDevice? && c.group == g && c.device == d && HasGroup(s.p, c.org, g)
      case _ => false
    ensures Apply(s, e).p == Stores.PgDo(s.p, c).0
  {
  }

  // An assignment that runs alone is the store's call: found, checked and inserted, or given up at the first check
  // that fails.
  lemma AssignmentAlone(s: State, t: Tid, org: Uuid, g: Uuid, d: Uuid)
    requires t !in s.threads
    ensures var s1 := Apply(s, GetGroup(t, org, g, d));
      var s2 := if t in s1.threads then Apply(s1, GetDevice(t)) else s1;
      var s3 := if t in s2.threads then Apply(s2, Insert(t)) else s2;
      s3.p == Stores.PgDo(s.p, Stores.AssignDevice(org, g, d)).0 && t !in s3.threads
      && ((g, d) in s3.p.memberships <==>
            (g, d) in s.p.memberships || (HasGroup(s.p, org, g) && HasDevice(s.p, org, d)))
  {
  }
}
