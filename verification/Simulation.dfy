// Where the two stores agree, and where they part.
module Simulation {
  import opened Common
  import opened Records
  import opened Postgres
  import opened GroupHierarchy
  import opened Stores
  import opened TableProofs

  // The same rows but for the targets of invitations, which only Postgres clears when a group goes.
  ghost predicate SameInvitations(a: Invitations, b: Invitations) {
    a.Keys == b.Keys && forall i :: i in a ==> a[i].(target := None) == b[i].(target := None)
  }

  ghost predicate SameMembers(members: map<Uuid, set<Uuid>>, memberships: set<(Uuid, Uuid)>) {
    forall g, d :: (g, d) in memberships <==> g in members && d in members[g]
  }

  ghost predicate Related(m: Mem, p: Tables) {
    && m.orgs == p.orgs && m.tokens == p.tokens && m.devices == p.devices && m.creds == p.creds && m.groups == p.groups
    && SameMembers(m.members, p.memberships) && SameInvitations(m.invitations, p.invitations)
  }

  predicate HasSubgroup(groups: Groups, g: Uuid) {
    exists c :: c in groups && c != g && groups[c].parent == Some(g)
  }

  // Nothing empty replaces something.
  predicate Complete(g: Group, edit: Edit) {
    && (edit.name == "" ==> g.name == "")
    && (edit.description.None? ==> g.description.None?)
    && (edit.policies.None? ==> g.policies.None?)
  }

  // When the stores agree on a call: what a caller would have to check first.
  ghost predicate Tame(p: Tables, c: Call) {
    match c
    case SaveToken(x, t) =>
      if x in p.tokens then p.tokens[x].(revoked := t.revoked) == t else t.user in p.users && t.org in p.orgs
    case RegisterDevice(d, _) => CanInsertDevice(p, d)
    case CreateGroup(g) => CanInsertGroup(p, g)
    case UpdateGroup(org, g, edit) =>
      HasGroup(p, org, g) ==> !NameTaken(p.groups, org, edit.name, g) && Complete(p.groups[g], edit)
    case DeleteGroup(org, g) => HasGroup(p, org, g) && !HasSubgroup(p.groups, g)
    case AssignDevice(org, g, d) => g in p.groups && d in p.devices ==> HasGroup(p, org, g) && HasDevice(p, org, d)
    case RemoveDevice(org, g, _) => HasGroup(p, org, g)
    case GroupHealth(org, g) => HasGroup(p, org, g)
    case CreateInvitation(inv) => CanInsertInvitation(p, inv)
    case DeleteInvitation(org, i) => i in p.invitations && p.invitations[i].org == org
    case Handshake(hash, d, _, _, _, now) =>
      LookUpInvitation(p.invitations, hash, now).Err? || (d !in p.devices && d !in p.creds)
    case _ => true
  }

  // The stores give the same answer and remain related.
  ghost predicate Agree(m: Mem, p: Tables, c: Call) {
    MemDo(m, c).1 == PgDo(p, c).1 && Related(MemDo(m, c).0, PgDo(p, c).0)
  }

  // ---- Call by call ----

  lemma ReadsAgree(m: Mem, p: Tables, c: Call)
    requires Related(m, p) && TablesOk(p)
    requires c.GetToken? || c.ListDevices? || c.GetDevice? || c.GetGroup? || c.ListGroups? || c.GroupDevices?
    ensures Agree(m, p, c)
  {
    if c.GroupDevices? { ListedIsJoined(m, p, c.org, c.group); }
  }

  lemma ListedIsJoined(m: Mem, p: Tables, org: Uuid, g: Uuid)
    requires Related(m, p)
    ensures Listed(m, org, g) == MembersIn(p, org, g)
  {
    assert forall d :: d in MembersOf(m.members, g) <==> (g, d) in p.memberships;
  }

  lemma HealthAgrees(m: Mem, p: Tables, org: Uuid, g: Uuid)
    requires Related(m, p) && TablesOk(p)
    ensures Agree(m, p, GroupHealth(org, g)) <==> Tame(p, GroupHealth(org, g))
  {
    ListedIsJoined(m, p, org, g);
    if HasGroup(p, org, g) { AllOwnMembers(p, org, g); }
  }

  lemma TokensAgree(m: Mem, p: Tables, c: Call)
    requires Related(m, p) && TablesOk(p) && (c.SaveToken? || c.RevokeToken?)
    ensures Agree(m, p, c) <==> Tame(p, c)
  {
    if c.SaveToken? { SavesAgree(m, p, c.x, c.token); } else { RevokesAgree(m, p, c.x); }
  }

  lemma SavesAgree(m: Mem, p: Tables, x: Token, t: RefreshToken)
    requires Related(m, p) && TablesOk(p)
    ensures Agree(m, p, Call.SaveToken(x, t)) <==> Tame(p, Call.SaveToken(x, t))
  {
    if x in p.tokens {
      assert m.tokens[x := t][x] == t;
      assert Postgres.SaveToken(p, x, t).tokens[x] == p.tokens[x].(revoked := t.revoked);
    }
  }

  lemma RevokesAgree(m: Mem, p: Tables, x: Token)
    requires Related(m, p) && TablesOk(p)
    ensures Agree(m, p, RevokeToken(x)) <==> Tame(p, RevokeToken(x))
  {
  }

  lemma DevicesAgree(m: Mem, p: Tables, c: Call)
    requires Related(m, p) && TablesOk(p) && (c.UpdateDeviceStatus? || c.RegisterDevice?)
    ensures Agree(m, p, c) <==> Tame(p, c)
  {
  }

  lemma CreateGroupAgrees(m: Mem, p: Tables, g: Group)
    requires Related(m, p) && TablesOk(p)
    ensures Agree(m, p, CreateGroup(g)) <==> Tame(p, CreateGroup(g))
  {
    if CanInsertGroup(p, g) {
      forall d
        ensures (g.id, d) !in p.memberships
      {
      }
    }
  }

  lemma EditedAlike(g: Group, edit: Edit)
    ensures Merged(g, edit) == Overwritten(g, edit) <==> Complete(g, edit)
  {
    var m, o := Merged(g, edit), Overwritten(g, edit);
    assert m == o <==> m.name == o.name && m.description == o.description && m.policies == o.policies;
  }

  lemma SameUpdate(groups: Groups, g: Uuid, x: Group, y: Group)
    ensures groups[g := x] == groups[g := y] <==> x == y
  {
    assert groups[g := x][g] == x && groups[g := y][g] == y;
  }

  lemma UpdateGroupAgrees(m: Mem, p: Tables, org: Uuid, g: Uuid, edit: Edit)
    requires Related(m, p) && TablesOk(p)
    ensures Agree(m, p, UpdateGroup(org, g, edit)) <==> Tame(p, UpdateGroup(org, g, edit))
  {
    if HasGroup(p, org, g) {
      EditedAlike(p.groups[g], edit);
      SameUpdate(p.groups, g, Merged(p.groups[g], edit), Overwritten(p.groups[g], edit));
    }
  }

  lemma NoSubgroupCascade(groups: Groups, g: Uuid)
    requires !HasSubgroup(groups, g)
    ensures Cascade(groups, {g}) == {g}
  {
  }

  lemma SubgroupCascades(groups: Groups, g: Uuid)
    requires HasSubgroup(groups, g)
    ensures exists c :: c in groups && c != g && c in Cascade(groups, {g})
  {
    CascadeClosed(groups, {g});
    var c :| c in groups && c != g && groups[c].parent == Some(g);
    assert c in Cascade(groups, {g});
  }

  lemma MembersAfterDelete(members: map<Uuid, set<Uuid>>, memberships: set<(Uuid, Uuid)>, g: Uuid)
    requires SameMembers(members, memberships)
    ensures SameMembers(members - {g}, set x | x in memberships && x.0 !in {g})
  {
  }

  lemma InvitationsAfterDelete(a: Invitations, b: Invitations, gone: set<Uuid>)
    requires SameInvitations(a, b)
    ensures SameInvitations(a, map i | i in b :: Untarget(b[i], gone))
  {
  }

  lemma DeleteLeaf(m: Mem, p: Tables, g: Uuid)
    requires Related(m, p)
    ensures Related(m.(groups := m.groups - {g}, members := m.members - {g}), DropGroups(p, {g}))
  {
    MembersAfterDelete(m.members, p.memberships, g);
    InvitationsAfterDelete(m.invitations, p.invitations, {g});
  }

  lemma DeleteParentDiffers(m: Mem, p: Tables, g: Uuid)
    requires Related(m, p) && HasSubgroup(p.groups, g)
    ensures m.groups - {g} != p.groups - Cascade(p.groups, {g})
  {
    SubgroupCascades(p.groups, g);
    var c :| c in p.groups && c != g && c in Cascade(p.groups, {g});
    assert c in m.groups - {g} && c !in p.groups - Cascade(p.groups, {g});
  }

  lemma DeleteGroupAgrees(m: Mem, p: Tables, org: Uuid, g: Uuid)
    requires Related(m, p) && TablesOk(p)
    ensures Agree(m, p, DeleteGroup(org, g)) <==> Tame(p, DeleteGroup(org, g))
  {
    if HasGroup(p, org, g) {
      if HasSubgroup(p.groups, g) {
        DeleteParentDiffers(m, p, g);
      } else {
        NoSubgroupCascade(p.groups, g);
        DeleteLeaf(m, p, g);
      }
    }
  }

  lemma MembersAfterAssign(members: map<Uuid, set<Uuid>>, memberships: set<(Uuid, Uuid)>, g: Uuid, d: Uuid)
    requires SameMembers(members, memberships)
    ensures SameMembers(members[g := MembersOf(members, g) + {d}], memberships + {(g, d)})
  {
  }

  lemma MembersAfterRemove(members: map<Uuid, set<Uuid>>, memberships: set<(Uuid, Uuid)>, g: Uuid, d: Uuid)
    requires SameMembers(members, memberships)
    ensures SameMembers(if g in members then members[g := members[g] - {d}] else members, memberships - {(g, d)})
  {
  }

  lemma AssignAgrees(m: Mem, p: Tables, org: Uuid, g: Uuid, d: Uuid)
    requires Related(m, p) && TablesOk(p)
    ensures Agree(m, p, AssignDevice(org, g, d)) <==> Tame(p, AssignDevice(org, g, d))
  {
    MembersAfterAssign(m.members, p.memberships, g, d);
  }

  lemma RemoveAgrees(m: Mem, p: Tables, org: Uuid, g: Uuid, d: Uuid)
    requires Related(m, p) && TablesOk(p)
    ensures Agree(m, p, RemoveDevice(org, g, d)) <==> Tame(p, RemoveDevice(org, g, d))
  {
    if HasGroup(p, org, g) { MembersAfterRemove(m.members, p.memberships, g, d); }
  }

  lemma CreateInvitationAgrees(m: Mem, p: Tables, inv: Invitation)
    requires Related(m, p) && TablesOk(p)
    ensures Agree(m, p, CreateInvitation(inv)) <==> Tame(p, CreateInvitation(inv))
  {
  }

  lemma DeleteInvitationAgrees(m: Mem, p: Tables, org: Uuid, i: Uuid)
    requires Related(m, p) && TablesOk(p)
    ensures Agree(m, p, DeleteInvitation(org, i)) <==> Tame(p, DeleteInvitation(org, i))
  {
  }

  // Both stores find the same invitation, but for its target.
  lemma LookUpsAgree(a: Invitations, p: Tables, hash: string, now: Time)
    requires SameInvitations(a, p.invitations) && TablesOk(p)
    ensures var x, y := LookUpInvitation(a, hash, now), LookUpInvitation(p.invitations, hash, now);
      (x.Err? && y.Err? && x == y)
      || (x.Ok? && y.Ok? && x.value.(target := None) == y.value.(target := None)
          && y.value.id in p.invitations && p.invitations[y.value.id] == y.value && Judge(y.value, now).Ok?)
  {
    var b := p.invitations;
    forall i | i in a
      ensures a[i].tokenHash == b[i].tokenHash && Judge(a[i], now).Ok? == Judge(b[i], now).Ok?
      ensures Judge(a[i], now).Err? ==> Judge(a[i], now) == Judge(b[i], now)
    {
      assert a[i].(target := None) == b[i].(target := None);
    }
    assert HashTaken(a, hash) <==> HashTaken(b, hash);
  }

  // An invitation the lookup let through is counted by both stores.
  lemma ConsumesAgree(a: Invitations, b: Invitations, i: Uuid)
    requires SameInvitations(a, b) && i in b && b[i].timesUsed < b[i].maxUses
    ensures SameInvitations(ConsumeInMemory(a, i), ConsumeInPostgres(b, i))
  {
    assert a[i].(target := None) == b[i].(target := None);
  }

  lemma HandshakeAgrees(m: Mem, p: Tables, c: Call)
    requires Related(m, p) && TablesOk(p) && c.Handshake?
    ensures Agree(m, p, c) <==> Tame(p, c)
  {
    LookUpsAgree(m.invitations, p, c.hash, c.now);
    var x, y := LookUpInvitation(m.invitations, c.hash, c.now), LookUpInvitation(p.invitations, c.hash, c.now);
    if y.Ok? { EnrollAgrees(m, p, c, x.value, y.value); }
  }

  lemma RegisteredAlike(m: Mem, p: Tables, dev: Device, key: seq<Byte>)
    requires Related(m, p) && CanInsertDevice(p, dev)
    ensures Related(m.(devices := m.devices[dev.id := dev], creds := m.creds[dev.id := key]), InsertDevice(p, dev, key))
  {
  }

  lemma MemEnrolls(m: Mem, c: Call, x: Invitation)
    requires c.Handshake? && LookUpInvitation(m.invitations, c.hash, c.now) == Ok(x) && x.org in m.orgs
    ensures var m1 := m.(invitations := ConsumeInMemory(m.invitations, x.id));
      var dev := NewDevice(x, c.device, c.hostname, c.version);
      MemDo(m, c) == (m1.(devices := m1.devices[dev.id := dev], creds := m1.creds[dev.id := c.key]),
                      Enrolled(c.device, x.org, m.orgs[x.org], dev.status))
  {
  }

  lemma PgEnrolls(p: Tables, c: Call, y: Invitation)
    requires c.Handshake? && LookUpInvitation(p.invitations, c.hash, c.now) == Ok(y) && y.org in p.orgs
    ensures var p1 := p.(invitations := ConsumeInPostgres(p.invitations, y.id));
      var dev := NewDevice(y, c.device, c.hostname, c.version);
      PgDo(p, c) == if CanInsertDevice(p1, dev)
                    then (InsertDevice(p1, dev, c.key), Enrolled(c.device, y.org, p.orgs[y.org], dev.status))
                    else (p1, Fail)
  {
  }

  lemma EnrollAgrees(m: Mem, p: Tables, c: Call, x: Invitation, y: Invitation)
    requires Related(m, p) && TablesOk(p) && c.Handshake? && x.(target := None) == y.(target := None)
    requires LookUpInvitation(m.invitations, c.hash, c.now) == Ok(x)
    requires LookUpInvitation(p.invitations, c.hash, c.now) == Ok(y)
    requires y.id in p.invitations && p.invitations[y.id] == y && y.org in p.orgs && y.timesUsed < y.maxUses
    ensures Agree(m, p, c) <==> c.device !in p.devices && c.device !in p.creds
  {
    assert x.id == y.id && x.org == y.org && x.requiresApproval == y.requiresApproval;
    ConsumesAgree(m.invitations, p.invitations, y.id);
    MemEnrolls(m, c, x);
    PgEnrolls(p, c, y);
    var m1 := m.(invitations := ConsumeInMemory(m.invitations, x.id));
    var p1 := p.(invitations := ConsumeInPostgres(p.invitations, y.id));
    var dev := NewDevice(y, c.device, c.hostname, c.version);
    if CanInsertDevice(p1, dev) { RegisteredAlike(m1, p1, dev, c.key); }
  }

  // The stores agree on a call exactly when it is tame.
  lemma AgreeIffTame(m: Mem, p: Tables, c: Call)
    requires Related(m, p) && TablesOk(p)
    ensures Agree(m, p, c) <==> Tame(p, c)
  {
    match c
    case SaveToken(_, _) => TokensAgree(m, p, c);
    case RevokeToken(_) => TokensAgree(m, p, c);
    case UpdateDeviceStatus(_, _, _) => DevicesAgree(m, p, c);
    case RegisterDevice(_, _) => DevicesAgree(m, p, c);
    case CreateGroup(g) => CreateGroupAgrees(m, p, g);
    case UpdateGroup(org, g, edit) => UpdateGroupAgrees(m, p, org, g, edit);
    case DeleteGroup(org, g) => DeleteGroupAgrees(m, p, org, g);
    case AssignDevice(org, g, d) => AssignAgrees(m, p, org, g, d);
    case RemoveDevice(org, g, d) => RemoveAgrees(m, p, org, g, d);
    case GroupHealth(org, g) => HealthAgrees(m, p, org, g);
    case CreateInvitation(inv) => CreateInvitationAgrees(m, p, inv);
    case DeleteInvitation(org, i) => DeleteInvitationAgrees(m, p, org, i);
    case Handshake(_, _, _, _, _, _) => HandshakeAgrees(m, p, c);
    case _ => ReadsAgree(m, p, c);
  }

  // ---- Every call keeps the tables in order ----

  lemma HandshakeKeepsTables(p: Tables, c: Call)
    requires TablesOk(p) && c.Handshake?
    ensures TablesOk(PgDo(p, c).0)
  {
    var found := LookUpInvitation(p.invitations, c.hash, c.now);
    if found.Ok? {
      ConsumeKeeps(p, found.value.id);
      var p1 := p.(invitations := ConsumeInPostgres(p.invitations, found.value.id));
      InsertDeviceKeeps(p1, NewDevice(found.value, c.device, c.hostname, c.version), c.key);
    }
  }

  lemma AssignKeepsTables(p: Tables, org: Uuid, g: Uuid, d: Uuid)
    requires TablesOk(p)
    ensures TablesOk(PgDo(p, AssignDevice(org, g, d)).0)
  {
    if HasGroup(p, org, g) && HasDevice(p, org, d) { InsertMembershipKeeps(p, g, d); }
  }

  lemma CallKeepsTables(p: Tables, c: Call)
    requires TablesOk(p)
    ensures TablesOk(PgDo(p, c).0)
  {
    match c
    case SaveToken(x, t) => SaveTokenKeeps(p, x, t);
    case RevokeToken(x) => RevokeKeeps(p, x);
    case UpdateDeviceStatus(org, d, status) => UpdateStatusKeeps(p, org, d, status);
    case RegisterDevice(d, key) => InsertDeviceKeeps(p, d, key);
    case CreateGroup(g) => InsertGroupKeeps(p, g);
    case UpdateGroup(org, g, edit) => UpdateGroupKeeps(p, org, g, edit);
    case DeleteGroup(org, g) => DeleteGroupKeeps(p, org, g);
    case AssignDevice(org, g, d) => AssignKeepsTables(p, org, g, d);
    case RemoveDevice(org, g, d) => DeleteMembershipKeeps(p, g, d);
    case CreateInvitation(inv) => InsertInvitationKeeps(p, inv);
    case DeleteInvitation(org, i) => DeleteInvitationKeeps(p, org, i);
    case Handshake(_, _, _, _, _, _) => HandshakeKeepsTables(p, c);
    case _ =>
  }

  // ---- Sequences of calls ----

  // Call after call the stores give the same answers and remain related.
  ghost predicate InStep(m: Mem, p: Tables, calls: seq<Call>)
    decreases |calls|
  {
    calls == [] || (Agree(m, p, calls[0]) && InStep(MemDo(m, calls[0]).0, PgDo(p, calls[0]).0, calls[1..]))
  }

  ghost predicate AllTame(p: Tables, calls: seq<Call>)
    decreases |calls|
  {
    calls == [] || (Tame(p, calls[0]) && AllTame(PgDo(p, calls[0]).0, calls[1..]))
  }

  // Over any sequence of calls, the stores stay in step exactly as long as every call is tame.
  lemma {:induction false} InStepIffTame(m: Mem, p: Tables, calls: seq<Call>)
    requires Related(m, p) && TablesOk(p)
    ensures InStep(m, p, calls) <==> AllTame(p, calls)
    decreases |calls|
  {
    if calls != [] {
      AgreeIffTame(m, p, calls[0]);
      if Tame(p, calls[0]) {
        CallKeepsTables(p, calls[0]);
        InStepIffTame(MemDo(m, calls[0]).0, PgDo(p, calls[0]).0, calls[1..]);
      }
    }
  }

  ghost function MemAnswers(m: Mem, calls: seq<Call>): seq<Answer>
    decreases |calls|
  {
    if calls == [] then [] else [MemDo(m, calls[0]).1] + MemAnswers(MemDo(m, calls[0]).0, calls[1..])
  }

  ghost function PgAnswers(p: Tables, calls: seq<Call>): seq<Answer>
    decreases |calls|
  {
    if calls == [] then [] else [PgDo(p, calls[0]).1] + PgAnswers(PgDo(p, calls[0]).0, calls[1..])
  }

  lemma {:induction false} InStepSameAnswers(m: Mem, p: Tables, calls: seq<Call>)
    requires InStep(m, p, calls)
    ensures MemAnswers(m, calls) == PgAnswers(p, calls)
    decreases |calls|
  {
    if calls != [] { InStepSameAnswers(MemDo(m, calls[0]).0, PgDo(p, calls[0]).0, calls[1..]); }
  }

  // From the same organizations and nothing else, every sequence of tame calls gets the same answers from both stores.
  lemma TameCallsSameAnswers(orgs: map<Uuid, string>, users: set<Uuid>, calls: seq<Call>)
    requires AllTame(Tables(orgs, users, map[], map[], map[], map[], {}, map[]), calls)
    ensures MemAnswers(Mem(orgs, map[], map[], map[], map[], map[], map[]), calls)
         == PgAnswers(Tables(orgs, users, map[], map[], map[], map[], {}, map[]), calls)
  {
    var m := Mem(orgs, map[], map[], map[], map[], map[], map[]);
    var p := Tables(orgs, users, map[], map[], map[], map[], {}, map[]);
    InStepIffTame(m, p, calls);
    InStepSameAnswers(m, p, calls);
  }

  // ---- Calls as the handlers make them ----

  // Ids not used before, names not taken, no parent groups, nothing left out of an update, and what the call names
  // belongs to the organization of its caller.
  ghost predicate Careful(p: Tables, c: Call) {
    match c
    case SaveToken(x, t) => x !in p.tokens && t.user in p.users && t.org in p.orgs
    case RegisterDevice(d, _) => d.id !in p.devices && d.org in p.orgs
    case CreateGroup(g) =>
      g.id !in p.groups && g.org in p.orgs && g.parent.None? && !NameTaken(p.groups, g.org, g.name, g.id)
    case UpdateGroup(org, g, edit) =>
      HasGroup(p, org, g) && edit.name != "" && edit.description.Some? && edit.policies.Some?
      && !NameTaken(p.groups, org, edit.name, g)
    case DeleteGroup(org, g) => HasGroup(p, org, g)
    case AssignDevice(org, g, d) => HasGroup(p, org, g) && HasDevice(p, org, d)
    case RemoveDevice(org, g, _) => HasGroup(p, org, g)
    case GroupHealth(org, g) => HasGroup(p, org, g)
    case CreateInvitation(inv) =>
      inv.id !in p.invitations && inv.org in p.orgs && !HashTaken(p.invitations, inv.tokenHash)
      && (inv.target.Some? ==> HasGroup(p, inv.org, inv.target.value))
    case DeleteInvitation(org, i) => i in p.invitations && p.invitations[i].org == org
    case Handshake(_, d, _, _, _, _) => d !in p.devices
    case _ => true
  }

  ghost predicate AllCareful(p: Tables, calls: seq<Call>)
    decreases |calls|
  {
    calls == [] || (Careful(p, calls[0]) && AllCareful(PgDo(p, calls[0]).0, calls[1..]))
  }

  ghost predicate NoParents(groups: Groups) {
    forall g :: g in groups ==> groups[g].parent.None?
  }

  lemma CarefulIsTame(p: Tables, c: Call)
    requires TablesOk(p) && NoParents(p.groups) && Careful(p, c)
    ensures Tame(p, c)
  {
  }

  lemma CarefulKeepsNoParents(p: Tables, c: Call)
    requires NoParents(p.groups) && Careful(p, c)
    ensures NoParents(PgDo(p, c).0.groups)
  {
  }

  // So careful callers can exchange one store for the other.
  lemma {:induction false} CarefulCallsAreTame(p: Tables, calls: seq<Call>)
    requires TablesOk(p) && NoParents(p.groups) && AllCareful(p, calls)
    ensures AllTame(p, calls)
    decreases |calls|
  {
    if calls != [] {
      CarefulIsTame(p, calls[0]);
      CallKeepsTables(p, calls[0]);
      CarefulKeepsNoParents(p, calls[0]);
      CarefulCallsAreTame(PgDo(p, calls[0]).0, calls[1..]);
    }
  }
}
