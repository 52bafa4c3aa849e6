// The Postgres store: every method a sequence of statements over the tables. Here each method runs alone;
// GroupProtocol, Enrollment and TokenRotation let the statements of several requests interleave.
module PostgresStoreClass {
  import opened Common
  import opened Records
  import opened Postgres
  import opened Stores
  import opened TableProofs
  import opened GroupHierarchy
  import TokenRotation

  // The loop over the rows of a query's result.
  method ReadRows(devices: Devices, ids: set<Uuid>) returns (result: seq<Device>)
    requires ids <= devices.Keys
    ensures Lists(result, devices, ids)
  {
    result := [];
    var todo := ids;
    assert ids - todo == {};
    while todo != {}
      invariant todo <= ids
      invariant Lists(result, devices, ids - todo)
      decreases todo
    {
      var d :| d in todo;
      ListsOneMore(result, devices, ids - todo, d);
      assert ids - (todo - {d}) == ids - todo + {d};
      result := result + [devices[d]];
      todo := todo - {d};
    }
    assert ids - todo == ids;
  }

  class PostgresStore {
    var db: Tables

    ghost predicate Valid()
      reads this
    {
      TablesOk(db)
    }

    constructor (orgs: map<Uuid, string>, users: set<Uuid>)
      ensures Valid() && db == Tables(orgs, users, map[], map[], map[], map[], {}, map[])
    {
      db := Tables(orgs, users, map[], map[], map[], map[], {}, map[]);
    }

    // ---- Refresh tokens ----

    // An existing row changes in nothing but being revoked.
    method SaveRefreshToken(x: Token, token: RefreshToken) returns (ok: bool)
      requires Valid()
      modifies this
      ensures Valid() && PgDo(old(db), Call.SaveToken(x, token)) == (db, Did(ok))
      ensures ok <==> x in old(db).tokens || (token.user in old(db).users && token.org in old(db).orgs)
      ensures db == old(db).(tokens := db.tokens)
      ensures forall z :: z in old(db).tokens && z != x ==> z in db.tokens && db.tokens[z] == old(db).tokens[z]
      ensures x in old(db).tokens ==> x in db.tokens && db.tokens[x] == old(db).tokens[x].(revoked := token.revoked)
      ensures ok && x !in old(db).tokens ==> x in db.tokens && db.tokens[x] == token
    {
      SaveTokenKeeps(db, x, token);
      if x in db.tokens {
        db := db.(tokens := db.tokens[x := db.tokens[x].(revoked := token.revoked)]);
        return true;
      }
      if token.user !in db.users || token.org !in db.orgs {
        return false;
      }
      db := db.(tokens := db.tokens[x := token]);
      return true;
    }

    // One SELECT; revocation and expiry are checked on the row it returns.
    method GetRefreshToken(x: Token, now: Time) returns (r: Option<RefreshToken>)
      ensures PgDo(db, GetToken(x, now)) == (db, if r.Some? then TokenFound(r.value) else Fail)
      ensures r.Some? <==> x in db.tokens && !db.tokens[x].revoked && now <= db.tokens[x].expires
      ensures r.Some? ==> r.value == db.tokens[x]
    {
      if x !in db.tokens {
        return None;
      }
      var token := db.tokens[x];
      if token.revoked {
        return None;
      }
      if now > token.expires {
        return None;
      }
      return Some(token);
    }

    method RevokeRefreshToken(x: Token)
      requires Valid()
      modifies this
      ensures Valid() && PgDo(old(db), RevokeToken(x)) == (db, Done)
      ensures db == old(db).(tokens := db.tokens) && db.tokens.Keys == old(db).tokens.Keys
      ensures forall z :: z in db.tokens ==>
                db.tokens[z] == if z == x then old(db).tokens[z].(revoked := true) else old(db).tokens[z]
    {
      RevokeKeeps(db, x);
      if x in db.tokens {
        db := db.(tokens := db.tokens[x := db.tokens[x].(revoked := true)]);
      }
    }

    // ---- Devices ----

    method ListDevices(org: Uuid) returns (result: seq<Device>)
      ensures |result| == |Matching(db.devices, db.devices.Keys, org)|
      ensures PgDo(db, Call.ListDevices(org)) == (db, DevicesFound(set d | d in result))
      ensures |result| == |set d | d in db.devices && db.devices[d].org == org|
      ensures forall x :: x in result <==> exists d :: d in db.devices && db.devices[d].org == org && x == db.devices[d]
    {
      result := ReadRows(db.devices, Matching(db.devices, db.devices.Keys, org));
      ListsExactly(result, db.devices, Matching(db.devices, db.devices.Keys, org));
      assert Matching(db.devices, db.devices.Keys, org) == set d | d in db.devices && db.devices[d].org == org;
    }

    // One row of the organization, in one column.
    method UpdateDeviceStatus(org: Uuid, d: Uuid, status: Status) returns (ok: bool)
      requires Valid()
      modifies this
      ensures Valid() && PgDo(old(db), Call.UpdateDeviceStatus(org, d, status)) == (db, Did(ok))
      ensures ok <==> d in old(db).devices && old(db).devices[d].org == org
      ensures db == old(db).(devices := db.devices) && db.devices.Keys == old(db).devices.Keys
      ensures forall z :: z in db.devices ==>
                db.devices[z] == if ok && z == d then old(db).devices[z].(status := status) else old(db).devices[z]
    {
      UpdateStatusKeeps(db, org, d, status);
      if d !in db.devices || db.devices[d].org != org {
        return false;
      }
      db := db.(devices := db.devices[d := db.devices[d].(status := status)]);
      return true;
    }

    method GetDevice(org: Uuid, d: Uuid) returns (r: Option<Device>)
      ensures PgDo(db, Call.GetDevice(org, d)) == (db, if r.Some? then DeviceFound(r.value) else Fail)
      ensures r.Some? <==> d in db.devices && db.devices[d].org == org
      ensures r.Some? ==> r.value == db.devices[d]
    {
      if HasDevice(db, org, d) {
        return Some(db.devices[d]);
      }
      return None;
    }

    // Two insertions in one transaction: if either fails, neither happens.
    method RegisterDevice(d: Device, key: seq<Byte>) returns (ok: bool)
      requires Valid()
      modifies this
      ensures Valid() && PgDo(old(db), Call.RegisterDevice(d, key)) == (db, Did(ok))
      ensures ok <==> d.id !in old(db).devices && d.id !in old(db).creds && d.org in old(db).orgs
      ensures db == if ok then old(db).(devices := old(db).devices[d.id := d], creds := old(db).creds[d.id := key])
                    else old(db)
    {
      InsertDeviceKeeps(db, d, key);
      var tx := db;
      if d.id in tx.devices || d.org !in tx.orgs {
        return false;
      }
      tx := tx.(devices := tx.devices[d.id := d]);
      if d.id in tx.creds {
        return false;
      }
      tx := tx.(creds := tx.creds[d.id := key]);
      db := tx;
      return true;
    }

    // ---- Groups ----

    method GetGroup(org: Uuid, g: Uuid) returns (r: Option<Group>)
      ensures PgDo(db, Call.GetGroup(org, g)) == (db, if r.Some? then GroupFound(r.value) else Fail)
      ensures r.Some? <==> g in db.groups && db.groups[g].org == org
      ensures r.Some? ==> r.value == db.groups[g]
    {
      if HasGroup(db, org, g) {
        return Some(db.groups[g]);
      }
      return None;
    }

    method ListGroups(org: Uuid) returns (result: seq<Group>)
      ensures PgDo(db, Call.ListGroups(org)) == (db, GroupsFound(set g | g in result))
      ensures |result| == |set g | g in db.groups && db.groups[g].org == org|
      ensures forall x :: x in result <==> exists g :: g in db.groups && db.groups[g].org == org && x == db.groups[g]
    {
      result := CollectGroups(db.groups, org);
    }

    // Refused when the id, the organization, the parent or the name stands against it; otherwise one more row.
    method CreateGroup(g: Group) returns (ok: bool)
      requires Valid()
      modifies this
      ensures Valid() && PgDo(old(db), Call.CreateGroup(g)) == (db, Did(ok))
      ensures ok <==>
              g.id !in old(db).groups && g.org in old(db).orgs
              && (g.parent.Some? ==> g.parent.value in old(db).groups || g.parent.value == g.id)
              && forall h :: h in old(db).groups && h != g.id && old(db).groups[h].org == g.org ==>
                               old(db).groups[h].name != g.name
      ensures db == old(db).(groups := db.groups)
      ensures db.groups == if ok then old(db).groups[g.id := g] else old(db).groups
    {
      InsertGroupKeeps(db, g);
      if g.id in db.groups || g.org !in db.orgs || NameTaken(db.groups, g.org, g.name, g.id) {
        return false;
      }
      if g.parent.Some? && g.parent.value !in db.groups && g.parent.value != g.id {
        return false;
      }
      db := db.(groups := db.groups[g.id := g]);
      return true;
    }

    // One row of the organization, in three columns, empty or not.
    method UpdateGroup(org: Uuid, g: Uuid, edit: Edit) returns (ok: bool)
      requires Valid()
      modifies this
      ensures Valid() && PgDo(old(db), Call.UpdateGroup(org, g, edit)) == (db, Did(ok))
      ensures ok <==>
              g in old(db).groups && old(db).groups[g].org == org
              && forall h :: h in old(db).groups && h != g && old(db).groups[h].org == org ==>
                               old(db).groups[h].name != edit.name
      ensures db == old(db).(groups := db.groups) && db.groups.Keys == old(db).groups.Keys
      ensures forall h :: h in db.groups && h != g ==> db.groups[h] == old(db).groups[h]
      ensures ok ==> db.groups[g] == Group(g, org, old(db).groups[g].parent, edit.name, edit.description, edit.policies)
    {
      UpdateGroupKeeps(db, org, g, edit);
      if g !in db.groups || db.groups[g].org != org || NameTaken(db.groups, org, edit.name, g) {
        return false;
      }
      var group := db.groups[g].(name := edit.name, description := edit.description, policies := edit.policies);
      db := db.(groups := db.groups[g := group]);
      return true;
    }

    // One DELETE: the group and everything below it, with the memberships of all of these; invitations aimed at them
    // lose their target; all else stays.
    method DeleteGroup(org: Uuid, g: Uuid) returns (ok: bool)
      requires Valid()
      modifies this
      ensures Valid() && PgDo(old(db), Call.DeleteGroup(org, g)) == (db, Did(ok))
      ensures ok <==> g in old(db).groups && old(db).groups[g].org == org
      ensures !ok ==> db == old(db)
      ensures ok ==>
                && (forall h :: h in db.groups <==> h in old(db).groups && !Under(old(db).groups, g, h))
                && (forall h :: h in db.groups ==> db.groups[h] == old(db).groups[h])
                && (forall m :: m in db.memberships <==> m in old(db).memberships && !Under(old(db).groups, g, m.0))
                && db.devices == old(db).devices && db.creds == old(db).creds && db.tokens == old(db).tokens
                && db.orgs == old(db).orgs && db.users == old(db).users
                && db.invitations.Keys == old(db).invitations.Keys
                && (forall i :: i in db.invitations ==>
                      var inv := old(db).invitations[i];
                      db.invitations[i] == if inv.target.Some? && Under(old(db).groups, g, inv.target.value)
                                           then inv.(target := None) else inv)
    {
      DeleteGroupKeeps(db, org, g);
      if g !in db.groups || db.groups[g].org != org {
        return false;
      }
      DeleteRemovesSubtree(db, org, g);
      db := DropGroups(db, Cascade(db.groups, {g}));
      return true;
    }

    method AssignDeviceToGroup(org: Uuid, g: Uuid, d: Uuid) returns (ok: bool)
      requires Valid()
      modifies this
      ensures Valid() && PgDo(old(db), AssignDevice(org, g, d)) == (db, Did(ok))
      ensures ok <==> g in old(db).groups && old(db).groups[g].org == org
                      && d in old(db).devices && old(db).devices[d].org == org
      ensures db == if ok then old(db).(memberships := old(db).memberships + {(g, d)}) else old(db)
    {
      var group := GetGroup(org, g);
      if group.None? {
        return false;
      }
      var device := GetDevice(org, d);
      if device.None? {
        return false;
      }
      InsertMembershipKeeps(db, g, d);
      db := InsertMembership(db, g, d);
      return true;
    }

    // The handler's loop: errors are dropped, so exactly the caller's own devices join the caller's own group, and
    // nothing else changes.
    method AssignDevices(org: Uuid, g: Uuid, ids: seq<Uuid>)
      requires Valid()
      modifies this
      ensures Valid() && db == old(db).(memberships := db.memberships)
      ensures forall m :: m in db.memberships <==>
                m in old(db).memberships
                || (m.0 == g && g in old(db).groups && old(db).groups[g].org == org
                    && m.1 in ids && m.1 in old(db).devices && old(db).devices[m.1].org == org)
    {
      var i := 0;
      ghost var start := db;
      AssignedNone(start, org, g, ids);
      while i < |ids|
        invariant 0 <= i <= |ids|
        invariant Valid() && db == AfterAssigning(start, org, g, ids[..i])
      {
        AssignedOneMore(start, db, org, g, ids, i);
        var _ := AssignDeviceToGroup(org, g, ids[i]);
        i := i + 1;
      }
      assert ids[..i] == ids;
      AssignedSpelt(start, org, g, ids);
    }

    method RemoveDeviceFromGroup(org: Uuid, g: Uuid, d: Uuid) returns (ok: bool)
      requires Valid()
      modifies this
      ensures Valid() && PgDo(old(db), RemoveDevice(org, g, d)) == (db, Did(ok))
      ensures ok <==> g in old(db).groups && old(db).groups[g].org == org
      ensures db == if ok then old(db).(memberships := old(db).memberships - {(g, d)}) else old(db)
    {
      var group := GetGroup(org, g);
      if group.None? {
        return false;
      }
      DeleteMembershipKeeps(db, g, d);
      db := DeleteMembership(db, g, d);
      return true;
    }

    method GetGroupDevices(org: Uuid, g: Uuid) returns (result: seq<Device>)
      ensures |result| == |MembersIn(db, org, g)|
      ensures PgDo(db, GroupDevices(org, g)) == (db, DevicesFound(set d | d in result))
      ensures |result| == |set d | d in db.devices && (g, d) in db.memberships && db.devices[d].org == org|
      ensures forall x :: x in result <==>
                exists d :: d in db.devices && (g, d) in db.memberships && db.devices[d].org == org
                            && x == db.devices[d]
    {
      result := ReadRows(db.devices, MembersIn(db, org, g));
      ListsExactly(result, db.devices, MembersIn(db, org, g));
    }

    // The count has no filter on the organization; the second clause says that it needs none.
    method GetGroupHealthSummary(org: Uuid, g: Uuid) returns (r: Option<(string, Health)>)
      requires Valid()
      ensures PgDo(db, GroupHealth(org, g)) == (db, if r.Some? then HealthFound(r.value.0, r.value.1) else Fail)
      ensures r.Some? <==> g in db.groups && db.groups[g].org == org
      ensures r.Some? ==>
                var mine := set d | d in db.devices && (g, d) in db.memberships && db.devices[d].org == org;
                && r.value.0 == db.groups[g].name
                && r.value.1.total == |mine| == r.value.1.online + r.value.1.offline
                && r.value.1.online == |set d | d in mine && d in db.devices && db.devices[d].status == ACTIVE|
    {
      var group := GetGroup(org, g);
      if group.None? {
        return None;
      }
      assert HasGroup(db, org, g) && group.value == db.groups[g];
      var health := CountHealth(db.devices, Members(db, g));
      HealthListed(db, org, g);
      return Some((group.value.name, health));
    }

    // ---- Enrollment ----

    // Refused when the id, the organization, the target or the hash stands against it; otherwise one more row.
    method CreateEnrollmentInvitation(inv: Invitation) returns (ok: bool)
      requires Valid()
      modifies this
      ensures Valid() && PgDo(old(db), CreateInvitation(inv)) == (db, Did(ok))
      ensures ok <==>
              inv.id !in old(db).invitations && inv.org in old(db).orgs
              && (inv.target.Some? ==> inv.target.value in old(db).groups)
              && forall i :: i in old(db).invitations ==> old(db).invitations[i].tokenHash != inv.tokenHash
      ensures db == old(db).(invitations := db.invitations)
      ensures db.invitations == if ok then old(db).invitations[inv.id := inv] else old(db).invitations
    {
      InsertInvitationKeeps(db, inv);
      if inv.id in db.invitations || inv.org !in db.orgs || HashTaken(db.invitations, inv.tokenHash) {
        return false;
      }
      if inv.target.Some? && inv.target.value !in db.groups {
        return false;
      }
      db := db.(invitations := db.invitations[inv.id := inv]);
      return true;
    }

    method GetEnrollmentInvitationByHash(hash: string, now: Time) returns (r: Result<Invitation, InvitationError>)
      requires Valid()
      ensures r == LookUpInvitation(db.invitations, hash, now)
      ensures Answers(db.invitations, hash, now, r)
    {
      if !HashTaken(db.invitations, hash) {
        return Err(NotFound);
      }
      var i :| i in db.invitations && db.invitations[i].tokenHash == hash;
      var inv := db.invitations[i];
      if now > inv.expires {
        return Err(TokenExpired);
      }
      if inv.timesUsed >= inv.maxUses {
        return Err(TokenExhausted);
      }
      return Ok(inv);
    }

    // UPDATE ... WHERE times_used < max_uses
    method ConsumeEnrollmentInvitation(i: Uuid) returns (ok: bool)
      requires Valid()
      modifies this
      ensures Valid() && db == old(db).(invitations := ConsumeInPostgres(old(db).invitations, i))
      ensures ok <==> i in old(db).invitations && old(db).invitations[i].timesUsed < old(db).invitations[i].maxUses
      ensures !ok ==> db == old(db)
      ensures ok ==> db == old(db).(invitations := old(db).invitations[i := UsedOnceMore(old(db).invitations[i])])
    {
      ConsumeKeeps(db, i);
      if i !in db.invitations || db.invitations[i].timesUsed >= db.invitations[i].maxUses {
        return false;
      }
      db := db.(invitations := db.invitations[i := UsedOnceMore(db.invitations[i])]);
      return true;
    }

    method DeleteEnrollmentInvitation(org: Uuid, i: Uuid) returns (ok: bool)
      requires Valid()
      modifies this
      ensures Valid() && PgDo(old(db), Call.DeleteInvitation(org, i)) == (db, Did(ok))
      ensures ok <==> i in old(db).invitations && old(db).invitations[i].org == org
      ensures db == old(db).(invitations := db.invitations)
      ensures forall z :: z in db.invitations <==> z in old(db).invitations && !(ok && z == i)
      ensures forall z :: z in db.invitations ==> db.invitations[z] == old(db).invitations[z]
    {
      DeleteInvitationKeeps(db, org, i);
      if i !in db.invitations || db.invitations[i].org != org {
        return false;
      }
      db := db.(invitations := db.invitations - {i});
      return true;
    }

    // What the handler does with the invitation it has found; `d` is the id it generates.
    method Enroll(inv: Invitation, d: Uuid, hostname: string, version: string, key: seq<Byte>) returns (answer: Answer)
      requires Valid()
      modifies this
      ensures Valid() && PgEnroll(old(db), Ok(inv), d, hostname, version, key) == (db, answer)
    {
      var _ := ConsumeEnrollmentInvitation(inv.id);
      if inv.org !in db.orgs {
        return Fail;
      }
      var status := PENDING;
      if !inv.requiresApproval {
        status := ACTIVE;
      }
      var ok := RegisterDevice(Device(d, inv.org, hostname, version, status), key);
      if !ok {
        return Fail;
      }
      return Enrolled(d, inv.org, db.orgs[inv.org], status);
    }

    // The handler's calls, one after the other.
    method Handshake(hash: string, d: Uuid, hostname: string, version: string, key: seq<Byte>, now: Time)
      returns (answer: Answer)
      requires Valid()
      modifies this
      ensures Valid() && PgDo(old(db), Call.Handshake(hash, d, hostname, version, key, now)) == (db, answer)
      ensures HandshakeDone(old(db), db, hash, d, hostname, version, key, now, answer)
    {
      ghost var before := db;
      var found := GetEnrollmentInvitationByHash(hash, now);
      if found.Ok? {
        answer := Enroll(found.value, d, hostname, version, key);
      } else {
        answer := Fail;
      }
      HandshakeIsCall(before, found, hash, d, hostname, version, key, now, db, answer);
      HandshakeSpelt(before, found, hash, d, hostname, version, key, now, db, answer);
    }
  }

  lemma HealthListed(p: Tables, org: Uuid, g: Uuid)
    requires TablesOk(p) && HasGroup(p, org, g)
    ensures var h := CountHealth(p.devices, Members(p, g));
      var mine := set d | d in p.devices && (g, d) in p.memberships && p.devices[d].org == org;
      && PgDo(p, GroupHealth(org, g)) == (p, HealthFound(p.groups[g].name, h))
      && h.total == |mine| == h.online + h.offline
      && h.online == |set d | d in mine && d in p.devices && p.devices[d].status == ACTIVE|
  {
    AllOwnMembers(p, org, g);
    assert MembersIn(p, org, g) == set d | d in p.devices && (g, d) in p.memberships && p.devices[d].org == org;
    CountSpelt(p.devices, Members(p, g));
  }

  // The device has been stored with its key under the organization of the invitation, pending if the invitation asks
  // for approval and active if not; the answer says the same, and the use has been counted.
  ghost predicate Admitted(p: Tables, p': Tables, inv: Invitation, d: Uuid, hostname: string, version: string,
                           key: seq<Byte>, answer: Answer) {
    && inv.org in p.orgs
    && p' == p.(devices := p.devices[d := Device(d, inv.org, hostname, version,
                                                 if inv.requiresApproval then PENDING else ACTIVE)],
                creds := p.creds[d := key],
                invitations := p.invitations[inv.id := inv.(timesUsed := inv.timesUsed + 1)])
    && answer == Enrolled(d, inv.org, p.orgs[inv.org], if inv.requiresApproval then PENDING else ACTIVE)
  }

  // A handshake enrolls the device exactly when an invitation admits it and its id is new; else it fails and leaves
  // the devices alone, and without such an invitation everything.
  ghost predicate HandshakeDone(p: Tables, p': Tables, hash: string, d: Uuid, hostname: string, version: string,
                                key: seq<Byte>, now: Time, answer: Answer) {
    && (answer.Enrolled? ==>
          exists i :: i in p.invitations && Admits(p.invitations[i], hash, now)
                      && Admitted(p, p', p.invitations[i], d, hostname, version, key, answer))
    && (answer.Enrolled? <==>
          d !in p.devices && d !in p.creds && exists i :: i in p.invitations && Admits(p.invitations[i], hash, now))
    && (!answer.Enrolled? ==> answer == Fail && p'.devices == p.devices && p'.creds == p.creds)
    && (forall i :: i in p.invitations && Admits(p.invitations[i], hash, now) ==>
          p'.invitations == p.invitations[i := p.invitations[i].(timesUsed := p.invitations[i].timesUsed + 1)])
    && ((forall i :: i in p.invitations ==> !Admits(p.invitations[i], hash, now)) ==> p' == p)
  }

  lemma LookUpAnswers(invitations: Invitations, hash: string, now: Time)
    requires UniqueHashes(invitations)
    ensures Answers(invitations, hash, now, LookUpInvitation(invitations, hash, now))
    ensures forall i :: i in invitations && Admits(invitations[i], hash, now) ==>
              LookUpInvitation(invitations, hash, now) == Ok(invitations[i])
  {
  }

  lemma HandshakeIsCall(p: Tables, found: Result<Invitation, InvitationError>, hash: string, d: Uuid, hostname: string,
                        version: string, key: seq<Byte>, now: Time, p': Tables, answer: Answer)
    requires found == LookUpInvitation(p.invitations, hash, now)
    requires PgEnroll(p, found, d, hostname, version, key) == (p', answer)
    ensures PgDo(p, Call.Handshake(hash, d, hostname, version, key, now)) == (p', answer)
  {
  }

  lemma HandshakeSpelt(p: Tables, found: Result<Invitation, InvitationError>, hash: string, d: Uuid, hostname: string,
                       version: string, key: seq<Byte>, now: Time, p': Tables, answer: Answer)
    requires TablesOk(p) && found == LookUpInvitation(p.invitations, hash, now)
    requires PgEnroll(p, found, d, hostname, version, key) == (p', answer)
    ensures HandshakeDone(p, p', hash, d, hostname, version, key, now, answer)
  {
    LookUpAnswers(p.invitations, hash, now);
    if found.Ok? {
      var i :| i in p.invitations && p.invitations[i] == found.value && Admits(found.value, hash, now);
      EnrollSpelt(p, i, hash, d, hostname, version, key, now);
      AcceptedDone(p, i, hash, d, hostname, version, key, now, p', answer);
    }
  }

  lemma AcceptedDone(p: Tables, i: Uuid, hash: string, d: Uuid, hostname: string, version: string, key: seq<Byte>,
                     now: Time, p': Tables, answer: Answer)
    requires i in p.invitations && Admits(p.invitations[i], hash, now)
    requires if d !in p.devices && d !in p.creds
             then Admitted(p, p', p.invitations[i], d, hostname, version, key, answer)
             else answer == Fail && p'.devices == p.devices && p'.creds == p.creds
    requires UniqueHashes(p.invitations)
    requires p'.invitations == p.invitations[i := p.invitations[i].(timesUsed := p.invitations[i].timesUsed + 1)]
    ensures HandshakeDone(p, p', hash, d, hostname, version, key, now, answer)
  {
  }

  lemma EnrollSpelt(p: Tables, i: Uuid, hash: string, d: Uuid, hostname: string, version: string, key: seq<Byte>,
                    now: Time)
    requires ForeignKeys(p) && i in p.invitations && Admits(p.invitations[i], hash, now)
    ensures var r := PgEnroll(p, Ok(p.invitations[i]), d, hostname, version, key);
      && (if d !in p.devices && d !in p.creds
          then Admitted(p, r.0, p.invitations[i], d, hostname, version, key, r.1)
          else r.1 == Fail && r.0.devices == p.devices && r.0.creds == p.creds)
      && r.0.invitations == p.invitations[i := p.invitations[i].(timesUsed := p.invitations[i].timesUsed + 1)]
  {
    assert p.invitations[i].id == i && p.invitations[i].org in p.orgs;
  }

  // The tables after an assignment of several devices.
  function AfterAssigning(p: Tables, org: Uuid, g: Uuid, ids: seq<Uuid>): Tables {
    p.(memberships := p.memberships + Assigned(p, org, g, ids))
  }

  function Assigned(p: Tables, org: Uuid, g: Uuid, ids: seq<Uuid>): set<(Uuid, Uuid)> {
    if HasGroup(p, org, g) then set d | d in ids && HasDevice(p, org, d) :: (g, d) else {}
  }

  lemma AssignedSpelt(p: Tables, org: Uuid, g: Uuid, ids: seq<Uuid>)
    ensures forall m :: m in AfterAssigning(p, org, g, ids).memberships <==>
              m in p.memberships
              || (m.0 == g && g in p.groups && p.groups[g].org == org
                  && m.1 in ids && m.1 in p.devices && p.devices[m.1].org == org)
  {
  }

  lemma AssignedNone(p: Tables, org: Uuid, g: Uuid, ids: seq<Uuid>)
    ensures AfterAssigning(p, org, g, ids[..0]) == p
  {
    assert p.memberships + Assigned(p, org, g, ids[..0]) == p.memberships;
  }

  lemma AssignedOneMore(start: Tables, p: Tables, org: Uuid, g: Uuid, ids: seq<Uuid>, i: nat)
    requires i < |ids| && TablesOk(start) && p == AfterAssigning(start, org, g, ids[..i])
    ensures PgDo(p, AssignDevice(org, g, ids[i])).0 == AfterAssigning(start, org, g, ids[..i + 1])
  {
    assert ids[..i + 1] == ids[..i] + [ids[i]];
    var added := if HasGroup(start, org, g) && HasDevice(start, org, ids[i]) then {(g, ids[i])} else {};
    assert Assigned(start, org, g, ids[..i + 1]) == Assigned(start, org, g, ids[..i]) + added;
    assert start.memberships + Assigned(start, org, g, ids[..i + 1]) == p.memberships + added;
  }
}
