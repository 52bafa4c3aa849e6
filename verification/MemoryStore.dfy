// The in-memory store as the program holds it: maps updated in place, and listings, counts and the search by hash as
// loops over them in whatever order the maps yield.
module MemoryStoreClass {
  import opened Common
  import opened Records
  import opened Postgres
  import opened Stores
  import TokenRotation

  // With unique token hashes it does not matter in which order the loop sees the invitations.
  lemma FoundIsLookUp(invitations: Invitations, i: Uuid, now: Time)
    requires UniqueHashes(invitations) && i in invitations
    ensures LookUpInvitation(invitations, invitations[i].tokenHash, now) == Judge(invitations[i], now)
  {
    assert HashTaken(invitations, invitations[i].tokenHash);
  }

  lemma OnlineStep(devices: Devices, ds: set<Uuid>, d: Uuid)
    requires d !in ds && d in devices
    ensures var h, h' := CountHealth(devices, ds), CountHealth(devices, ds + {d});
      h' == if devices[d].status == ACTIVE then Health(h.total + 1, h.online + 1, h.offline)
            else Health(h.total + 1, h.online, h.offline + 1)
  {
    var more := ds + {d};
    if devices[d].status == ACTIVE {
      assert Online(devices, more) == Online(devices, ds) + {d};
      assert more - Online(devices, more) == ds - Online(devices, ds);
    } else {
      assert Online(devices, more) == Online(devices, ds);
      assert more - Online(devices, more) == ds - Online(devices, ds) + {d};
    }
  }

  // Which ids have been matched when `todo` are still to be looked at, and how looking at one more changes that.
  lemma MatchedStep(devices: Devices, ids: set<Uuid>, org: Uuid, todo: set<Uuid>, d: Uuid)
    requires d in todo && todo <= ids
    ensures var seen := Matching(devices, ids, org) - todo;
      Matching(devices, ids, org) - (todo - {d})
      == if d in devices && devices[d].org == org then seen + {d} else seen
  {
  }

  // The loop of the two listings: over all devices, or over the members of a group.
  method Collect(devices: Devices, ids: set<Uuid>, org: Uuid) returns (result: seq<Device>)
    ensures Lists(result, devices, Matching(devices, ids, org))
  {
    result := [];
    var todo := ids;
    assert Matching(devices, ids, org) - todo == {};
    while todo != {}
      invariant todo <= ids
      invariant Lists(result, devices, Matching(devices, ids, org) - todo)
      decreases todo
    {
      var d :| d in todo;
      MatchedStep(devices, ids, org, todo, d);
      if d in devices && devices[d].org == org {
        ListsOneMore(result, devices, Matching(devices, ids, org) - todo, d);
        result := result + [devices[d]];
      }
      todo := todo - {d};
    }
    assert Matching(devices, ids, org) - todo == Matching(devices, ids, org);
  }

  // The summary after looking at one more id.
  function Counted(h: Health, devices: Devices, org: Uuid, d: Uuid): Health {
    if d !in devices || devices[d].org != org then h
    else if devices[d].status == ACTIVE then Health(h.total + 1, h.online + 1, h.offline)
    else Health(h.total + 1, h.online, h.offline + 1)
  }

  // Looking at the ids one after the other.
  function Tally(devices: Devices, seen: seq<Uuid>, org: Uuid): Health {
    if seen == [] then Health(0, 0, 0)
    else
      var n := |seen| - 1;
      Counted(Tally(devices, seen[..n], org), devices, org, seen[n])
  }

  ghost predicate Distinct(seen: seq<Uuid>) {
    forall i, j :: 0 <= i < j < |seen| ==> seen[i] != seen[j]
  }

  lemma CountOneMore(devices: Devices, ids: set<Uuid>, org: Uuid, d: Uuid)
    requires d !in ids
    ensures CountHealth(devices, Matching(devices, ids + {d}, org))
         == Counted(CountHealth(devices, Matching(devices, ids, org)), devices, org, d)
  {
    if d in devices && devices[d].org == org {
      assert Matching(devices, ids + {d}, org) == Matching(devices, ids, org) + {d};
      OnlineStep(devices, Matching(devices, ids, org), d);
    } else {
      assert Matching(devices, ids + {d}, org) == Matching(devices, ids, org);
    }
  }

  lemma NobodyMatches(devices: Devices, ids: set<Uuid>, org: Uuid)
    requires ids == {}
    ensures CountHealth(devices, Matching(devices, ids, org)) == Health(0, 0, 0)
  {
    assert Matching(devices, ids, org) == {};
  }

  // In whatever order they are looked at, each once, the tally is the count.
  lemma {:induction false} TallyCounts(devices: Devices, seen: seq<Uuid>, ids: set<Uuid>, org: Uuid)
    requires Distinct(seen) && forall d :: d in seen <==> d in ids
    ensures Tally(devices, seen, org) == CountHealth(devices, Matching(devices, ids, org))
  {
    if seen == [] {
      NobodyMatches(devices, ids, org);
    } else {
      var n := |seen| - 1;
      var rest := ids - {seen[n]};
      AllButLast(seen, ids);
      TallyCounts(devices, seen[..n], rest, org);
      CountOneMore(devices, rest, org, seen[n]);
    }
  }

  lemma AllButLast(seen: seq<Uuid>, ids: set<Uuid>)
    requires seen != [] && Distinct(seen) && forall d :: d in seen <==> d in ids
    ensures var n := |seen| - 1; var rest := ids - {seen[n]};
      Distinct(seen[..n]) && (forall d :: d in seen[..n] <==> d in rest) && rest + {seen[n]} == ids && seen[n] !in rest
  {
    assert seen == seen[..|seen| - 1] + [seen[|seen| - 1]];
  }

  // The loop of the health summary.
  method CountStatuses(devices: Devices, ids: set<Uuid>, org: Uuid) returns (summary: Health)
    ensures summary == CountHealth(devices, Matching(devices, ids, org))
  {
    summary := Health(0, 0, 0);
    var todo := ids;
    ghost var seen := [];
    while todo != {}
      invariant summary == Tally(devices, seen, org)
      invariant todo <= ids && Distinct(seen) && forall d :: d in seen <==> d in ids && d !in todo
      decreases todo
    {
      var d :| d in todo;
      if d in devices && devices[d].org == org {
        summary := summary.(total := summary.total + 1);
        if devices[d].status == ACTIVE {
          summary := summary.(online := summary.online + 1);
        } else {
          summary := summary.(offline := summary.offline + 1);
        }
      }
      todo := todo - {d};
      seen := seen + [d];
      assert seen[..|seen| - 1] + [d] == seen;
    }
    TallyCounts(devices, seen, ids, org);
  }

  // The device has been stored with its key under the organization of the invitation, pending if the invitation asks
  // for approval and active if not; the answer says the same, and the use has been counted.
  ghost predicate Admitted(m: Mem, m': Mem, inv: Invitation, d: Uuid, hostname: string, version: string,
                           key: seq<Byte>, answer: Answer) {
    && inv.org in m.orgs
    && m'.devices == m.devices[d := Device(d, inv.org, hostname, version,
                                           if inv.requiresApproval then PENDING else ACTIVE)]
    && m'.creds == m.creds[d := key]
    && CountedOnce(m.invitations, m'.invitations, inv.id)
    && answer == Enrolled(d, inv.org, m.orgs[inv.org], if inv.requiresApproval then PENDING else ACTIVE)
  }

  // A handshake either enrolls the device by an invitation that admits it, or fails and leaves the devices alone. With
  // no such invitation it fails; with none but such ones, of known organizations, it succeeds.
  ghost predicate HandshakeDone(m: Mem, m': Mem, hash: string, d: Uuid, hostname: string, version: string,
                                key: seq<Byte>, now: Time, answer: Answer) {
    && (answer.Enrolled? ==>
          exists i :: i in m.invitations && Admits(m.invitations[i], hash, now)
                      && Admitted(m, m', m.invitations[i], d, hostname, version, key, answer))
    && (!answer.Enrolled? ==> answer == Fail && m'.devices == m.devices && m'.creds == m.creds)
    && ((forall i :: i in m.invitations ==> !Admits(m.invitations[i], hash, now)) ==> answer == Fail && m' == m)
    && ((exists i :: i in m.invitations && m.invitations[i].tokenHash == hash)
        && (forall i :: i in m.invitations && m.invitations[i].tokenHash == hash ==>
              Admits(m.invitations[i], hash, now) && m.invitations[i].org in m.orgs)
        ==> answer.Enrolled?)
    && (m' == m
        || exists i :: i in m.invitations && Admits(m.invitations[i], hash, now)
                       && CountedOnce(m.invitations, m'.invitations, m.invitations[i].id))
    && ((exists i :: i in m.invitations && m.invitations[i].tokenHash == hash)
        && (forall i :: i in m.invitations && m.invitations[i].tokenHash == hash ==>
              Admits(m.invitations[i], hash, now))
        ==> exists i :: i in m.invitations && Admits(m.invitations[i], hash, now)
                        && CountedOnce(m.invitations, m'.invitations, m.invitations[i].id))
  }

  // One more use of the invitation has been counted.
  ghost predicate CountedOnce(before: Invitations, after: Invitations, id: Uuid) {
    && after.Keys == before.Keys
    && forall i :: i in before ==>
         after[i] == if i == id then before[i].(timesUsed := before[i].timesUsed + 1) else before[i]
  }

  lemma EnrollAdmits(m: Mem, found: Result<Invitation, InvitationError>, hash: string, d: Uuid, hostname: string,
                     version: string, key: seq<Byte>, now: Time)
    requires Answers(m.invitations, hash, now, found)
    ensures var r := MemEnroll(m, found, d, hostname, version, key);
      HandshakeDone(m, r.0, hash, d, hostname, version, key, now, r.1)
  {
    if found.Ok? {
      var i :| i in m.invitations && m.invitations[i] == found.value && Admits(found.value, hash, now);
      EnrollSpelt(m, found.value, d, hostname, version, key);
      var r := MemEnroll(m, found, d, hostname, version, key);
      EnrollDone(m, i, hash, d, hostname, version, key, now, r.0, r.1);
    }
  }

  lemma EnrollSpelt(m: Mem, inv: Invitation, d: Uuid, hostname: string, version: string, key: seq<Byte>)
    ensures var r := MemEnroll(m, Ok(inv), d, hostname, version, key);
      && CountedOnce(m.invitations, r.0.invitations, inv.id)
      && (if inv.org in m.orgs then Admitted(m, r.0, inv, d, hostname, version, key, r.1)
          else r.1 == Fail && r.0.devices == m.devices && r.0.creds == m.creds)
  {
  }

  lemma EnrollDone(m: Mem, i: Uuid, hash: string, d: Uuid, hostname: string, version: string, key: seq<Byte>, now: Time,
                   m': Mem, answer: Answer)
    requires i in m.invitations && Admits(m.invitations[i], hash, now)
    requires var inv := m.invitations[i];
      && CountedOnce(m.invitations, m'.invitations, inv.id)
      && (if inv.org in m.orgs then Admitted(m, m', inv, d, hostname, version, key, answer)
          else answer == Fail && m'.devices == m.devices && m'.creds == m.creds)
    ensures HandshakeDone(m, m', hash, d, hostname, version, key, now, answer)
  {
  }

  class MemoryStore {
    var orgs: map<Uuid, string>
    var refreshTokens: map<Token, RefreshToken>
    var devices: Devices
    var deviceCreds: map<Uuid, seq<Byte>>
    var groups: Groups
    var groupMembers: map<Uuid, set<Uuid>>
    var invitations: Invitations

    function Value(): Mem
      reads this
    {
      Mem(orgs, refreshTokens, devices, deviceCreds, groups, groupMembers, invitations)
    }

    constructor (orgs: map<Uuid, string>)
      ensures Value() == Mem(orgs, map[], map[], map[], map[], map[], map[])
    {
      this.orgs := orgs;
      refreshTokens, devices, deviceCreds := map[], map[], map[];
      groups, groupMembers, invitations := map[], map[], map[];
    }

    // ---- Refresh tokens ----

    method SaveRefreshToken(x: Token, token: RefreshToken)
      modifies this`refreshTokens
      ensures MemDo(old(Value()), SaveToken(x, token)) == (Value(), Done)
      ensures refreshTokens == old(refreshTokens)[x := token]
    {
      refreshTokens := refreshTokens[x := token];
    }

    method GetRefreshToken(x: Token, now: Time) returns (r: Option<RefreshToken>)
      ensures MemDo(Value(), GetToken(x, now)) == (Value(), if r.Some? then TokenFound(r.value) else Fail)
      ensures r.Some? <==> x in refreshTokens && !refreshTokens[x].revoked && now <= refreshTokens[x].expires
      ensures r.Some? ==> r.value == refreshTokens[x]
    {
      if x !in refreshTokens || refreshTokens[x].revoked || now > refreshTokens[x].expires {
        return None;
      }
      return Some(refreshTokens[x]);
    }

    method RevokeRefreshToken(x: Token)
      modifies this`refreshTokens
      ensures MemDo(old(Value()), RevokeToken(x)) == (Value(), Done)
      ensures refreshTokens.Keys == old(refreshTokens).Keys
      ensures forall z :: z in refreshTokens ==>
                refreshTokens[z] == if z == x then old(refreshTokens)[z].(revoked := true) else old(refreshTokens)[z]
    {
      if x in refreshTokens {
        var token := refreshTokens[x].(revoked := true);
        refreshTokens := refreshTokens[x := token];
      }
    }

    // ---- Devices ----

    method ListDevices(org: Uuid) returns (result: seq<Device>)
      ensures |result| == |Matching(devices, devices.Keys, org)|
      ensures MemDo(Value(), Call.ListDevices(org)) == (Value(), DevicesFound(set d | d in result))
      ensures |result| == |set d | d in devices && devices[d].org == org|
      ensures forall x :: x in result <==> exists d :: d in devices && devices[d].org == org && x == devices[d]
    {
      result := Collect(devices, devices.Keys, org);
      ListsExactly(result, devices, Matching(devices, devices.Keys, org));
      assert Matching(devices, devices.Keys, org) == set d | d in devices && devices[d].org == org;
    }

    method GetDevice(org: Uuid, d: Uuid) returns (r: Option<Device>)
      ensures MemDo(Value(), Call.GetDevice(org, d)) == (Value(), if r.Some? then DeviceFound(r.value) else Fail)
      ensures r.Some? <==> d in devices && devices[d].org == org
      ensures r.Some? ==> r.value == devices[d]
    {
      if d !in devices || devices[d].org != org {
        return None;
      }
      return Some(devices[d]);
    }

    method UpdateDeviceStatus(org: Uuid, d: Uuid, status: Status) returns (ok: bool)
      modifies this`devices
      ensures MemDo(old(Value()), Call.UpdateDeviceStatus(org, d, status)) == (Value(), Did(ok))
      ensures ok <==> d in old(devices) && old(devices)[d].org == org
      ensures devices == if ok then old(devices)[d := old(devices)[d].(status := status)] else old(devices)
    {
      if d !in devices || devices[d].org != org {
        return false;
      }
      devices := devices[d := devices[d].(status := status)];
      return true;
    }

    method RegisterDevice(d: Device, key: seq<Byte>)
      modifies this`devices, this`deviceCreds
      ensures MemDo(old(Value()), Call.RegisterDevice(d, key)) == (Value(), Done)
      ensures devices == old(devices)[d.id := d] && deviceCreds == old(deviceCreds)[d.id := key]
    {
      devices := devices[d.id := d];
      deviceCreds := deviceCreds[d.id := key];
    }

    // ---- Groups ----

    method CreateGroup(g: Group)
      modifies this`groups, this`groupMembers
      ensures MemDo(old(Value()), Call.CreateGroup(g)) == (Value(), Done)
      ensures groups == old(groups)[g.id := g] && groupMembers == old(groupMembers)[g.id := {}]
    {
      groups := groups[g.id := g];
      groupMembers := groupMembers[g.id := {}];
    }

    method GetGroup(org: Uuid, g: Uuid) returns (r: Option<Group>)
      ensures MemDo(Value(), Call.GetGroup(org, g)) == (Value(), if r.Some? then GroupFound(r.value) else Fail)
      ensures r.Some? <==> g in groups && groups[g].org == org
      ensures r.Some? ==> r.value == groups[g]
    {
      if g !in groups || groups[g].org != org {
        return None;
      }
      return Some(groups[g]);
    }

    method ListGroups(org: Uuid) returns (result: seq<Group>)
      ensures MemDo(Value(), Call.ListGroups(org)) == (Value(), GroupsFound(set g | g in result))
      ensures |result| == |set g | g in groups && groups[g].org == org|
      ensures forall x :: x in result <==> exists g :: g in groups && groups[g].org == org && x == groups[g]
    {
      result := CollectGroups(groups, org);
    }

    method UpdateGroup(org: Uuid, g: Uuid, edit: Edit) returns (ok: bool)
      modifies this`groups
      ensures MemDo(old(Value()), Call.UpdateGroup(org, g, edit)) == (Value(), Did(ok))
      ensures ok <==> g in old(groups) && old(groups)[g].org == org
      ensures groups.Keys == old(groups).Keys
      ensures forall h :: h in groups && (h != g || !ok) ==> groups[h] == old(groups)[h]
      ensures ok ==>
                var was := old(groups)[g];
                groups[g] == Group(was.id, was.org, was.parent, if edit.name == "" then was.name else edit.name,
                                   if edit.description.None? then was.description else edit.description,
                                   if edit.policies.None? then was.policies else edit.policies)
    {
      if g !in groups || groups[g].org != org {
        return false;
      }
      var group := groups[g];
      if edit.name != "" {
        group := group.(name := edit.name);
      }
      if edit.description.Some? {
        group := group.(description := edit.description);
      }
      if edit.policies.Some? {
        group := group.(policies := edit.policies);
      }
      groups := groups[g := group];
      return true;
    }

    method DeleteGroup(org: Uuid, g: Uuid)
      modifies this`groups, this`groupMembers
      ensures MemDo(old(Value()), Call.DeleteGroup(org, g)) == (Value(), Done)
      ensures groups == old(groups) - {g} && groupMembers == old(groupMembers) - {g}
    {
      groups := groups - {g};
      groupMembers := groupMembers - {g};
    }

    method AssignDeviceToGroup(org: Uuid, g: Uuid, d: Uuid) returns (ok: bool)
      modifies this`groupMembers
      ensures MemDo(old(Value()), AssignDevice(org, g, d)) == (Value(), Did(ok))
      ensures ok <==> g in groups && d in devices
      ensures !ok ==> groupMembers == old(groupMembers)
      ensures ok ==> groupMembers
                     == old(groupMembers)[g := (if g in old(groupMembers) then old(groupMembers)[g] else {}) + {d}]
    {
      if g !in groups {
        return false;
      }
      if d !in devices {
        return false;
      }
      if g !in groupMembers {
        groupMembers := groupMembers[g := {}];
      }
      groupMembers := groupMembers[g := groupMembers[g] + {d}];
      assert groupMembers == old(groupMembers)[g := MembersOf(old(groupMembers), g) + {d}];
      return true;
    }

    // The handler's loop: the errors are dropped, and existing devices of any organization join an existing group.
    method AssignDevices(org: Uuid, g: Uuid, ids: seq<Uuid>)
      modifies this`groupMembers
      ensures g !in groups ==> groupMembers == old(groupMembers)
      ensures g in groups ==>
                MembersOf(groupMembers, g) == MembersOf(old(groupMembers), g) + (set d | d in ids && d in devices)
      ensures forall h :: h != g ==> MembersOf(groupMembers, h) == MembersOf(old(groupMembers), h)
    {
      var i := 0;
      while i < |ids|
        invariant 0 <= i <= |ids|
        invariant unchanged(`groups) && unchanged(`devices)
        invariant g !in groups ==> groupMembers == old(groupMembers)
        invariant g in groups ==>
                    MembersOf(groupMembers, g)
                    == MembersOf(old(groupMembers), g) + (set d | d in ids[..i] && d in devices)
        invariant forall h :: h != g ==> MembersOf(groupMembers, h) == MembersOf(old(groupMembers), h)
      {
        var _ := AssignDeviceToGroup(org, g, ids[i]);
        assert ids[..i + 1] == ids[..i] + [ids[i]];
        i := i + 1;
      }
      assert ids[..i] == ids;
    }

    method RemoveDeviceFromGroup(org: Uuid, g: Uuid, d: Uuid)
      modifies this`groupMembers
      ensures MemDo(old(Value()), RemoveDevice(org, g, d)) == (Value(), Done)
      ensures groupMembers.Keys == old(groupMembers).Keys
      ensures forall h :: h in groupMembers ==>
                groupMembers[h] == if h == g then old(groupMembers)[h] - {d} else old(groupMembers)[h]
    {
      if g in groupMembers {
        groupMembers := groupMembers[g := groupMembers[g] - {d}];
      }
    }

    method GetGroupDevices(org: Uuid, g: Uuid) returns (result: seq<Device>)
      ensures |result| == |Listed(Value(), org, g)|
      ensures MemDo(Value(), GroupDevices(org, g)) == (Value(), DevicesFound(set d | d in result))
      ensures |result| == |set d | d in devices && g in groupMembers && d in groupMembers[g] && devices[d].org == org|
      ensures forall x :: x in result <==>
                exists d :: d in devices && g in groupMembers && d in groupMembers[g] && devices[d].org == org
                            && x == devices[d]
    {
      result := Collect(devices, MembersOf(groupMembers, g), org);
      ListsExactly(result, devices, Listed(Value(), org, g));
      assert Listed(Value(), org, g)
          == set d | d in devices && g in groupMembers && d in groupMembers[g] && devices[d].org == org;
    }

    method GetGroupHealthSummary(org: Uuid, g: Uuid) returns (name: string, summary: Health)
      ensures MemDo(Value(), GroupHealth(org, g)) == (Value(), HealthFound(name, summary))
      ensures name == if g in groups then groups[g].name else ""
      ensures var mine := set d | d in devices && g in groupMembers && d in groupMembers[g] && devices[d].org == org;
              && summary.total == |mine| == summary.online + summary.offline
              && summary.online == |set d | d in mine && d in devices && devices[d].status == ACTIVE|
    {
      name := "";
      if g in groups {
        name := groups[g].name;
      }
      summary := CountStatuses(devices, MembersOf(groupMembers, g), org);
      ghost var mine := set d | d in devices && g in groupMembers && d in groupMembers[g] && devices[d].org == org;
      assert Listed(Value(), org, g) == mine;
      CountSpelt(devices, mine);
    }

    // ---- Enrollment ----

    method CreateEnrollmentInvitation(inv: Invitation)
      modifies this`invitations
      ensures MemDo(old(Value()), CreateInvitation(inv)) == (Value(), Done)
      ensures invitations == old(invitations)[inv.id := inv]
    {
      invitations := invitations[inv.id := inv];
    }

    // The first invitation with the hash decides, expiry before exhaustion.
    method GetEnrollmentInvitationByHash(hash: string, now: Time) returns (r: Result<Invitation, InvitationError>)
      ensures MayFind(invitations, hash, now, r) && Answers(invitations, hash, now, r)
      ensures UniqueHashes(invitations) ==> r == LookUpInvitation(invitations, hash, now)
    {
      var todo := invitations.Keys;
      while todo != {}
        invariant todo <= invitations.Keys
        invariant forall i :: i in invitations && invitations[i].tokenHash == hash ==> i in todo
        decreases todo
      {
        var i :| i in todo;
        if invitations[i].tokenHash == hash {
          if UniqueHashes(invitations) { FoundIsLookUp(invitations, i, now); }
          if now > invitations[i].expires {
            return Err(TokenExpired);
          }
          if invitations[i].timesUsed >= invitations[i].maxUses {
            return Err(TokenExhausted);
          }
          return Ok(invitations[i]);
        }
        todo := todo - {i};
      }
      return Err(NotFound);
    }

    method ConsumeEnrollmentInvitation(i: Uuid)
      modifies this`invitations
      ensures invitations == ConsumeInMemory(old(invitations), i)
      ensures invitations.Keys == old(invitations).Keys
      ensures forall z :: z in invitations ==>
                invitations[z] == if z == i then old(invitations)[z].(timesUsed := old(invitations)[z].timesUsed + 1)
                                  else old(invitations)[z]
    {
      if i in invitations {
        invitations := invitations[i := UsedOnceMore(invitations[i])];
      }
    }

    method DeleteEnrollmentInvitation(org: Uuid, i: Uuid)
      modifies this`invitations
      ensures MemDo(old(Value()), Call.DeleteInvitation(org, i)) == (Value(), Done)
      ensures invitations == old(invitations) - {i}
    {
      invitations := invitations - {i};
    }

    // What the handler does with the invitation it has found; `d` is the id it generates.
    method Enroll(inv: Invitation, d: Uuid, hostname: string, version: string, key: seq<Byte>) returns (answer: Answer)
      modifies this`devices, this`deviceCreds, this`invitations
      ensures MemEnroll(old(Value()), Ok(inv), d, hostname, version, key) == (Value(), answer)
    {
      ConsumeEnrollmentInvitation(inv.id);
      if inv.org !in orgs {
        return Fail;
      }
      var status := PENDING;
      if !inv.requiresApproval {
        status := ACTIVE;
      }
      RegisterDevice(Device(d, inv.org, hostname, version, status), key);
      return Enrolled(d, inv.org, orgs[inv.org], status);
    }

    // The handler's calls, one after the other.
    method Handshake(hash: string, d: Uuid, hostname: string, version: string, key: seq<Byte>, now: Time)
      returns (answer: Answer)
      modifies this`devices, this`deviceCreds, this`invitations
      ensures exists found :: MayFind(old(invitations), hash, now, found)
                           && MemEnroll(old(Value()), found, d, hostname, version, key) == (Value(), answer)
      ensures UniqueHashes(old(invitations)) ==>
                MemDo(old(Value()), Call.Handshake(hash, d, hostname, version, key, now)) == (Value(), answer)
      ensures HandshakeDone(old(Value()), Value(), hash, d, hostname, version, key, now, answer)
    {
      var found := GetEnrollmentInvitationByHash(hash, now);
      EnrollAdmits(Value(), found, hash, d, hostname, version, key, now);
      if found.Err? {
        return Fail;
      }
      answer := Enroll(found.value, d, hostname, version, key);
    }
  }
}
