// The interface that MemoryStore and PostgresStore both implement: calls, answers, and what each store does with a
// call that runs alone. Every failure counts as the same answer, since the stores report different errors.
module Stores {
  import opened Common
  import opened Records
  import opened Postgres
  import TokenRotation

  // The maps of MemoryStore.
  datatype Mem = Mem(
    orgs: map<Uuid, string>,
    tokens: map<Token, RefreshToken>,
    devices: Devices,
    creds: map<Uuid, seq<Byte>>,
    groups: Groups,
    members: map<Uuid, set<Uuid>>,
    invitations: Invitations)

  datatype Call =
    | SaveToken(x: Token, token: RefreshToken)
    | GetToken(x: Token, now: Time)
    | RevokeToken(x: Token)
    | ListDevices(org: Uuid)
    | GetDevice(org: Uuid, device: Uuid)
    | UpdateDeviceStatus(org: Uuid, device: Uuid, status: Status)
    | RegisterDevice(d: Device, key: seq<Byte>)
    | CreateGroup(g: Group)
    | GetGroup(org: Uuid, group: Uuid)
    | ListGroups(org: Uuid)
    | UpdateGroup(org: Uuid, group: Uuid, edit: Edit)
    | DeleteGroup(org: Uuid, group: Uuid)
    | AssignDevice(org: Uuid, group: Uuid, device: Uuid)
    | RemoveDevice(org: Uuid, group: Uuid, device: Uuid)
    | GroupDevices(org: Uuid, group: Uuid)
    | GroupHealth(org: Uuid, group: Uuid)
    | CreateInvitation(inv: Invitation)
    | DeleteInvitation(org: Uuid, i: Uuid)
    | Handshake(hash: string, device: Uuid, hostname: string, version: string, key: seq<Byte>, now: Time)

  datatype Answer =
    | Fail
    | Done
    | TokenFound(token: RefreshToken)
    | DeviceFound(device: Device)
    | DevicesFound(devices: set<Device>)
    | GroupFound(group: Group)
    | GroupsFound(groups: set<Group>)
    | HealthFound(name: string, health: Health)
    | Enrolled(id: Uuid, org: Uuid, orgName: string, status: Status)

  function DevicesOf(devices: Devices, ds: set<Uuid>): set<Device> {
    set d | d in ds && d in devices :: devices[d]
  }

  // The ids that name devices of the organization.
  function Matching(devices: Devices, ids: set<Uuid>, org: Uuid): set<Uuid> {
    set d | d in ids && d in devices && devices[d].org == org
  }

  function GroupsOf(groups: Groups, org: Uuid): set<Group> {
    set g | g in groups && groups[g].org == org :: groups[g]
  }

  function FindToken(tokens: map<Token, RefreshToken>, x: Token, now: Time): Answer {
    if TokenRotation.Usable(tokens, x, now) then TokenFound(tokens[x]) else Fail
  }

  function FindDevice(devices: Devices, org: Uuid, d: Uuid): Answer {
    if d in devices && devices[d].org == org then DeviceFound(devices[d]) else Fail
  }

  function FindGroup(groups: Groups, org: Uuid, g: Uuid): Answer {
    if g in groups && groups[g].org == org then GroupFound(groups[g]) else Fail
  }

  function NewDevice(inv: Invitation, d: Uuid, hostname: string, version: string): Device {
    Device(d, inv.org, hostname, version, if inv.requiresApproval then PENDING else ACTIVE)
  }

  // ---- MemoryStore ----

  function MembersOf(members: map<Uuid, set<Uuid>>, g: Uuid): set<Uuid> {
    if g in members then members[g] else {}
  }

  // The members of a group that are devices of the organization.
  function Listed(m: Mem, org: Uuid, g: Uuid): set<Uuid> {
    Matching(m.devices, MembersOf(m.members, g), org)
  }

  function Merged(g: Group, edit: Edit): Group {
    g.(name := if edit.name == "" then g.name else edit.name,
       description := if edit.description.None? then g.description else edit.description,
       policies := if edit.policies.None? then g.policies else edit.policies)
  }

  // What a handshake does after the lookup.
  function MemEnroll(m: Mem, found: Result<Invitation, InvitationError>, d: Uuid, hostname: string, version: string,
                     key: seq<Byte>): (Mem, Answer)
  {
    if found.Err? then (m, Fail)
    else
      var inv, m1 := found.value, m.(invitations := ConsumeInMemory(m.invitations, found.value.id));
      if inv.org !in m.orgs then (m1, Fail)
      else
        var dev := NewDevice(inv, d, hostname, version);
        (m1.(devices := m.devices[d := dev], creds := m.creds[d := key]),
         Enrolled(d, inv.org, m.orgs[inv.org], dev.status))
  }

  ghost function MemDo(m: Mem, c: Call): (Mem, Answer) {
    match c
    case SaveToken(x, t) => (m.(tokens := m.tokens[x := t]), Done)
    case GetToken(x, now) => (m, FindToken(m.tokens, x, now))
    case RevokeToken(x) => (m.(tokens := TokenRotation.RevokeIn(m.tokens, x)), Done)
    case ListDevices(org) => (m, DevicesFound(DevicesOf(m.devices, Matching(m.devices, m.devices.Keys, org))))
    case GetDevice(org, d) => (m, FindDevice(m.devices, org, d))
    case UpdateDeviceStatus(org, d, status) =>
      if d !in m.devices || m.devices[d].org != org then (m, Fail)
      else (m.(devices := m.devices[d := m.devices[d].(status := status)]), Done)
    case RegisterDevice(d, key) => (m.(devices := m.devices[d.id := d], creds := m.creds[d.id := key]), Done)
    case CreateGroup(g) => (m.(groups := m.groups[g.id := g], members := m.members[g.id := {}]), Done)
    case GetGroup(org, g) => (m, FindGroup(m.groups, org, g))
    case ListGroups(org) => (m, GroupsFound(GroupsOf(m.groups, org)))
    case UpdateGroup(org, g, edit) =>
      if g !in m.groups || m.groups[g].org != org then (m, Fail)
      else (m.(groups := m.groups[g := Merged(m.groups[g], edit)]), Done)
    case DeleteGroup(_, g) => (m.(groups := m.groups - {g}, members := m.members - {g}), Done)
    case AssignDevice(_, g, d) =>
      if g !in m.groups || d !in m.devices then (m, Fail)
      else (m.(members := m.members[g := MembersOf(m.members, g) + {d}]), Done)
    case RemoveDevice(_, g, d) =>
      if g in m.members then (m.(members := m.members[g := m.members[g] - {d}]), Done) else (m, Done)
    case GroupDevices(org, g) => (m, DevicesFound(DevicesOf(m.devices, Listed(m, org, g))))
    case GroupHealth(org, g) =>
      (m, HealthFound(if g in m.groups then m.groups[g].name else "", CountHealth(m.devices, Listed(m, org, g))))
    case CreateInvitation(inv) => (m.(invitations := m.invitations[inv.id := inv]), Done)
    case DeleteInvitation(_, i) => (m.(invitations := m.invitations - {i}), Done)
    case Handshake(hash, d, hostname, version, key, now) =>
      MemEnroll(m, LookUpInvitation(m.invitations, hash, now), d, hostname, version, key)
  }

  // ---- PostgresStore ----

  // What a handshake does after the lookup.
  function PgEnroll(p: Tables, found: Result<Invitation, InvitationError>, d: Uuid, hostname: string, version: string,
                    key: seq<Byte>): (Tables, Answer)
  {
    if found.Err? then (p, Fail)
    else
      var inv, p1 := found.value, p.(invitations := ConsumeInPostgres(p.invitations, found.value.id));
      var dev := NewDevice(inv, d, hostname, version);
      if inv.org !in p.orgs || !CanInsertDevice(p1, dev) then (p1, Fail)
      else (InsertDevice(p1, dev, key), Enrolled(d, inv.org, p.orgs[inv.org], dev.status))
  }

  ghost function PgHandshake(p: Tables, hash: string, d: Uuid, hostname: string, version: string, key: seq<Byte>,
                            now: Time): (Tables, Answer)
  {
    PgEnroll(p, LookUpInvitation(p.invitations, hash, now), d, hostname, version, key)
  }

  function Did(ok: bool): Answer {
    if ok then Done else Fail
  }

  ghost function PgDo(p: Tables, c: Call): (Tables, Answer) {
    match c
    case SaveToken(x, t) => (Postgres.SaveToken(p, x, t), Did(CanSaveToken(p, x, t)))
    case GetToken(x, now) => (p, FindToken(p.tokens, x, now))
    case RevokeToken(x) => (p.(tokens := TokenRotation.RevokeIn(p.tokens, x)), Done)
    case ListDevices(org) => (p, DevicesFound(DevicesOf(p.devices, Matching(p.devices, p.devices.Keys, org))))
    case GetDevice(org, d) => (p, FindDevice(p.devices, org, d))
    case UpdateDeviceStatus(org, d, status) => (UpdateStatus(p, org, d, status), Did(HasDevice(p, org, d)))
    case RegisterDevice(d, key) => (InsertDevice(p, d, key), Did(CanInsertDevice(p, d)))
    case CreateGroup(g) => (InsertGroup(p, g), Did(CanInsertGroup(p, g)))
    case GetGroup(org, g) => (p, FindGroup(p.groups, org, g))
    case ListGroups(org) => (p, GroupsFound(GroupsOf(p.groups, org)))
    case UpdateGroup(org, g, edit) =>
      (Postgres.UpdateGroup(p, org, g, edit), Did(CanUpdateGroup(p, org, g, edit.name)))
    case DeleteGroup(org, g) => (Postgres.DeleteGroup(p, org, g), Did(HasGroup(p, org, g)))
    case AssignDevice(org, g, d) =>
      if HasGroup(p, org, g) && HasDevice(p, org, d) then (InsertMembership(p, g, d), Done) else (p, Fail)
    case RemoveDevice(org, g, d) => if HasGroup(p, org, g) then (DeleteMembership(p, g, d), Done) else (p, Fail)
    case GroupDevices(org, g) => (p, DevicesFound(DevicesOf(p.devices, MembersIn(p, org, g))))
    case GroupHealth(org, g) =>
      (p, if HasGroup(p, org, g) then HealthFound(p.groups[g].name, CountHealth(p.devices, Members(p, g))) else Fail)
    case CreateInvitation(inv) => (InsertInvitation(p, inv), Did(CanInsertInvitation(p, inv)))
    case DeleteInvitation(org, i) =>
      (Postgres.DeleteInvitation(p, org, i), Did(i in p.invitations && p.invitations[i].org == org))
    case Handshake(hash, d, hostname, version, key, now) => PgHandshake(p, hash, d, hostname, version, key, now)
  }

  // What the three counts are.
  lemma CountSpelt(devices: Devices, ds: set<Uuid>)
    ensures var h := CountHealth(devices, ds);
      && h.total == |ds| == h.online + h.offline
      && h.online == |set d | d in ds && d in devices && devices[d].status == ACTIVE|
  {
    assert ds == Online(devices, ds) + (ds - Online(devices, ds));
    assert Online(devices, ds) == set d | d in ds && d in devices && devices[d].status == ACTIVE;
  }

  // ---- Listings ----

  // The rows of the given ids, each once.
  ghost predicate Lists(result: seq<Device>, devices: Devices, ds: set<Uuid>) {
    |result| == |ds| && (set d | d in result) == DevicesOf(devices, ds)
  }

  lemma ListsExactly(result: seq<Device>, devices: Devices, ds: set<Uuid>)
    requires Lists(result, devices, ds)
    ensures forall x :: x in result <==> exists d :: d in ds && d in devices && x == devices[d]
  {
    forall x
      ensures x in result <==> x in DevicesOf(devices, ds)
    {
      assert x in result <==> x in set d | d in result;
    }
  }

  lemma ListsOneMore(result: seq<Device>, devices: Devices, ds: set<Uuid>, d: Uuid)
    requires Lists(result, devices, ds) && d !in ds && d in devices
    ensures Lists(result + [devices[d]], devices, ds + {d})
  {
    assert DevicesOf(devices, ds + {d}) == DevicesOf(devices, ds) + {devices[d]};
    var more := result + [devices[d]];
    forall x
      ensures x in more <==> x in result || x == devices[d]
    {
    }
    assert (set x | x in more) == (set x | x in result) + {devices[d]};
  }
  // The loop of ListGroups over the groups of the organization, in whatever order they come.
  method CollectGroups(groups: Groups, org: Uuid) returns (result: seq<Group>)
    ensures |result| == |set g | g in groups && groups[g].org == org|
    ensures forall x :: x in result <==> exists g :: g in groups && groups[g].org == org && x == groups[g]
    ensures (set x | x in result) == GroupsOf(groups, org)
  {
    result := [];
    var todo := set g | g in groups && groups[g].org == org;
    ghost var all := todo;
    while todo != {}
      invariant todo <= all && |result| + |todo| == |all|
      invariant forall x :: x in result <==> exists g :: g in all && g !in todo && x == groups[g]
      decreases todo
    {
      var g :| g in todo;
      result := result + [groups[g]];
      todo := todo - {g};
    }
    forall x
      ensures x in result <==> x in GroupsOf(groups, org)
    {
    }
  }
}
