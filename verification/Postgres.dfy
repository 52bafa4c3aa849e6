// The PostgreSQL tables behind PostgresStore and the effect of each statement on them,
// with the foreign keys, cascades and unique constraints of the schema.
module Postgres {
  import opened Common
  import opened Records
  import TokenRotation

  type Token = TokenRotation.Token
  type RefreshToken = TokenRotation.RefreshToken

  datatype Tables = Tables(
    orgs: map<Uuid, string>,
    users: set<Uuid>,
    tokens: map<Token, RefreshToken>,
    devices: Devices,
    creds: map<Uuid, seq<Byte>>,
    groups: Groups,
    memberships: set<(Uuid, Uuid)>,   // (group, device)
    invitations: Invitations)

  // What the schema enforces in every state.
  ghost predicate ForeignKeys(p: Tables) {
    && (forall d :: d in p.devices ==> p.devices[d].id == d && p.devices[d].org in p.orgs)
    && (forall d :: d in p.creds ==> d in p.devices)
    && (forall g :: g in p.groups ==>
          p.groups[g].id == g && p.groups[g].org in p.orgs
          && (p.groups[g].parent.Some? ==> p.groups[g].parent.value in p.groups))
    && (forall m :: m in p.memberships ==> m.0 in p.groups && m.1 in p.devices)
    && (forall i :: i in p.invitations ==>
          p.invitations[i].id == i && p.invitations[i].org in p.orgs
          && (p.invitations[i].target.Some? ==> p.invitations[i].target.value in p.groups))
    && (forall x :: x in p.tokens ==> p.tokens[x].user in p.users && p.tokens[x].org in p.orgs)
  }

  ghost predicate UniqueKeys(p: Tables) {
    && (forall g, g' :: (g in p.groups && g' in p.groups && p.groups[g].org == p.groups[g'].org
                         && p.groups[g].name == p.groups[g'].name) ==> g == g')
    && UniqueHashes(p.invitations)
  }

  // Every membership row links a group and a device of one organization.
  ghost predicate SameOrg(p: Tables) {
    forall m :: m in p.memberships ==>
      m.0 in p.groups && m.1 in p.devices && p.groups[m.0].org == p.devices[m.1].org
  }

  // ---- Refresh tokens ----

  // INSERT ... ON CONFLICT (token) DO UPDATE SET revoked: an existing row changes in nothing else.
  predicate CanSaveToken(p: Tables, x: Token, t: RefreshToken) {
    x in p.tokens || (t.user in p.users && t.org in p.orgs)
  }

  function SaveToken(p: Tables, x: Token, t: RefreshToken): Tables {
    if x in p.tokens then p.(tokens := p.tokens[x := p.tokens[x].(revoked := t.revoked)])
    else if CanSaveToken(p, x, t) then p.(tokens := p.tokens[x := t])
    else p
  }

  // ---- Groups ----

  predicate NameTaken(groups: Groups, org: Uuid, name: string, self: Uuid) {
    exists g :: g in groups && g != self && groups[g].org == org && groups[g].name == name
  }

  // A row may name itself as its parent: the foreign key is checked after the insertion.
  predicate CanInsertGroup(p: Tables, g: Group) {
    && g.id !in p.groups
    && g.org in p.orgs
    && (g.parent.Some? ==> g.parent.value in p.groups || g.parent.value == g.id)
    && !NameTaken(p.groups, g.org, g.name, g.id)
  }

  function InsertGroup(p: Tables, g: Group): Tables {
    if CanInsertGroup(p, g) then p.(groups := p.groups[g.id := g]) else p
  }

  predicate HasGroup(p: Tables, org: Uuid, g: Uuid) {
    g in p.groups && p.groups[g].org == org
  }

  predicate CanUpdateGroup(p: Tables, org: Uuid, g: Uuid, name: string) {
    HasGroup(p, org, g) && !NameTaken(p.groups, org, name, g)
  }

  // UPDATE ... SET name, description, policy_overrides: empty or not.
  function Overwritten(g: Group, edit: Edit): Group {
    g.(name := edit.name, description := edit.description, policies := edit.policies)
  }

  function UpdateGroup(p: Tables, org: Uuid, g: Uuid, edit: Edit): Tables {
    if CanUpdateGroup(p, org, g, edit.name) then p.(groups := p.groups[g := Overwritten(p.groups[g], edit)]) else p
  }

  // ON DELETE CASCADE on parent_group_id: the rows found so far, their children, and so on.
  function Cascade(groups: Groups, found: set<Uuid>): set<Uuid>
    decreases groups.Keys - found
  {
    var more := set g | g in groups && g !in found && groups[g].parent.Some? && groups[g].parent.value in found;
    if more == {} then found
    else
      assert groups.Keys - (found + more) < groups.Keys - found by {
        var g :| g in more;
        assert g in groups.Keys - found;
      }
      Cascade(groups, found + more)
  }

  // Deleting rows of device_groups: memberships go with them, invitations lose their target.
  function DropGroups(p: Tables, gone: set<Uuid>): Tables {
    p.(groups := p.groups - gone,
       memberships := (set m | m in p.memberships && m.0 !in gone),
       invitations := (map i | i in p.invitations :: Untarget(p.invitations[i], gone)))
  }

  function Untarget(inv: Invitation, gone: set<Uuid>): Invitation {
    if inv.target.Some? && inv.target.value in gone then inv.(target := None) else inv
  }

  function DeleteGroup(p: Tables, org: Uuid, g: Uuid): Tables {
    if HasGroup(p, org, g) then DropGroups(p, Cascade(p.groups, {g})) else p
  }

  // ---- Devices and memberships ----

  predicate CanInsertDevice(p: Tables, d: Device) {
    d.id !in p.devices && d.id !in p.creds && d.org in p.orgs
  }

  // One transaction: the device row and its credential row, or neither.
  function InsertDevice(p: Tables, d: Device, key: seq<Byte>): Tables {
    if CanInsertDevice(p, d) then p.(devices := p.devices[d.id := d], creds := p.creds[d.id := key]) else p
  }

  predicate HasDevice(p: Tables, org: Uuid, d: Uuid) {
    d in p.devices && p.devices[d].org == org
  }

  function UpdateStatus(p: Tables, org: Uuid, d: Uuid, status: Status): Tables {
    if HasDevice(p, org, d) then p.(devices := p.devices[d := p.devices[d].(status := status)]) else p
  }

  // INSERT ... ON CONFLICT DO NOTHING, refused when a foreign key fails.
  function InsertMembership(p: Tables, g: Uuid, d: Uuid): Tables {
    if g in p.groups && d in p.devices then p.(memberships := p.memberships + {(g, d)}) else p
  }

  function DeleteMembership(p: Tables, g: Uuid, d: Uuid): Tables {
    p.(memberships := p.memberships - {(g, d)})
  }

  // The join of devices and group_memberships, with and without the filter on the organization.
  function Members(p: Tables, g: Uuid): set<Uuid> {
    set d | d in p.devices && (g, d) in p.memberships
  }

  function MembersIn(p: Tables, org: Uuid, g: Uuid): set<Uuid> {
    set d | d in p.devices && (g, d) in p.memberships && p.devices[d].org == org
  }

  function Online(devices: Devices, ds: set<Uuid>): set<Uuid> {
    set d | d in ds && d in devices && devices[d].status == ACTIVE
  }

  // COUNT(*) and the two COUNT(*) FILTER of GetGroupHealthSummary.
  function CountHealth(devices: Devices, ds: set<Uuid>): Health {
    Health(|ds|, |Online(devices, ds)|, |ds - Online(devices, ds)|)
  }

  // ---- Invitations ----

  predicate CanInsertInvitation(p: Tables, inv: Invitation) {
    && inv.id !in p.invitations
    && inv.org in p.orgs
    && (inv.target.Some? ==> inv.target.value in p.groups)
    && !HashTaken(p.invitations, inv.tokenHash)
  }

  function InsertInvitation(p: Tables, inv: Invitation): Tables {
    if CanInsertInvitation(p, inv) then p.(invitations := p.invitations[inv.id := inv]) else p
  }

  function DeleteInvitation(p: Tables, org: Uuid, i: Uuid): Tables {
    if i in p.invitations && p.invitations[i].org == org then p.(invitations := p.invitations - {i}) else p
  }
}
