// What the schema enforces, and the checks before an assignment add, holds after every statement.
module TableProofs {
  import opened Common
  import opened Records
  import opened Postgres
  import opened GroupHierarchy
  import TokenRotation

  ghost predicate TablesOk(p: Tables) {
    ForeignKeys(p) && UniqueKeys(p) && SameOrg(p)
  }

  lemma TokensReplaced(p: Tables, tokens: map<Token, RefreshToken>)
    requires TablesOk(p) && forall x :: x in tokens ==> tokens[x].user in p.users && tokens[x].org in p.orgs
    ensures TablesOk(p.(tokens := tokens))
  {
  }

  lemma SaveTokenKeeps(p: Tables, x: Token, t: RefreshToken)
    requires TablesOk(p)
    ensures TablesOk(SaveToken(p, x, t))
  {
    if x in p.tokens {
      TokensReplaced(p, p.tokens[x := p.tokens[x].(revoked := t.revoked)]);
    } else if CanSaveToken(p, x, t) {
      TokensReplaced(p, p.tokens[x := t]);
    }
  }

  lemma RevokeKeeps(p: Tables, x: Token)
    requires TablesOk(p)
    ensures TablesOk(p.(tokens := TokenRotation.RevokeIn(p.tokens, x)))
  {
    TokensReplaced(p, TokenRotation.RevokeIn(p.tokens, x));
  }

  lemma InsertGroupKeeps(p: Tables, g: Group)
    requires TablesOk(p)
    ensures TablesOk(InsertGroup(p, g))
  {
    if CanInsertGroup(p, g) {
      InsertedName(p, g);
      InsertedKeys(p, g);
    }
  }

  lemma InsertedName(p: Tables, g: Group)
    requires UniqueKeys(p) && CanInsertGroup(p, g)
    ensures UniqueKeys(InsertGroup(p, g))
  {
  }

  lemma InsertedKeys(p: Tables, g: Group)
    requires ForeignKeys(p) && SameOrg(p) && CanInsertGroup(p, g)
    ensures ForeignKeys(InsertGroup(p, g)) && SameOrg(InsertGroup(p, g))
  {
  }

  lemma UpdateGroupKeeps(p: Tables, org: Uuid, g: Uuid, edit: Edit)
    requires TablesOk(p)
    ensures TablesOk(UpdateGroup(p, org, g, edit))
  {
  }

  lemma DeleteGroupKeeps(p: Tables, org: Uuid, g: Uuid)
    requires TablesOk(p)
    ensures TablesOk(DeleteGroup(p, org, g))
  {
    if HasGroup(p, org, g) {
      DeleteRemovesSubtree(p, org, g);
      DroppedStayUnique(p, Cascade(p.groups, {g}));
    }
  }

  lemma DroppedStayUnique(p: Tables, gone: set<Uuid>)
    requires UniqueKeys(p) && SameOrg(p)
    ensures UniqueKeys(DropGroups(p, gone)) && SameOrg(DropGroups(p, gone))
  {
  }

  lemma InsertDeviceKeeps(p: Tables, d: Device, key: seq<Byte>)
    requires TablesOk(p)
    ensures TablesOk(InsertDevice(p, d, key))
  {
  }

  lemma UpdateStatusKeeps(p: Tables, org: Uuid, d: Uuid, status: Status)
    requires TablesOk(p)
    ensures TablesOk(UpdateStatus(p, org, d, status))
  {
  }

  // The foreign keys alone allow a membership across organizations; the checks made before it do not.
  lemma InsertMembershipKeeps(p: Tables, g: Uuid, d: Uuid)
    requires TablesOk(p) && (g in p.groups && d in p.devices ==> p.groups[g].org == p.devices[d].org)
    ensures TablesOk(InsertMembership(p, g, d))
  {
  }

  lemma DeleteMembershipKeeps(p: Tables, g: Uuid, d: Uuid)
    requires TablesOk(p)
    ensures TablesOk(DeleteMembership(p, g, d))
  {
  }

  lemma InsertInvitationKeeps(p: Tables, inv: Invitation)
    requires TablesOk(p)
    ensures TablesOk(InsertInvitation(p, inv))
  {
  }

  lemma ConsumeKeeps(p: Tables, i: Uuid)
    requires TablesOk(p)
    ensures TablesOk(p.(invitations := ConsumeInPostgres(p.invitations, i)))
  {
  }

  lemma DeleteInvitationKeeps(p: Tables, org: Uuid, i: Uuid)
    requires TablesOk(p)
    ensures TablesOk(DeleteInvitation(p, org, i))
  {
  }

  // ---- Health counts ----

  // All members of a group belong to its organization.
  lemma AllOwnMembers(p: Tables, org: Uuid, g: Uuid)
    requires SameOrg(p) && (g in p.groups ==> p.groups[g].org == org)
    ensures Members(p, g) == MembersIn(p, org, g)
  {
    forall d | d in Members(p, g)
      ensures d in MembersIn(p, org, g)
    {
      assert (g, d) in p.memberships;
    }
  }

  lemma HealthAddsUp(devices: Devices, ds: set<Uuid>)
    ensures var h := CountHealth(devices, ds); h.total == h.online + h.offline
  {
    assert ds == Online(devices, ds) + (ds - Online(devices, ds));
  }
}
