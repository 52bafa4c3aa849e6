// The hierarchy of device groups: the cascade of a deletion removes exactly a subtree.
module GroupHierarchy {
  import opened Common
  import opened Records
  import opened Postgres

  // n parent links up from g.
  function Up(groups: Groups, g: Uuid, n: nat): Option<Uuid>
    decreases n
  {
    if n == 0 then Some(g)
    else if g in groups && groups[g].parent.Some? then Up(groups, groups[g].parent.value, n - 1)
    else None
  }

  // g is root or a descendant of root.
  ghost predicate Under(groups: Groups, root: Uuid, g: Uuid) {
    exists n: nat :: Up(groups, g, n) == Some(root)
  }

  lemma UnderChild(groups: Groups, root: Uuid, g: Uuid)
    requires g in groups && groups[g].parent.Some? && Under(groups, root, groups[g].parent.value)
    ensures Under(groups, root, g)
  {
    var n: nat :| Up(groups, groups[g].parent.value, n) == Some(root);
    assert Up(groups, g, n + 1) == Some(root);
  }

  lemma {:induction false} CascadeSound(groups: Groups, found: set<Uuid>, root: Uuid)
    requires forall g :: g in found ==> Under(groups, root, g)
    ensures forall g :: g in Cascade(groups, found) ==> Under(groups, root, g)
    decreases groups.Keys - found
  {
    var more := set g | g in groups && g !in found && groups[g].parent.Some? && groups[g].parent.value in found;
    if more != {} {
      forall g | g in more
        ensures Under(groups, root, g)
      {
        UnderChild(groups, root, g);
      }
      var g :| g in more;
      assert g in groups.Keys - found;
      CascadeSound(groups, found + more, root);
    }
  }

  lemma {:induction false} CascadeClosed(groups: Groups, found: set<Uuid>)
    ensures found <= Cascade(groups, found)
    ensures Cascade(groups, found) <= found + groups.Keys
    ensures forall g :: g in groups && groups[g].parent.Some? && groups[g].parent.value in Cascade(groups, found) ==>
              g in Cascade(groups, found)
    decreases groups.Keys - found
  {
    var more := set g | g in groups && g !in found && groups[g].parent.Some? && groups[g].parent.value in found;
    if more != {} {
      var g :| g in more;
      assert g in groups.Keys - found;
      CascadeClosed(groups, found + more);
    } else {
      forall g | g in groups && groups[g].parent.Some? && groups[g].parent.value in found
        ensures g in found
      {
        assert g !in more;
      }
    }
  }

  lemma {:induction false} CascadeComplete(groups: Groups, root: Uuid, g: Uuid, n: nat)
    requires Up(groups, g, n) == Some(root)
    ensures g in Cascade(groups, {root})
    decreases n
  {
    CascadeClosed(groups, {root});
    if n > 0 { CascadeComplete(groups, root, groups[g].parent.value, n - 1); }
  }

  // The cascade from a row reaches exactly its subtree.
  lemma CascadeIsSubtree(groups: Groups, root: Uuid)
    ensures forall g :: g in Cascade(groups, {root}) <==> Under(groups, root, g)
  {
    assert Up(groups, root, 0) == Some(root);
    CascadeSound(groups, {root}, root);
    forall g | Under(groups, root, g)
      ensures g in Cascade(groups, {root})
    {
      var n: nat :| Up(groups, g, n) == Some(root);
      CascadeComplete(groups, root, g, n);
    }
  }

  // DELETE FROM device_groups with its cascades: exactly the subtree goes, with its memberships; invitations aimed
  // at it lose their target; devices and everything else stay as they are; no reference is left dangling.
  lemma DeleteRemovesSubtree(p: Tables, org: Uuid, root: Uuid)
    requires ForeignKeys(p) && HasGroup(p, org, root)
    ensures var p' := DeleteGroup(p, org, root);
      && (forall g :: g in p'.groups <==> g in p.groups && !Under(p.groups, root, g))
      && (forall g :: g in p'.groups ==> p'.groups[g] == p.groups[g])
      && (forall m :: m in p'.memberships <==> m in p.memberships && !Under(p.groups, root, m.0))
      && p'.devices == p.devices && p'.creds == p.creds && p'.tokens == p.tokens
      && p'.invitations.Keys == p.invitations.Keys
      && (forall i :: i in p.invitations ==>
            var inv := p.invitations[i];
            p'.invitations[i] == if inv.target.Some? && Under(p.groups, root, inv.target.value)
                                 then inv.(target := None) else inv)
      && ForeignKeys(p')
  {
    CascadeIsSubtree(p.groups, root);
    CascadeClosed(p.groups, {root});
    var gone := Cascade(p.groups, {root});
    var p' := DropGroups(p, gone);
    forall g | g in p'.groups && p'.groups[g].parent.Some?
      ensures p'.groups[g].parent.value in p'.groups
    {
      assert g in p.groups && g !in gone;
    }
    forall i | i in p'.invitations
      ensures p'.invitations[i].id == i && p'.invitations[i].org in p'.orgs
      ensures p'.invitations[i].target.Some? ==> p'.invitations[i].target.value in p'.groups
    {
      assert p'.invitations[i] == Untarget(p.invitations[i], gone);
    }
  }

  // ---- Forests ----

  // Every parent is older than its children.
  ghost predicate Ranked(groups: Groups, rank: map<Uuid, nat>) {
    forall g :: g in groups ==>
      g in rank && (groups[g].parent.Some? ==>
                      groups[g].parent.value in groups && groups[g].parent.value in rank
                      && rank[groups[g].parent.value] < rank[g])
  }

  predicate IsRoot(groups: Groups, g: Uuid) {
    g in groups && groups[g].parent.None?
  }

  ghost predicate WalkEnds(groups: Groups, g: Uuid) {
    exists n: nat, r :: Up(groups, g, n) == Some(r) && IsRoot(groups, r)
  }

  ghost predicate NotAboveItself(groups: Groups, g: Uuid) {
    forall n: nat :: Up(groups, g, n) == Some(g) ==> n == 0
  }

  // The parent walk ends at a root, and no group is above itself.
  ghost predicate Forest(groups: Groups) {
    forall g :: g in groups ==> WalkEnds(groups, g) && NotAboveItself(groups, g)
  }

  lemma {:induction false} RankedWalk(groups: Groups, rank: map<Uuid, nat>, g: Uuid) returns (n: nat, r: Uuid)
    requires Ranked(groups, rank) && g in groups
    ensures Up(groups, g, n) == Some(r) && IsRoot(groups, r)
    decreases rank[g]
  {
    if groups[g].parent.None? {
      n, r := 0, g;
    } else {
      n, r := RankedWalk(groups, rank, groups[g].parent.value);
      n := n + 1;
    }
  }

  lemma {:induction false} RankedUp(groups: Groups, rank: map<Uuid, nat>, g: Uuid, n: nat)
    requires Ranked(groups, rank) && g in groups && Up(groups, g, n).Some?
    ensures var a := Up(groups, g, n).value; a in groups && a in rank && rank[a] + n <= rank[g]
    decreases n
  {
    if n > 0 { RankedUp(groups, rank, groups[g].parent.value, n - 1); }
  }

  lemma RankedIsForest(groups: Groups, rank: map<Uuid, nat>)
    requires Ranked(groups, rank)
    ensures Forest(groups)
  {
    forall g | g in groups
      ensures WalkEnds(groups, g) && NotAboveItself(groups, g)
    {
      var n, r := RankedWalk(groups, rank, g);
      forall m: nat | Up(groups, g, m) == Some(g)
        ensures m == 0
      {
        RankedUp(groups, rank, g, m);
      }
    }
  }
}
