// The records of the API service that both stores keep, and the operations that are the same on both.
module Records {
  import opened Common

  datatype Status = PENDING | ACTIVE | OFFLINE | DISABLED | REVOKED | REMOVED

  datatype Device = Device(id: Uuid, org: Uuid, hostname: string, agentVersion: string, status: Status)

  // The policy overrides are the JSON object of a request.
  datatype Group = Group(
    id: Uuid,
    org: Uuid,
    parent: Option<Uuid>,
    name: string,
    description: Option<string>,
    policies: Option<string>)

  // What UpdateGroup is given.
  datatype Edit = Edit(name: string, description: Option<string>, policies: Option<string>)

  datatype Invitation = Invitation(
    id: Uuid,
    org: Uuid,
    tokenHash: string,
    target: Option<Uuid>,
    requiresApproval: bool,
    maxUses: int,
    timesUsed: int,
    expires: Time)

  datatype Health = Health(total: nat, online: nat, offline: nat)

  datatype InvitationError = NotFound | TokenExpired | TokenExhausted

  type Devices = map<Uuid, Device>
  type Groups = map<Uuid, Group>
  type Invitations = map<Uuid, Invitation>

  // What a lookup makes of the invitation it found.
  function Judge(inv: Invitation, now: Time): Result<Invitation, InvitationError> {
    if now > inv.expires then Err(TokenExpired)
    else if inv.timesUsed >= inv.maxUses then Err(TokenExhausted)
    else Ok(inv)
  }

  predicate HashTaken(invitations: Invitations, hash: string) {
    exists i :: i in invitations && invitations[i].tokenHash == hash
  }

  ghost predicate UniqueHashes(invitations: Invitations) {
    forall i, j :: (i in invitations && j in invitations
                    && invitations[i].tokenHash == invitations[j].tokenHash) ==> i == j
  }

  // The answer to a lookup, spelt out: an invitation with the hash that is in time and not used up, or the reason why
  // one with the hash is refused, or none with the hash.
  ghost predicate Answers(invitations: Invitations, hash: string, now: Time, r: Result<Invitation, InvitationError>) {
    match r
    case Ok(inv) =>
      exists i :: i in invitations && invitations[i] == inv && Admits(inv, hash, now)
    case Err(TokenExpired) =>
      exists i :: i in invitations && invitations[i].tokenHash == hash && now > invitations[i].expires
    case Err(TokenExhausted) =>
      exists i :: i in invitations && invitations[i].tokenHash == hash && now <= invitations[i].expires
                  && invitations[i].timesUsed >= invitations[i].maxUses
    case Err(NotFound) => forall i :: i in invitations ==> invitations[i].tokenHash != hash
  }

  // The token of the invitation was presented in time, before the invitation was used up.
  predicate Admits(inv: Invitation, hash: string, now: Time) {
    inv.tokenHash == hash && now <= inv.expires && inv.timesUsed < inv.maxUses
  }

  // Token hashes are unique, so at most one invitation qualifies.
  ghost function LookUpInvitation(invitations: Invitations, hash: string, now: Time)
    : Result<Invitation, InvitationError>
  {
    if HashTaken(invitations, hash)
    then var i :| i in invitations && invitations[i].tokenHash == hash; Judge(invitations[i], now)
    else Err(NotFound)
  }

  // What a search that stops at the first match may find: any invitation with the hash decides.
  ghost predicate MayFind(invitations: Invitations, hash: string, now: Time, r: Result<Invitation, InvitationError>) {
    if HashTaken(invitations, hash)
    then exists i :: i in invitations && invitations[i].tokenHash == hash && r == Judge(invitations[i], now)
    else r == Err(NotFound)
  }

  function UsedOnceMore(inv: Invitation): Invitation {
    inv.(timesUsed := inv.timesUsed + 1)
  }

  // MemoryStore counts every use; PostgresStore refuses to count past the limit.
  function ConsumeInMemory(invitations: Invitations, i: Uuid): Invitations {
    if i in invitations then invitations[i := UsedOnceMore(invitations[i])] else invitations
  }

  function ConsumeInPostgres(invitations: Invitations, i: Uuid): Invitations {
    if i in invitations && invitations[i].timesUsed < invitations[i].maxUses
    then ConsumeInMemory(invitations, i)
    else invitations
  }

  // The limits CreateInvitation puts on a request.
  method ClampRequest(expiresInHours: int, maxUses: int) returns (hours: int, uses: int)
    ensures 1 <= hours <= 168 && 1 <= uses
    ensures 1 <= expiresInHours <= 168 ==> hours == expiresInHours
    ensures expiresInHours <= 0 ==> hours == 24
    ensures expiresInHours > 168 ==> hours == 168
    ensures uses == if maxUses <= 0 then 1 else maxUses
  {
    hours, uses := expiresInHours, maxUses;
    if hours <= 0 {
      hours := 24;
    }
    if hours > 168 {
      hours := 168;
    }
    if uses <= 0 {
      uses := 1;
    }
  }
}
