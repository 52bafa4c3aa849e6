// The auth handlers as the program holds them, each running alone: every method is a run of the protocol in
// TokenRotation, so what is proved of all interleavings holds of these.
module AuthHandlers {
  import opened Common
  import opened TokenRotation

  datatype LoginResponse =
    | Unauthorized
    | MfaRequired(challenge: Jwt)
    | Issued(access: Jwt, refresh: Token)

  // The steps lead from s to s'.
  ghost predicate Leads(env: Checks, s: State, steps: seq<Step>, s': State)
    decreases |steps|
  {
    if steps == [] then s' == s
    else Enabled(env, s, steps[0]) && Leads(env, Apply(env, s, steps[0]), steps[1..], s')
  }

  lemma {:induction false} LeadsKeepsInv(env: Checks, s: State, steps: seq<Step>, s': State)
    requires Inv(env, s) && Leads(env, s, steps, s')
    ensures Inv(env, s')
    decreases |steps|
  {
    if steps != [] {
      StepKeepsInv(env, s, steps[0]);
      LeadsKeepsInv(env, Apply(env, s, steps[0]), steps[1..], s');
    }
  }

  lemma LeadsOne(env: Checks, s: State, e: Step, s': State)
    requires Enabled(env, s, e) && s' == Apply(env, s, e)
    ensures Leads(env, s, [e], s')
  {
    assert [e][1..] == [];
  }

  lemma LeadsOn(env: Checks, s: State, e: Step, rest: seq<Step>, s': State)
    requires Enabled(env, s, e) && Leads(env, Apply(env, s, e), rest, s')
    ensures Leads(env, s, [e] + rest, s')
  {
    assert ([e] + rest)[1..] == rest;
  }

  lemma LeadsTwo(env: Checks, s: State, e: Step, f: Step, s': State)
    requires Enabled(env, s, e) && Enabled(env, Apply(env, s, e), f) && s' == Apply(env, Apply(env, s, e), f)
    ensures Leads(env, s, [e, f], s')
  {
    LeadsOne(env, Apply(env, s, e), f, s');
    LeadsOn(env, s, e, [f], s');
    assert [e] + [f] == [e, f];
  }

  lemma LeadsThree(env: Checks, s: State, e: Step, f: Step, g: Step, rest: seq<Step>, s': State)
    requires Enabled(env, s, e) && Enabled(env, Apply(env, s, e), f)
    requires Enabled(env, Apply(env, Apply(env, s, e), f), g)
    requires Leads(env, Apply(env, Apply(env, Apply(env, s, e), f), g), rest, s')
    ensures Leads(env, s, [e, f, g] + rest, s')
  {
    LeadsOn(env, Apply(env, Apply(env, s, e), f), g, rest, s');
    LeadsOn(env, Apply(env, s, e), f, [g] + rest, s');
    LeadsOn(env, s, e, [f] + ([g] + rest), s');
    assert [e] + ([f] + ([g] + rest)) == [e, f, g] + rest;
  }

  function Spend(token: RefreshToken): RefreshToken {
    token.(revoked := true)
  }

  // The answer holds an access token for fifteen minutes and a refresh token, saved for seven days, of the user.
  ghost predicate Granted(r: LoginResponse, user: Uuid, org: Uuid, role: string, y: Token, now: Time,
                          tokens: map<Token, RefreshToken>, tokens': map<Token, RefreshToken>,
                          jwts: set<Jwt>, jwts': set<Jwt>) {
    && r.Issued? && r.refresh == y
    && r.access.user == user && r.access.role == role && r.access.expires == now + 15 * 60 * SECOND
    && tokens' == tokens[y := RefreshToken(user, org, now + 7 * 24 * 3600 * SECOND, false)]
    && jwts' == jwts + {r.access}
  }

  // `history`, `mintedAt` and the causes of the JWTs record why each token was issued.
  class AuthHandler {
    const checks: Checks
    var users: map<Uuid, User>
    var refreshTokens: map<Token, RefreshToken>
    var jwts: set<Jwt>
    var history: seq<Entry>
    var mintedAt: map<Token, nat>
    var failures: multiset<Token>

    // Between requests no request is in flight.
    function Protocol(): State
      reads this
    {
      State(users, refreshTokens, jwts, map[], history, mintedAt, failures)
    }

    ghost predicate Valid()
      reads this
    {
      Inv(checks, Protocol())
    }

    constructor (checks: Checks, users: map<Uuid, User>)
      ensures Valid() && Protocol() == Initial(users) && this.checks == checks
    {
      this.checks := checks;
      this.users := users;
      refreshTokens, jwts, history, mintedAt, failures := map[], {}, [], map[], multiset{};
    }

    // issueTokensAndRespond, after entry `cause` of the history; `y` is the random token string.
    method IssueTokens(user: Uuid, org: Uuid, role: string, y: Token, now: Time, cause: nat) returns (r: LoginResponse)
      requires y !in mintedAt
      modifies this`refreshTokens, this`jwts, this`history, this`mintedAt
      ensures r == Issued(Jwt(user, role, now + 15 * 60 * SECOND, cause), y) && jwts == old(jwts) + {r.access}
      ensures refreshTokens == old(refreshTokens)[y := RefreshToken(user, org, now + 7 * 24 * 3600 * SECOND, false)]
      ensures forall t: Tid ::
                Protocol() == Apply(checks, old(Protocol()).(threads := map[t := Issuing(user, org, cause)]),
                                    Mint(t, y, role, now))
    {
      var access := Jwt(user, role, now + ACCESS_TTL, cause);
      refreshTokens := refreshTokens[y := RefreshToken(user, org, now + REFRESH_TTL, false)];
      mintedAt := mintedAt[y := |history|];
      jwts := jwts + {access};
      history := history + [Minted(user, y, cause)];
      r := Issued(access, y);
    }

    method Login(user: Uuid, password: string, role: string, y: Token, now: Time) returns (r: LoginResponse)
      requires Valid() && y !in mintedAt
      modifies this
      ensures Valid()
      ensures r.Unauthorized? <==> user !in old(users) || !checks.password(password, old(users)[user].hash)
      ensures r.Unauthorized? ==> Protocol() == old(Protocol())
      ensures r.MfaRequired? ==> NeedsMfa(old(users)[user]) && r.challenge in jwts
                                 && Leads(checks, old(Protocol()), [TokenRotation.Login(0, user, password, now)],
                                           Protocol())
      ensures r.Issued? ==> !NeedsMfa(old(users)[user])
                            && Leads(checks, old(Protocol()),
                                     [TokenRotation.Login(0, user, password, now), Mint(0, y, role, now)], Protocol())
      ensures users == old(users)
      ensures r.MfaRequired? <==>
              user in users && checks.password(password, users[user].hash)
              && users[user].mfaEnabled && users[user].mfaSecret.Some?
      ensures r.MfaRequired? ==>
                && r.challenge.user == user && r.challenge.role == "MFA_CHALLENGE"
                && r.challenge.expires == now + 15 * 60 * SECOND
                && jwts == old(jwts) + {r.challenge} && refreshTokens == old(refreshTokens)
      ensures r.Issued? ==>
                Granted(r, user, users[user].org, role, y, now, old(refreshTokens), refreshTokens, old(jwts), jwts)
    {
      if user !in users {
        return Unauthorized;
      }
      var u := users[user];
      if !checks.password(password, u.hash) {
        return Unauthorized;
      }
      ghost var login := TokenRotation.Login(0, user, password, now);
      ghost var before := Protocol();
      var cause := |history|;
      history := history + [PasswordOk(user, u, password)];
      if u.mfaEnabled && u.mfaSecret.Some? {
        var challenge := Jwt(user, MFA_CHALLENGE, now + ACCESS_TTL, cause);
        jwts := jwts + {challenge};
        LeadsOne(checks, before, login, Protocol());
        LeadsKeepsInv(checks, before, [login], Protocol());
        return MfaRequired(challenge);
      }
      r := IssueTokens(user, u.org, role, y, now, cause);
      LeadsTwo(checks, before, login, Mint(0, y, role, now), Protocol());
      LeadsKeepsInv(checks, before, [login, Mint(0, y, role, now)], Protocol());
    }

    method VerifyMFA(jwt: Jwt, code: string, role: string, y: Token, now: Time) returns (r: LoginResponse)
      requires Valid() && y !in mintedAt
      modifies this
      ensures Valid()
      ensures r.Issued? <==> Enabled(checks, old(Protocol()), VerifyMfa(0, jwt, code, now))
      ensures !r.Issued? ==> r.Unauthorized? && Protocol() == old(Protocol())
      ensures r.Issued? ==>
                Leads(checks, old(Protocol()), [VerifyMfa(0, jwt, code, now), Mint(0, y, role, now)], Protocol())
      ensures users == old(users)
      ensures r.Issued? <==>
              && jwt in old(jwts) && now < jwt.expires && jwt.role == "MFA_CHALLENGE"
              && jwt.user in users && users[jwt.user].mfaSecret.Some?
              && checks.totp(users[jwt.user].mfaSecret.value, code, now)
      ensures r.Issued? ==> Granted(r, jwt.user, users[jwt.user].org, role, y, now,
                                    old(refreshTokens), refreshTokens, old(jwts), jwts)
    {
      if jwt !in jwts || now >= jwt.expires || jwt.role != MFA_CHALLENGE {
        return Unauthorized;
      }
      if jwt.user !in users || users[jwt.user].mfaSecret.None? {
        return Unauthorized;
      }
      var u := users[jwt.user];
      if !checks.totp(u.mfaSecret.value, code, now) {
        return Unauthorized;
      }
      ghost var verify := VerifyMfa(0, jwt, code, now);
      ghost var before := Protocol();
      var cause := |history|;
      history := history + [CodeOk(jwt.user, jwt.cause, u.mfaSecret.value, code, now)];
      r := IssueTokens(jwt.user, u.org, role, y, now, cause);
      LeadsTwo(checks, before, verify, Mint(0, y, role, now), Protocol());
      LeadsKeepsInv(checks, before, [verify, Mint(0, y, role, now)], Protocol());
    }

    // Lookup, revocation, the user, a new token. The old token is spent even when the user is gone.
    method Refresh(x: Token, role: string, y: Token, now: Time) returns (r: LoginResponse)
      requires Valid() && y !in mintedAt
      modifies this
      ensures Valid()
      ensures !Usable(old(refreshTokens), x, now) ==> r.Unauthorized? && Protocol() == old(Protocol())
      ensures Usable(old(refreshTokens), x, now) ==>
                var found := old(refreshTokens)[x].user in old(users);
                && (r.Issued? <==> found) && x in refreshTokens && refreshTokens[x].revoked
                && Leads(checks, old(Protocol()),
                         [LookUp(0, x, now), Revoke(0), LoadUser(0, found)]
                         + if found then [Mint(0, y, role, now)] else [],
                         Protocol())
      ensures users == old(users)
      ensures var found := x in old(refreshTokens) && !old(refreshTokens)[x].revoked
                           && now <= old(refreshTokens)[x].expires;
              && (r.Issued? <==> found && old(refreshTokens)[x].user in users)
              && (!r.Issued? ==> r.Unauthorized?)
              && (!found ==> refreshTokens == old(refreshTokens))
              && (found && !r.Issued? ==> refreshTokens == old(refreshTokens)[x := Spend(old(refreshTokens)[x])])
      ensures r.Issued? ==>
                var user := old(refreshTokens)[x].user;
                Granted(r, user, users[user].org, role, y, now,
                        old(refreshTokens)[x := Spend(old(refreshTokens)[x])], refreshTokens, old(jwts), jwts)
    {
      if !Usable(refreshTokens, x, now) {
        return Unauthorized;
      }
      var token := refreshTokens[x];
      ghost var before := Protocol();
      refreshTokens := refreshTokens[x := refreshTokens[x].(revoked := true)];
      if token.user !in users {
        LeadsThree(checks, before, LookUp(0, x, now), Revoke(0), LoadUser(0, false), [], Protocol());
        LeadsKeepsInv(checks, before, [LookUp(0, x, now), Revoke(0), LoadUser(0, false)] + [], Protocol());
        return Unauthorized;
      }
      var u := users[token.user];
      ghost var issuing := Protocol().(threads := map[0 := Issuing(token.user, u.org, mintedAt[x])]);
      r := IssueTokens(token.user, u.org, role, y, now, mintedAt[x]);
      LeadsOne(checks, issuing, Mint(0, y, role, now), Protocol());
      LeadsThree(checks, before, LookUp(0, x, now), Revoke(0), LoadUser(0, true), [Mint(0, y, role, now)], Protocol());
      LeadsKeepsInv(checks, before, [LookUp(0, x, now), Revoke(0), LoadUser(0, true)] + [Mint(0, y, role, now)],
                    Protocol());
    }

    method Logout(x: Token)
      requires Valid()
      modifies this
      ensures Valid() && Leads(checks, old(Protocol()), [TokenRotation.Logout(x)], Protocol())
      ensures refreshTokens == if x in old(refreshTokens) then old(refreshTokens)[x := Spend(old(refreshTokens)[x])]
                               else old(refreshTokens)
      ensures jwts == old(jwts) && users == old(users)
    {
      LeadsOne(checks, Protocol(), TokenRotation.Logout(x), Apply(checks, Protocol(), TokenRotation.Logout(x)));
      StepKeepsInv(checks, Protocol(), TokenRotation.Logout(x));
      if x in refreshTokens {
        refreshTokens := refreshTokens[x := refreshTokens[x].(revoked := true)];
      }
    }
  }
}
