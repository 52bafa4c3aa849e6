// Login, MFA, refresh and logout over the refresh-token table. Each store call is one atomic step and any
// number of requests interleave; a call that fails, its error ignored by the handler, is a step too. `history`
// records why every token was issued.
module TokenRotation {
  import opened Common

  type Tid = nat

  // A refresh token string; the generator never repeats one.
  type Token = nat

  datatype User = User(org: Uuid, hash: string, mfaEnabled: bool, mfaSecret: Option<string>)

  datatype RefreshToken = RefreshToken(user: Uuid, org: Uuid, expires: Time, revoked: bool)

  // Password and TOTP verification, whatever they are.
  datatype Checks = Checks(password: (string, string) -> bool, totp: (string, string, Time) -> bool)

  // An issued JWT. The signature makes it unforgeable: only members of `State.jwts` are accepted.
  datatype Jwt = Jwt(user: Uuid, role: string, expires: Time, cause: nat)

  const MFA_CHALLENGE := "MFA_CHALLENGE"
  const ACCESS_TTL: Time := 15 * 60 * SECOND
  const REFRESH_TTL: Time := 7 * 24 * 60 * 60 * SECOND

  // `via` and `cause` are positions of earlier entries.
  datatype Entry =
    | PasswordOk(user: Uuid, record: User, password: string)
    | CodeOk(user: Uuid, via: nat, secret: string, code: string, at: Time)
    | Minted(user: Uuid, token: Token, cause: nat)

  datatype Pc =
    | Found(x: Token, user: Uuid)     // Refresh, GetRefreshToken succeeded
    | Rotated(x: Token, user: Uuid)   // Refresh, RevokeRefreshToken done, or failed and the error ignored
    | Issuing(user: Uuid, org: Uuid, cause: nat)  // issueTokensAndRespond, SaveRefreshToken still to come

  datatype State = State(
    users: map<Uuid, User>,
    tokens: map<Token, RefreshToken>,
    jwts: set<Jwt>,
    threads: map<Tid, Pc>,
    history: seq<Entry>,
    mintedAt: map<Token, nat>,
    failures: multiset<Token>)   // the revocations that failed

  datatype Step =
    | Login(t: Tid, user: Uuid, password: string, at: Time)
    | VerifyMfa(t: Tid, jwt: Jwt, code: string, at: Time)
    | LookUp(t: Tid, x: Token, at: Time)
    | Revoke(t: Tid)
    | RevokeFails(t: Tid)
    | LoadUser(t: Tid, found: bool)
    | Mint(t: Tid, y: Token, role: string, at: Time)
    | SaveFails(t: Tid, role: string, at: Time)
    | Logout(x: Token)
    | SetUser(user: Uuid, record: User)

  function Initial(users: map<Uuid, User>): State {
    State(users, map[], {}, map[], [], map[], multiset{})
  }

  // GetRefreshToken of both stores: the row exists, is not revoked and has not expired.
  predicate Usable(tokens: map<Token, RefreshToken>, x: Token, now: Time) {
    x in tokens && !tokens[x].revoked && now <= tokens[x].expires
  }

  function RevokeIn(tokens: map<Token, RefreshToken>, x: Token): map<Token, RefreshToken> {
    if x in tokens then tokens[x := tokens[x].(revoked := true)] else tokens
  }

  predicate NeedsMfa(u: User) {
    u.mfaEnabled && u.mfaSecret.Some?
  }

  predicate Enabled(env: Checks, s: State, e: Step) {
    match e
    case Login(t, u, password, _) => t !in s.threads && u in s.users && env.password(password, s.users[u].hash)
    case VerifyMfa(t, jwt, code, at) =>
      t !in s.threads && jwt in s.jwts && jwt.role == MFA_CHALLENGE && at < jwt.expires
      && jwt.user in s.users && s.users[jwt.user].mfaSecret.Some?
      && env.totp(s.users[jwt.user].mfaSecret.value, code, at)
    case LookUp(t, x, at) => t !in s.threads && Usable(s.tokens, x, at)
    case Revoke(t) => t in s.threads && s.threads[t].Found?
    case RevokeFails(t) => t in s.threads && s.threads[t].Found?
    case LoadUser(t, found) => t in s.threads && s.threads[t].Rotated? && (found ==> s.threads[t].user in s.users)
    case Mint(t, y, _, _) => t in s.threads && s.threads[t].Issuing? && y !in s.mintedAt
    case SaveFails(t, _, _) => t in s.threads && s.threads[t].Issuing?
    case Logout(_) => true
    case SetUser(_, _) => true
  }

  function Apply(env: Checks, s: State, e: Step): State
    requires Enabled(env, s, e)
  {
    var n := |s.history|;
    match e
    case Login(t, u, password, at) =>
      var s' := s.(history := s.history + [PasswordOk(u, s.users[u], password)]);
      if NeedsMfa(s.users[u])
      then s'.(jwts := s.jwts + {Jwt(u, MFA_CHALLENGE, at + ACCESS_TTL, n)})
      else s'.(threads := s.threads[t := Issuing(u, s.users[u].org, n)])
    case VerifyMfa(t, jwt, code, at) =>
      var u := s.users[jwt.user];
      s.(history := s.history + [CodeOk(jwt.user, jwt.cause, u.mfaSecret.value, code, at)],
         threads := s.threads[t := Issuing(jwt.user, u.org, n)])
    case LookUp(t, x, _) => s.(threads := s.threads[t := Found(x, s.tokens[x].user)])
    case Revoke(t) =>
      var pc := s.threads[t];
      s.(tokens := RevokeIn(s.tokens, pc.x), threads := s.threads[t := Rotated(pc.x, pc.user)])
    case RevokeFails(t) =>
      var pc := s.threads[t];
      s.(failures := s.failures + multiset{pc.x}, threads := s.threads[t := Rotated(pc.x, pc.user)])
    case LoadUser(t, found) =>
      var pc := s.threads[t];
      if found && pc.x in s.mintedAt
      then s.(threads := s.threads[t := Issuing(pc.user, s.users[pc.user].org, s.mintedAt[pc.x])])
      else s.(threads := s.threads - {t})
    case Mint(t, y, role, at) =>
      var pc := s.threads[t];
      s.(tokens := s.tokens[y := RefreshToken(pc.user, pc.org, at + REFRESH_TTL, false)],
         jwts := s.jwts + {Jwt(pc.user, role, at + ACCESS_TTL, pc.cause)},
         history := s.history + [Minted(pc.user, y, pc.cause)],
         mintedAt := s.mintedAt[y := n],
         threads := s.threads - {t})
    case SaveFails(t, role, at) =>
      var pc := s.threads[t];
      s.(jwts := s.jwts + {Jwt(pc.user, role, at + ACCESS_TTL, pc.cause)}, threads := s.threads - {t})
    case Logout(x) => s.(tokens := RevokeIn(s.tokens, x))
    case SetUser(u, record) => s.(users := s.users[u := record])
  }

  ghost predicate Run(env: Checks, states: seq<State>, steps: seq<Step>) {
    && |states| == |steps| + 1
    && (exists users :: states[0] == Initial(users))
    && (forall i :: 0 <= i < |steps| ==> StepAt(env, states, steps, i))
  }

  ghost predicate StepAt(env: Checks, states: seq<State>, steps: seq<Step>, i: nat)
    requires i < |steps| && |states| == |steps| + 1
  {
    Next(env, states[i], steps[i], states[i + 1])
  }

  predicate Next(env: Checks, s: State, e: Step, s': State) {
    Enabled(env, s, e) && s' == Apply(env, s, e)
  }

  // ---- Why a token was issued ----

  // The password check at the origin of entry i.
  function Root(h: seq<Entry>, i: nat): nat
    decreases i
  {
    if i < |h| && h[i].CodeOk? && h[i].via < i then Root(h, h[i].via)
    else if i < |h| && h[i].Minted? && h[i].cause < i then Root(h, h[i].cause)
    else i
  }

  // Entry k is entry i or one of the entries that led to it.
  predicate Ancestor(h: seq<Entry>, i: nat, k: nat)
    decreases i
  {
    k == i
    || (i < |h| && h[i].CodeOk? && h[i].via < i && Ancestor(h, h[i].via, k))
    || (i < |h| && h[i].Minted? && h[i].cause < i && Ancestor(h, h[i].cause, k))
  }

  predicate HasCode(h: seq<Entry>, i: nat)
    decreases i
  {
    i < |h| && (h[i].CodeOk? || (h[i].Minted? && h[i].cause < i && HasCode(h, h[i].cause)))
  }

  // Entry i gives user u the right to tokens.
  predicate Authorizes(h: seq<Entry>, i: nat, u: Uuid) {
    && i < |h| && h[i].user == u
    && Root(h, i) < |h| && h[Root(h, i)].PasswordOk? && h[Root(h, i)].user == u
    && (NeedsMfa(h[Root(h, i)].record) ==> HasCode(h, i))
  }

  predicate EntryOk(env: Checks, h: seq<Entry>, i: nat)
    requires i < |h|
  {
    match h[i]
    case PasswordOk(_, record, password) => env.password(password, record.hash)
    case CodeOk(u, via, secret, code, at) =>
      via < i && h[via].user == u && Root(h, via) < |h| && h[Root(h, via)].PasswordOk? && h[Root(h, via)].user == u
      && env.totp(secret, code, at)
    case Minted(u, _, cause) => cause < i && Authorizes(h, cause, u)
  }

  ghost predicate HistoryOk(env: Checks, h: seq<Entry>) {
    forall i :: 0 <= i < |h| ==> EntryOk(env, h, i)
  }

  lemma {:induction false} PrefixKept(h: seq<Entry>, e: Entry, i: nat)
    requires i < |h|
    ensures Root(h + [e], i) == Root(h, i)
    ensures HasCode(h + [e], i) == HasCode(h, i)
    ensures Root(h, i) <= i
    decreases i
  {
    if h[i].CodeOk? && h[i].via < i { PrefixKept(h, e, h[i].via); }
    if h[i].Minted? && h[i].cause < i { PrefixKept(h, e, h[i].cause); }
  }

  lemma HistoryExtends(env: Checks, h: seq<Entry>, e: Entry)
    requires HistoryOk(env, h) && EntryOk(env, h + [e], |h|)
    ensures HistoryOk(env, h + [e])
  {
    var h' := h + [e];
    forall i | 0 <= i < |h'|
      ensures EntryOk(env, h', i)
    {
      if i < |h| {
        assert EntryOk(env, h, i);
        assert h'[i] == h[i];
        if h[i].CodeOk? { PrefixKept(h, e, h[i].via); }
        if h[i].Minted? { PrefixKept(h, e, h[i].cause); }
      }
    }
  }

  lemma AuthorizesExtends(h: seq<Entry>, e: Entry, i: nat, u: Uuid)
    requires Authorizes(h, i, u)
    ensures Authorizes(h + [e], i, u)
  {
    PrefixKept(h, e, i);
  }

  // Whatever entry one starts from, its root is a verified password of the same user.
  lemma {:induction false} RootVerified(env: Checks, h: seq<Entry>, i: nat)
    requires HistoryOk(env, h) && i < |h|
    ensures var r := Root(h, i);
      r <= i && h[r].PasswordOk? && h[r].user == h[i].user && env.password(h[r].password, h[r].record.hash)
    decreases i
  {
    assert EntryOk(env, h, i);
    if h[i].CodeOk? { RootVerified(env, h, h[i].via); }
    if h[i].Minted? { RootVerified(env, h, h[i].cause); }
  }

  lemma {:induction false} CodeFound(env: Checks, h: seq<Entry>, i: nat) returns (k: nat)
    requires HistoryOk(env, h) && i < |h| && HasCode(h, i)
    ensures k < |h| && Ancestor(h, i, k) && h[k].CodeOk? && h[k].user == h[i].user
    ensures env.totp(h[k].secret, h[k].code, h[k].at)
    decreases i
  {
    assert EntryOk(env, h, i);
    if h[i].CodeOk? {
      k := i;
    } else {
      k := CodeFound(env, h, h[i].cause);
    }
  }

  // ---- Invariant ----

  ghost predicate TokensInv(s: State) {
    && s.tokens.Keys == s.mintedAt.Keys
    && (forall x :: x in s.mintedAt ==>
          s.mintedAt[x] < |s.history| && s.history[s.mintedAt[x]].Minted?
          && s.history[s.mintedAt[x]].token == x && s.history[s.mintedAt[x]].user == s.tokens[x].user)
    && (forall i :: 0 <= i < |s.history| && s.history[i].Minted? ==>
          s.history[i].token in s.mintedAt && s.mintedAt[s.history[i].token] == i)
  }

  ghost predicate JwtsInv(env: Checks, s: State) {
    HistoryOk(env, s.history) && forall j :: j in s.jwts ==> j.cause < |s.history| && s.history[j.cause].user == j.user
  }

  // A revocation of x has been tried.
  predicate Spent(s: State, x: Token) {
    x in s.tokens && (s.tokens[x].revoked || x in s.failures)
  }

  ghost predicate ThreadOk(s: State, pc: Pc) {
    match pc
    case Found(x, u) => x in s.tokens && s.tokens[x].user == u
    case Rotated(x, u) => Spent(s, x) && s.tokens[x].user == u
    case Issuing(u, _, cause) =>
      Authorizes(s.history, cause, u) && (s.history[cause].Minted? ==> Spent(s, s.history[cause].token))
  }

  ghost predicate ThreadsInv(s: State) {
    forall t :: t in s.threads ==> ThreadOk(s, s.threads[t])
  }

  // y was issued for refreshing x.
  predicate ChildOf(s: State, y: Token, x: Token) {
    y in s.mintedAt && x in s.mintedAt && s.mintedAt[y] < |s.history| && s.history[s.mintedAt[y]].Minted?
    && s.history[s.mintedAt[y]].cause == s.mintedAt[x]
  }

  // A token that has been refreshed is revoked, unless revoking it failed.
  ghost predicate ParentsInv(s: State) {
    forall x, y :: ChildOf(s, y, x) ==> Spent(s, x)
  }

  ghost predicate Inv(env: Checks, s: State) {
    TokensInv(s) && JwtsInv(env, s) && ThreadsInv(s) && ParentsInv(s)
  }

  lemma TokensKeptByMint(env: Checks, s: State, t: Tid, y: Token, role: string, at: Time)
    requires TokensInv(s) && Enabled(env, s, Mint(t, y, role, at))
    ensures TokensInv(Apply(env, s, Mint(t, y, role, at)))
  {
    var s' := Apply(env, s, Mint(t, y, role, at));
    forall i | 0 <= i < |s'.history| && s'.history[i].Minted?
      ensures s'.history[i].token in s'.mintedAt && s'.mintedAt[s'.history[i].token] == i
    {
      if i < |s.history| { assert s.history[i].Minted?; }
    }
  }

  // Tokens change at most in being revoked, and no token is added to the history.
  lemma TokensKeptByRevoke(s: State, s': State)
    requires TokensInv(s) && s'.mintedAt == s.mintedAt && s'.tokens.Keys == s.tokens.Keys
    requires forall x :: x in s.tokens ==> s'.tokens[x].user == s.tokens[x].user
    requires s'.history == s.history
          || (exists e: Entry :: !e.Minted? && s'.history == s.history + [e])
    ensures TokensInv(s')
  {
  }

  lemma TokensKept(env: Checks, s: State, e: Step)
    requires TokensInv(s) && Enabled(env, s, e)
    ensures TokensInv(Apply(env, s, e))
  {
    match e
    case Mint(t, y, role, at) => TokensKeptByMint(env, s, t, y, role, at);
    case _ => TokensKeptByRevoke(s, Apply(env, s, e));
  }

  // The entry a step appends, if any, is justified.
  lemma JwtsKept(env: Checks, s: State, e: Step)
    requires JwtsInv(env, s) && ThreadsInv(s) && Enabled(env, s, e)
    ensures JwtsInv(env, Apply(env, s, e))
  {
    var h := s.history;
    var s' := Apply(env, s, e);
    if s'.history != h {
      var added := s'.history[|h|];
      assert s'.history == h + [added];
      match e {
        case Login(_, _, _, _) =>
        case VerifyMfa(_, jwt, _, _) =>
          RootVerified(env, h, jwt.cause);
          PrefixKept(h, added, jwt.cause);
        case Mint(t, _, _, _) =>
          assert ThreadOk(s, s.threads[t]);
          AuthorizesExtends(h, added, s.threads[t].cause, s.threads[t].user);
      }
      HistoryExtends(env, h, added);
    }
  }

  // Authority and revocation last.
  lemma ThreadOkLasts(s: State, s': State, pc: Pc)
    requires ThreadOk(s, pc)
    requires s'.history == s.history || (|s'.history| == |s.history| + 1 && s'.history[..|s.history|] == s.history)
    requires forall x :: x in s.tokens ==>
               x in s'.tokens && s'.tokens[x].user == s.tokens[x].user && (s.tokens[x].revoked ==> s'.tokens[x].revoked)
    requires s.failures <= s'.failures
    ensures ThreadOk(s', pc)
  {
    if pc.Issuing? && s'.history != s.history {
      var added := s'.history[|s.history|];
      assert s'.history == s.history + [added];
      AuthorizesExtends(s.history, added, pc.cause, pc.user);
    }
  }

  lemma StepOnlyAdds(env: Checks, s: State, e: Step)
    requires TokensInv(s) && Enabled(env, s, e)
    ensures var s' := Apply(env, s, e);
      && (s'.history == s.history || (|s'.history| == |s.history| + 1 && s'.history[..|s.history|] == s.history))
      && (forall x :: x in s.tokens ==>
            x in s'.tokens && s'.tokens[x].user == s.tokens[x].user && (s.tokens[x].revoked ==> s'.tokens[x].revoked))
      && (forall x :: x in s.mintedAt ==> x in s'.mintedAt && s'.mintedAt[x] == s.mintedAt[x])
      && s.failures <= s'.failures
  {
  }

  // The thread a step advances is as it should be afterwards.
  lemma AdvancedThreadOk(env: Checks, s: State, e: Step, t: Tid)
    requires Inv(env, s) && Enabled(env, s, e)
    requires t in Apply(env, s, e).threads && (t !in s.threads || s.threads[t] != Apply(env, s, e).threads[t])
    ensures ThreadOk(Apply(env, s, e), Apply(env, s, e).threads[t])
  {
    var h := s.history;
    match e
    case Login(_, u, password, _) =>
    case VerifyMfa(_, jwt, code, at) =>
      RootVerified(env, h, jwt.cause);
      var added := Apply(env, s, e).history[|h|];
      assert Apply(env, s, e).history == h + [added];
      PrefixKept(h, added, jwt.cause);
    case LoadUser(_, _) =>
      assert ThreadOk(s, s.threads[t]);
      assert EntryOk(env, h, s.mintedAt[s.threads[t].x]);
    case Revoke(_) => assert ThreadOk(s, s.threads[t]);
    case RevokeFails(_) => assert ThreadOk(s, s.threads[t]);
    case _ =>
  }

  lemma ThreadsKept(env: Checks, s: State, e: Step)
    requires Inv(env, s) && Enabled(env, s, e)
    ensures ThreadsInv(Apply(env, s, e))
  {
    var s' := Apply(env, s, e);
    forall t | t in s'.threads
      ensures ThreadOk(s', s'.threads[t])
    {
      if t in s.threads && s.threads[t] == s'.threads[t] {
        assert ThreadOk(s, s.threads[t]);
        StepOnlyAdds(env, s, e);
        ThreadOkLasts(s, s', s.threads[t]);
      } else {
        AdvancedThreadOk(env, s, e, t);
      }
    }
  }

  // A new child is a child of the token its request revoked; nothing else becomes one.
  lemma NewChildren(env: Checks, s: State, e: Step, y: Token, x: Token)
    requires TokensInv(s) && JwtsInv(env, s) && ThreadsInv(s) && Enabled(env, s, e)
    requires ChildOf(Apply(env, s, e), y, x) && !ChildOf(s, y, x)
    ensures e.Mint? && e.y == y && x in s.mintedAt && s.threads[e.t].cause == s.mintedAt[x]
    ensures Spent(s, x)
  {
    CausesEarlier(env, s);
    assert e.Mint?;
    assert ThreadOk(s, s.threads[e.t]);
  }

  lemma CausesEarlier(env: Checks, s: State)
    requires TokensInv(s) && JwtsInv(env, s)
    ensures forall y :: y in s.mintedAt ==> s.history[s.mintedAt[y]].cause < s.mintedAt[y]
  {
    forall y | y in s.mintedAt
      ensures s.history[s.mintedAt[y]].cause < s.mintedAt[y]
    {
      assert EntryOk(env, s.history, s.mintedAt[y]);
    }
  }

  lemma ParentsKept(env: Checks, s: State, e: Step)
    requires Inv(env, s) && Enabled(env, s, e)
    ensures ParentsInv(Apply(env, s, e))
  {
    var s' := Apply(env, s, e);
    StepOnlyAdds(env, s, e);
    forall x, y | ChildOf(s', y, x)
      ensures Spent(s', x)
    {
      if !ChildOf(s, y, x) { NewChildren(env, s, e, y, x); }
    }
  }

  lemma StepKeepsInv(env: Checks, s: State, e: Step)
    requires Inv(env, s) && Enabled(env, s, e)
    ensures Inv(env, Apply(env, s, e))
  {
    TokensKept(env, s, e);
    JwtsKept(env, s, e);
    ThreadsKept(env, s, e);
    ParentsKept(env, s, e);
  }

  lemma {:induction false} RunInv(env: Checks, states: seq<State>, steps: seq<Step>, i: nat)
    requires Run(env, states, steps) && i < |states|
    ensures Inv(env, states[i])
  {
    if i > 0 {
      RunInv(env, states, steps, i - 1);
      assert StepAt(env, states, steps, i - 1);
      StepKeepsInv(env, states[i - 1], steps[i - 1]);
    }
  }

  // Provenance, in every run and interleaving: behind every refresh token there is a login of the same user whose
  // password verified and, if MFA was enabled with a secret at that login, an accepted TOTP code of that user.
  lemma Provenance(env: Checks, states: seq<State>, steps: seq<Step>, i: nat, y: Token)
    requires Run(env, states, steps) && i < |states| && y in states[i].tokens
    ensures y in states[i].mintedAt && states[i].mintedAt[y] < |states[i].history|
    ensures var h, u := states[i].history, states[i].tokens[y].user;
      var r := Root(h, states[i].mintedAt[y]);
      && r < |h| && h[r].PasswordOk? && h[r].user == u && env.password(h[r].password, h[r].record.hash)
      && (h[r].record.mfaEnabled && h[r].record.mfaSecret.Some? ==>
            exists k :: 0 <= k < |h| && Ancestor(h, states[i].mintedAt[y], k) && h[k].CodeOk? && h[k].user == u
                        && env.totp(h[k].secret, h[k].code, h[k].at))
  {
    RunInv(env, states, steps, i);
    var h, at := states[i].history, states[i].mintedAt[y];
    assert EntryOk(env, h, at);
    RootVerified(env, h, at);
    if NeedsMfa(h[Root(h, at)].record) {
      var k := CodeFound(env, h, at);
    }
  }

  // ---- Lifetimes ----

  // Step i issued token x, for seven days from its instant, to the user and organization of its request.
  ghost predicate IssuedAt(states: seq<State>, steps: seq<Step>, i: nat, x: Token, token: RefreshToken)
    requires |states| == |steps| + 1
  {
    && i < |steps| && steps[i].Mint? && steps[i].y == x
    && steps[i].t in states[i].threads && states[i].threads[steps[i].t].Issuing?
    && token.user == states[i].threads[steps[i].t].user && token.org == states[i].threads[steps[i].t].org
    && token.expires == steps[i].at + 7 * 24 * 3600 * SECOND
  }

  lemma StepIssues(env: Checks, s: State, e: Step, x: Token)
    requires Enabled(env, s, e) && x in Apply(env, s, e).tokens
    ensures if x in s.tokens
            then Apply(env, s, e).tokens[x].(revoked := s.tokens[x].revoked) == s.tokens[x] || (e.Mint? && e.y == x)
            else e.Mint? && e.y == x
  {
  }

  // Every stored token was issued by some step, and keeps the expiry it was given then.
  lemma {:induction false} OriginOf(env: Checks, states: seq<State>, steps: seq<Step>, n: nat, x: Token)
    returns (i: nat)
    requires Run(env, states, steps) && n < |states| && x in states[n].tokens
    ensures i < n && IssuedAt(states, steps, i, x, states[n].tokens[x])
  {
    assert n > 0;
    assert StepAt(env, states, steps, n - 1);
    StepIssues(env, states[n - 1], steps[n - 1], x);
    if steps[n - 1].Mint? && steps[n - 1].y == x {
      i := n - 1;
    } else {
      i := OriginOf(env, states, steps, n - 1, x);
    }
  }

  // Every token that is looked up was issued at most seven days before, and is not revoked.
  lemma LookUpInTime(env: Checks, states: seq<State>, steps: seq<Step>, j: nat) returns (i: nat)
    requires Run(env, states, steps) && j < |steps| && steps[j].LookUp?
    ensures i < j && steps[i].Mint? && steps[i].y == steps[j].x
    ensures steps[j].at <= steps[i].at + 7 * 24 * 3600 * SECOND
    ensures steps[j].x in states[j].tokens && !states[j].tokens[steps[j].x].revoked
  {
    assert StepAt(env, states, steps, j);
    i := OriginOf(env, states, steps, j, steps[j].x);
  }

  // Step i made the JWT, which is good for fifteen minutes: as the challenge of a user whose password verified and who
  // has MFA enabled with a secret, or as an access token with the role of its user.
  ghost predicate MadeAt(env: Checks, states: seq<State>, steps: seq<Step>, i: nat, jwt: Jwt)
    requires |states| == |steps| + 1
  {
    && i < |steps|
    && ((steps[i].Login? && jwt.user == steps[i].user && jwt.role == "MFA_CHALLENGE"
         && jwt.expires == steps[i].at + 15 * 60 * SECOND
         && jwt.user in states[i].users && env.password(steps[i].password, states[i].users[jwt.user].hash)
         && states[i].users[jwt.user].mfaEnabled && states[i].users[jwt.user].mfaSecret.Some?)
        || ((steps[i].Mint? || steps[i].SaveFails?) && jwt.role == steps[i].role
            && jwt.expires == steps[i].at + 15 * 60 * SECOND
            && steps[i].t in states[i].threads && states[i].threads[steps[i].t].Issuing?
            && jwt.user == states[i].threads[steps[i].t].user))
  }

  lemma {:induction false} JwtMade(env: Checks, states: seq<State>, steps: seq<Step>, n: nat, jwt: Jwt) returns (i: nat)
    requires Run(env, states, steps) && n < |states| && jwt in states[n].jwts
    ensures i < n && MadeAt(env, states, steps, i, jwt)
  {
    assert n > 0;
    assert StepAt(env, states, steps, n - 1);
    if jwt in states[n - 1].jwts {
      i := JwtMade(env, states, steps, n - 1, jwt);
    } else {
      i := n - 1;
    }
  }

  // A code is accepted only within fifteen minutes of the challenge it answers: the password of the same user had
  // verified then. The one other JWT that passes for a challenge is an access token of a user whose role has that name.
  lemma ChallengeInTime(env: Checks, states: seq<State>, steps: seq<Step>, j: nat) returns (i: nat)
    requires Run(env, states, steps) && j < |steps| && steps[j].VerifyMfa?
    ensures i < j && MadeAt(env, states, steps, i, steps[j].jwt) && steps[j].jwt.role == "MFA_CHALLENGE"
    ensures steps[j].at < steps[i].at + 15 * 60 * SECOND
    ensures steps[i].Login? || steps[i].role == "MFA_CHALLENGE"
  {
    assert StepAt(env, states, steps, j);
    i := JwtMade(env, states, steps, j, steps[j].jwt);
  }
}
