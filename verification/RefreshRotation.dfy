// Refresh-token rotation: what revocation guarantees however requests interleave, and what more holds of a token
// that no two requests refresh at once.
module RefreshRotation {
  import opened Common
  import opened TokenRotation

  predicate Revoked(s: State, x: Token) {
    x in s.tokens && s.tokens[x].revoked
  }

  // Request t may still issue a token for x.
  predicate Toward(s: State, t: Tid, x: Token) {
    t in s.threads && x in s.mintedAt &&
    match s.threads[t]
    case Found(x', _) => x' == x
    case Rotated(x', _) => x' == x
    case Issuing(_, _, cause) => cause == s.mintedAt[x]
  }

  function InFlight(s: State, x: Token): set<Tid> {
    set t | t in s.threads && Toward(s, t, x)
  }

  function Children(s: State, x: Token): set<Token> {
    set y | y in s.mintedAt && ChildOf(s, y, x)
  }

  lemma ChildrenLast(env: Checks, s: State, e: Step, x: Token)
    requires Inv(env, s) && Enabled(env, s, e) && x in s.mintedAt
    ensures Children(s, x) <= Children(Apply(env, s, e), x)
    ensures forall y :: y in Children(Apply(env, s, e), x) && y !in Children(s, x) ==>
              e.Mint? && e.y == y && Toward(s, e.t, x)
  {
    StepOnlyAdds(env, s, e);
    var s' := Apply(env, s, e);
    forall y | y in Children(s, x)
      ensures y in Children(s', x)
    {
      assert s'.history[s.mintedAt[y]] == s.history[s.mintedAt[y]];
    }
    forall y | y in Children(s', x) && y !in Children(s, x)
      ensures e.Mint? && e.y == y && Toward(s, e.t, x)
    {
      NewChildren(env, s, e, y, x);
    }
  }

  // Once a token is revoked, nobody new sets out to refresh it.
  lemma FlightShrinks(env: Checks, s: State, e: Step, x: Token)
    requires Inv(env, s) && Enabled(env, s, e) && Revoked(s, x)
    ensures InFlight(Apply(env, s, e), x) <= InFlight(s, x)
    ensures e.Mint? ==> e.t !in InFlight(Apply(env, s, e), x)
  {
    assert x in s.mintedAt && s.mintedAt[x] < |s.history|;
    var s' := Apply(env, s, e);
    forall t | t in InFlight(s', x)
      ensures t in InFlight(s, x) && (e.Mint? ==> t != e.t)
    {
      if t in s.threads && s.threads[t] == s'.threads[t] {
        StepOnlyAdds(env, s, e);
      } else {
        match e
        case LoadUser(_, _) => assert ThreadOk(s, s.threads[t]); SameTokenAt(s, s.threads[t].x, x);
        case _ =>
      }
    }
  }

  lemma SameTokenAt(s: State, x: Token, x': Token)
    requires TokensInv(s) && x in s.mintedAt && x' in s.mintedAt && s.mintedAt[x] == s.mintedAt[x']
    ensures x == x'
  {
  }

  lemma RotationStep(env: Checks, s: State, e: Step, x: Token)
    requires Inv(env, s) && Enabled(env, s, e) && Revoked(s, x)
    ensures var s' := Apply(env, s, e);
      |Children(s', x)| + |InFlight(s', x)| <= |Children(s, x)| + |InFlight(s, x)|
  {
    var s' := Apply(env, s, e);
    ChildrenLast(env, s, e, x);
    FlightShrinks(env, s, e, x);
    if Children(s', x) == Children(s, x) {
      SubsetBound(InFlight(s', x), InFlight(s, x));
    } else {
      var y :| y in Children(s', x) && y !in Children(s, x);
      assert Children(s', x) == Children(s, x) + {e.y};
      SubsetBound(InFlight(s', x), InFlight(s, x) - {e.t});
    }
  }

  lemma RevokedLasts(env: Checks, s: State, e: Step, s': State, x: Token)
    requires Next(env, s, e, s') && TokensInv(s) && Revoked(s, x)
    ensures Revoked(s', x)
  {
    StepOnlyAdds(env, s, e);
  }

  lemma RunTokensInv(env: Checks, states: seq<State>, steps: seq<Step>, i: nat)
    requires Run(env, states, steps) && i < |states|
    ensures TokensInv(states[i])
  {
    RunInv(env, states, steps, i);
  }

  // A revoked token stays revoked: no lookup of it ever succeeds again.
  lemma {:induction false} RevokedForever(env: Checks, states: seq<State>, steps: seq<Step>, i: nat, j: nat, x: Token)
    requires Run(env, states, steps) && i <= j < |states| && Revoked(states[i], x)
    ensures Revoked(states[j], x)
    ensures forall now :: !Usable(states[j].tokens, x, now)
    decreases j - i
  {
    if i < j {
      RevokedForever(env, states, steps, i, j - 1, x);
      RunTokensInv(env, states, steps, j - 1);
      assert StepAt(env, states, steps, j - 1);
      RevokedLasts(env, states[j - 1], steps[j - 1], states[j], x);
    }
  }

  lemma {:induction false} FlightBound(env: Checks, states: seq<State>, steps: seq<Step>, i: nat, j: nat, x: Token)
    requires Run(env, states, steps) && i <= j < |states| && Revoked(states[i], x)
    ensures |Children(states[j], x)| + |InFlight(states[j], x)| <= |Children(states[i], x)| + |InFlight(states[i], x)|
    decreases j - i
  {
    if i < j {
      FlightBound(env, states, steps, i, j - 1, x);
      RevokedForever(env, states, steps, i, j - 1, x);
      RunInv(env, states, steps, j - 1);
      assert StepAt(env, states, steps, j - 1);
      RotationStep(env, states[j - 1], steps[j - 1], x);
    }
  }

  // Requests past the revocation of x, done or failed.
  function Past(s: State, x: Token): set<Tid> {
    set t | t in s.threads && Toward(s, t, x) && !s.threads[t].Found?
  }

  // While x is not revoked, whoever got past its revocation did so by a failure.
  ghost predicate FailuresCounted(s: State, x: Token) {
    !Revoked(s, x) ==> |Children(s, x)| + |Past(s, x)| <= s.failures[x]
  }

  // A step moves at most its own request past the revocation, and then by a failure.
  lemma PastMoves(env: Checks, s: State, e: Step, x: Token)
    requires Inv(env, s) && Enabled(env, s, e) && x in s.mintedAt && !Revoked(Apply(env, s, e), x)
    ensures var s' := Apply(env, s, e);
      && (Past(s', x) <= Past(s, x)
          || (e.RevokeFails? && Past(s', x) <= Past(s, x) + {e.t} && s'.failures[x] == s.failures[x] + 1))
      && (e.Mint? ==> e.t !in Past(s', x))
      && s.failures[x] <= s'.failures[x]
  {
    var s' := Apply(env, s, e);
    assert s.mintedAt[x] < |s.history|;
    forall t | t in Past(s', x)
      ensures t in Past(s, x) || (e.RevokeFails? && t == e.t && s.threads[t].x == x)
      ensures e.Mint? ==> t != e.t
    {
      if t in s.threads && s.threads[t] == s'.threads[t] {
        StepOnlyAdds(env, s, e);
      } else {
        match e
        case LoadUser(_, _) => assert ThreadOk(s, s.threads[t]); SameTokenAt(s, s.threads[t].x, x);
        case _ =>
      }
    }
    if e.RevokeFails? && s.threads[e.t].x != x { assert Past(s', x) <= Past(s, x); }
  }

  lemma PastCount(env: Checks, s: State, e: Step, x: Token)
    requires Inv(env, s) && Enabled(env, s, e) && x in s.mintedAt && !Revoked(Apply(env, s, e), x)
    ensures var s' := Apply(env, s, e);
      |Past(s', x)| - s'.failures[x] <= |Past(s, x)| - s.failures[x]
  {
    var s' := Apply(env, s, e);
    PastMoves(env, s, e, x);
    if Past(s', x) <= Past(s, x) {
      SubsetBound(Past(s', x), Past(s, x));
    } else {
      SubsetBound(Past(s', x), Past(s, x) + {e.t});
    }
  }

  lemma ChildCount(env: Checks, s: State, e: Step, x: Token)
    requires Inv(env, s) && Enabled(env, s, e) && x in s.mintedAt && !Revoked(Apply(env, s, e), x)
    requires Children(Apply(env, s, e), x) != Children(s, x)
    ensures var s' := Apply(env, s, e);
      |Children(s', x)| == |Children(s, x)| + 1 && |Past(s', x)| + 1 <= |Past(s, x)| && s'.failures == s.failures
  {
    var s' := Apply(env, s, e);
    ChildrenLast(env, s, e, x);
    PastMoves(env, s, e, x);
    var y :| y in Children(s', x) && y !in Children(s, x);
    assert Children(s', x) == Children(s, x) + {e.y};
    assert e.t in Past(s, x);
    SubsetBound(Past(s', x), Past(s, x) - {e.t});
  }

  lemma FailuresCountedKept(env: Checks, s: State, e: Step, x: Token)
    requires Inv(env, s) && Enabled(env, s, e) && FailuresCounted(s, x)
    ensures FailuresCounted(Apply(env, s, e), x)
  {
    var s' := Apply(env, s, e);
    if x !in s.mintedAt {
      NewTokenAlone(env, s, e, x);
      assert Past(s', x) == {};
    } else if !Revoked(s', x) {
      if Revoked(s, x) { RevokedLasts(env, s, e, s', x); }
      if Children(s', x) == Children(s, x) { PastCount(env, s, e, x); } else { ChildCount(env, s, e, x); }
    }
  }

  // A token just issued, or not issued yet, has no child, and nobody is refreshing it.
  lemma NewTokenAlone(env: Checks, s: State, e: Step, x: Token)
    requires Inv(env, s) && Enabled(env, s, e) && x !in s.mintedAt
    ensures var s' := Apply(env, s, e); Children(s', x) == {} && forall t :: !Toward(s', t, x)
  {
    var s' := Apply(env, s, e);
    forall y
      ensures !ChildOf(s', y, x)
    {
      NewTokenChildless(env, s, e, x, y);
    }
    forall t
      ensures !Toward(s', t, x)
    {
      if t in s.threads { assert ThreadOk(s, s.threads[t]); }
    }
  }

  lemma NewTokenChildless(env: Checks, s: State, e: Step, x: Token, y: Token)
    requires Inv(env, s) && Enabled(env, s, e) && x !in s.mintedAt
    ensures !ChildOf(Apply(env, s, e), y, x)
  {
    CausesEarlier(env, s);
    if e.Mint? { assert ThreadOk(s, s.threads[e.t]); }
  }

  lemma InitialCounted(users: map<Uuid, User>, x: Token)
    ensures FailuresCounted(Initial(users), x)
  {
  }

  lemma {:induction false} RunFailuresCounted(env: Checks, states: seq<State>, steps: seq<Step>, i: nat, x: Token)
    requires Run(env, states, steps) && i < |states|
    ensures FailuresCounted(states[i], x)
  {
    if i == 0 {
      var users :| states[0] == Initial(users);
      InitialCounted(users, x);
    } else {
      RunFailuresCounted(env, states, steps, i - 1, x);
      RunInv(env, states, steps, i - 1);
      assert StepAt(env, states, steps, i - 1);
      FailuresCountedKept(env, states[i - 1], steps[i - 1], x);
    }
  }

  // The tokens ever issued for refreshing x are at most as many as the refreshes of x that were in flight when its
  // first revocation completed and the revocations of x that had failed until then.
  lemma SuccessorsBound(env: Checks, states: seq<State>, steps: seq<Step>, i: nat, j: nat, x: Token)
    requires Run(env, states, steps) && i < j < |states|
    requires x in states[i].tokens && !Revoked(states[i], x) && Revoked(states[i + 1], x)
    ensures |Children(states[j], x)| <= |InFlight(states[i + 1], x)| + states[i].failures[x]
  {
    RunInv(env, states, steps, i);
    RunFailuresCounted(env, states, steps, i, x);
    assert StepAt(env, states, steps, i);
    ChildrenLast(env, states[i], steps[i], x);
    assert !steps[i].Mint?;
    assert Children(states[i + 1], x) == Children(states[i], x);
    FlightBound(env, states, steps, i + 1, j, x);
  }

  // ---- Logins ----

  // The login (a password without MFA, or an accepted code) from which entry i descends by refreshes alone.
  function LoginOf(h: seq<Entry>, i: nat): nat
    decreases i
  {
    if i < |h| && h[i].Minted? && h[i].cause < i then LoginOf(h, h[i].cause) else i
  }

  predicate IsLogin(e: Entry) {
    (e.PasswordOk? && !NeedsMfa(e.record)) || e.CodeOk?
  }

  // The completed logins.
  function Logins(h: seq<Entry>): set<nat> {
    set i: nat | i < |h| && IsLogin(h[i])
  }

  function Live(s: State): set<Token> {
    set x | x in s.tokens && !s.tokens[x].revoked
  }

  // Request t is about to issue a token for a login, not for a refresh.
  predicate IssuesFor(s: State, t: Tid, login: nat) {
    t in s.threads && s.threads[t].Issuing? && s.threads[t].cause == login < |s.history| && IsLogin(s.history[login])
  }

  function LoginOfToken(s: State, x: Token): nat
    requires x in s.mintedAt
  {
    LoginOf(s.history, s.mintedAt[x])
  }

  // Each login issues one token: only one request is about to, and none has been issued while it is.
  ghost predicate LoginsIssueOnce(s: State) {
    && (forall t, t', login :: IssuesFor(s, t, login) && IssuesFor(s, t', login) ==> t == t')
    && (forall t, x, login :: IssuesFor(s, t, login) && x in s.mintedAt ==> LoginOfToken(s, x) != login)
  }

  lemma {:induction false} LoginOfKept(h: seq<Entry>, e: Entry, i: nat)
    requires i < |h|
    ensures LoginOf(h + [e], i) == LoginOf(h, i) <= i
    decreases i
  {
    if h[i].Minted? && h[i].cause < i { LoginOfKept(h, e, h[i].cause); }
  }

  lemma {:induction false} LoginOfIsLogin(env: Checks, h: seq<Entry>, i: nat)
    requires HistoryOk(env, h) && i < |h| && h[i].Minted?
    ensures LoginOf(h, i) < i && IsLogin(h[LoginOf(h, i)])
    decreases i
  {
    assert EntryOk(env, h, i);
    if h[h[i].cause].Minted? { LoginOfIsLogin(env, h, h[i].cause); }
  }

  // A token keeps its login.
  lemma LoginsLast(env: Checks, s: State, e: Step, x: Token)
    requires Inv(env, s) && Enabled(env, s, e) && x in s.mintedAt
    ensures var s' := Apply(env, s, e);
      x in s'.mintedAt && LoginOfToken(s', x) == LoginOfToken(s, x) < |s.history|
  {
    StepOnlyAdds(env, s, e);
    var s' := Apply(env, s, e);
    if s'.history != s.history {
      assert s'.history == s.history + [s'.history[|s.history|]];
      LoginOfKept(s.history, s'.history[|s.history|], s.mintedAt[x]);
    } else {
      LoginOfKept(s.history, Minted(NIL, 0, 0), s.mintedAt[x]);
    }
  }

  // What a new token descends from: the login itself, or the token that was refreshed.
  lemma NewTokenLogin(env: Checks, s: State, e: Step)
    requires Inv(env, s) && Enabled(env, s, e) && e.Mint?
    ensures var s', cause := Apply(env, s, e), s.threads[e.t].cause;
      && cause < |s.history| && e.y in s'.mintedAt && LoginOfToken(s', e.y) == LoginOf(s.history, cause)
      && ((IssuesFor(s, e.t, cause) && LoginOf(s.history, cause) == cause)
          || (s.history[cause].Minted? && s.history[cause].token in s.mintedAt
              && s.mintedAt[s.history[cause].token] == cause && Toward(s, e.t, s.history[cause].token)))
  {
    var s', cause := Apply(env, s, e), s.threads[e.t].cause;
    assert ThreadOk(s, s.threads[e.t]);
    LoginOfKept(s.history, s'.history[|s.history|], cause);
  }

  // Who is about to issue a token for a login was so before, or has just completed the login.
  lemma IssuesFrom(env: Checks, s: State, e: Step, t: Tid, login: nat)
    requires Inv(env, s) && Enabled(env, s, e) && IssuesFor(Apply(env, s, e), t, login)
    ensures IssuesFor(s, t, login) || (login == |s.history| && t == e.t && (e.Login? || e.VerifyMfa?))
    ensures e.Mint? ==> t != e.t
  {
    StepOnlyAdds(env, s, e);
    if t in s.threads { assert ThreadOk(s, s.threads[t]); }
  }

  lemma OneIssuerKept(env: Checks, s: State, e: Step, t: Tid, t': Tid, login: nat)
    requires Inv(env, s) && Enabled(env, s, e) && LoginsIssueOnce(s)
    requires IssuesFor(Apply(env, s, e), t, login) && IssuesFor(Apply(env, s, e), t', login)
    ensures t == t'
  {
    IssuesFrom(env, s, e, t, login);
    IssuesFrom(env, s, e, t', login);
  }

  lemma NotIssuedKept(env: Checks, s: State, e: Step, t: Tid, x: Token, login: nat)
    requires Inv(env, s) && Enabled(env, s, e) && LoginsIssueOnce(s)
    requires IssuesFor(Apply(env, s, e), t, login) && x in Apply(env, s, e).mintedAt
    ensures LoginOfToken(Apply(env, s, e), x) != login
  {
    IssuesFrom(env, s, e, t, login);
    if x in s.mintedAt { LoginsLast(env, s, e, x); } else { NewTokenLogin(env, s, e); }
  }

  lemma LoginsIssueOnceKept(env: Checks, s: State, e: Step)
    requires Inv(env, s) && Enabled(env, s, e) && LoginsIssueOnce(s)
    ensures LoginsIssueOnce(Apply(env, s, e))
  {
    var s' := Apply(env, s, e);
    forall t, t', login | IssuesFor(s', t, login) && IssuesFor(s', t', login)
      ensures t == t'
    {
      OneIssuerKept(env, s, e, t, t', login);
    }
    forall t, x, login | IssuesFor(s', t, login) && x in s'.mintedAt
      ensures LoginOfToken(s', x) != login
    {
      NotIssuedKept(env, s, e, t, x, login);
    }
  }

  lemma InitialLoginsIssueOnce(users: map<Uuid, User>)
    ensures LoginsIssueOnce(Initial(users))
  {
  }

  lemma {:induction false} RunLoginsIssueOnce(env: Checks, states: seq<State>, steps: seq<Step>, i: nat)
    requires Run(env, states, steps) && i < |states|
    ensures LoginsIssueOnce(states[i])
  {
    if i == 0 {
      var users :| states[0] == Initial(users);
      InitialLoginsIssueOnce(users);
    } else {
      RunLoginsIssueOnce(env, states, steps, i - 1);
      RunInv(env, states, steps, i - 1);
      assert StepAt(env, states, steps, i - 1);
      LoginsIssueOnceKept(env, states[i - 1], steps[i - 1]);
    }
  }

  // ---- One token, refreshed by one request at a time ----

  // No two requests are refreshing x, and no revocation of it has failed.
  ghost predicate Calm(s: State, x: Token) {
    x !in s.failures && forall t, t' :: Toward(s, t, x) && Toward(s, t', x) ==> t == t'
  }

  // Whoever is refreshing x finds it without a child.
  ghost predicate Reserved(s: State, x: Token) {
    forall t :: Toward(s, t, x) ==> Children(s, x) == {}
  }

  lemma ReservedKept(env: Checks, s: State, e: Step, x: Token)
    requires Inv(env, s) && Enabled(env, s, e) && Reserved(s, x) && Calm(s, x)
    ensures Reserved(Apply(env, s, e), x)
  {
    var s' := Apply(env, s, e);
    if x !in s.mintedAt {
      NewTokenAlone(env, s, e, x);
    } else {
      ChildrenLast(env, s, e, x);
      forall t | Toward(s', t, x)
        ensures Children(s', x) == {}
      {
        TowardFrom(env, s, e, t, x);
        assert Children(s', x) == Children(s, x);
      }
    }
  }

  // A token that can be looked up, and whose revocation never failed, has not been refreshed.
  lemma UsableChildless(s: State, x: Token, at: Time)
    requires ParentsInv(s) && Usable(s.tokens, x, at)
    ensures x in s.failures || Children(s, x) == {}
  {
    assert forall y :: ChildOf(s, y, x) ==> Spent(s, x);
  }

  // Who is refreshing x after a step was refreshing it before, or has just found it unrevoked.
  lemma TowardFrom(env: Checks, s: State, e: Step, t: Tid, x: Token)
    requires Inv(env, s) && Enabled(env, s, e) && x in s.mintedAt && Toward(Apply(env, s, e), t, x) && Calm(s, x)
    ensures Toward(s, t, x) || Children(s, x) == {}
    ensures e.Mint? ==> t != e.t && Toward(s, t, x)
  {
    var s' := Apply(env, s, e);
    StepOnlyAdds(env, s, e);
    assert s.mintedAt[x] < |s.history|;
    if t in s.threads && s.threads[t] == s'.threads[t] {
      assert Toward(s, t, x);
    } else {
      match e
      case LookUp(_, x', at) => UsableChildless(s, x', at);
      case LoadUser(_, _) => assert ThreadOk(s, s.threads[t]); SameTokenAt(s, s.threads[t].x, x);
      case _ =>
    }
  }

  ghost predicate OnlyChild(s: State, x: Token) {
    forall y, y' :: ChildOf(s, y, x) && ChildOf(s, y', x) ==> y == y'
  }

  lemma OnlyChildKept(env: Checks, s: State, e: Step, x: Token)
    requires Inv(env, s) && Enabled(env, s, e) && Reserved(s, x) && OnlyChild(s, x)
    ensures OnlyChild(Apply(env, s, e), x)
  {
    var s' := Apply(env, s, e);
    if x !in s.mintedAt {
      NewTokenAlone(env, s, e, x);
      assert forall y :: ChildOf(s', y, x) ==> y in Children(s', x);
    } else {
      ChildrenLast(env, s, e, x);
      forall y, y' | ChildOf(s', y, x) && ChildOf(s', y', x)
        ensures y == y'
      {
        assert y in Children(s', x) && y' in Children(s', x);
        if y !in Children(s, x) || y' !in Children(s, x) { assert Toward(s, e.t, x); }
      }
    }
  }

  lemma InitialCalm(users: map<Uuid, User>, x: Token)
    ensures Reserved(Initial(users), x) && OnlyChild(Initial(users), x)
  {
  }

  lemma {:induction false} CalmRun(env: Checks, states: seq<State>, steps: seq<Step>, i: nat, x: Token)
    requires Run(env, states, steps) && i < |states|
    requires forall k :: 0 <= k < i ==> Calm(states[k], x)
    ensures Reserved(states[i], x) && OnlyChild(states[i], x)
  {
    if i == 0 {
      var users :| states[0] == Initial(users);
      InitialCalm(users, x);
    } else {
      CalmRun(env, states, steps, i - 1, x);
      RunInv(env, states, steps, i - 1);
      assert StepAt(env, states, steps, i - 1);
      ReservedKept(env, states[i - 1], steps[i - 1], x);
      OnlyChildKept(env, states[i - 1], steps[i - 1], x);
    }
  }

  // A token that no two requests were ever refreshing at once, and whose revocation never failed, is refreshed at
  // most once, whatever goes on with other tokens and logins; and then it is revoked.
  lemma RefreshedOnce(env: Checks, states: seq<State>, steps: seq<Step>, i: nat, x: Token)
    requires Run(env, states, steps) && i < |states|
    requires forall k :: 0 <= k <= i ==> Calm(states[k], x)
    ensures OnlyChild(states[i], x)
    ensures forall y :: ChildOf(states[i], y, x) ==> Revoked(states[i], x)
  {
    CalmRun(env, states, steps, i, x);
    RunInv(env, states, steps, i);
  }

  // ---- The tokens of one login ----

  // Entry i is entry k or was issued, by refreshes alone, from it.
  predicate Descends(h: seq<Entry>, i: nat, k: nat)
    decreases i
  {
    k == i || (i < |h| && h[i].Minted? && h[i].cause < i && Descends(h, h[i].cause, k))
  }

  predicate Linked(h: seq<Entry>, i: nat, k: nat) {
    Descends(h, i, k) || Descends(h, k, i)
  }

  predicate OfLogin(s: State, x: Token, login: nat) {
    x in s.mintedAt && LoginOfToken(s, x) == login
  }

  // Of any two tokens of the login one descends from the other.
  ghost predicate Chain(s: State, login: nat) {
    forall x, x' :: OfLogin(s, x, login) && OfLogin(s, x', login) ==> Linked(s.history, s.mintedAt[x], s.mintedAt[x'])
  }

  ghost predicate CalmLogin(s: State, login: nat) {
    forall x :: OfLogin(s, x, login) ==> Calm(s, x)
  }

  ghost predicate ReservedLogin(s: State, login: nat) {
    forall x :: OfLogin(s, x, login) ==> Reserved(s, x)
  }

  lemma {:induction false} DescendsKept(h: seq<Entry>, e: Entry, i: nat, k: nat)
    requires i < |h|
    ensures Descends(h + [e], i, k) == Descends(h, i, k)
    decreases i
  {
    if h[i].Minted? && h[i].cause < i { DescendsKept(h, e, h[i].cause, k); }
  }

  // A token with a descendant has a child.
  lemma {:induction false} DescendantHasChild(env: Checks, s: State, z: Token, x: Token)
    requires TokensInv(s) && JwtsInv(env, s) && z in s.mintedAt && x in s.mintedAt && z != x
    requires Descends(s.history, s.mintedAt[z], s.mintedAt[x])
    ensures Children(s, x) != {}
    decreases s.mintedAt[z]
  {
    var h, cause := s.history, s.history[s.mintedAt[z]].cause;
    assert EntryOk(env, h, s.mintedAt[z]);
    if cause == s.mintedAt[x] {
      assert z in Children(s, x);
    } else {
      DescendantHasChild(env, s, h[cause].token, x);
    }
  }

  lemma ChainKept(env: Checks, s: State, e: Step, login: nat)
    requires Inv(env, s) && Enabled(env, s, e) && LoginsIssueOnce(s) && Chain(s, login) && ReservedLogin(s, login)
    ensures Chain(Apply(env, s, e), login)
  {
    var s' := Apply(env, s, e);
    forall x, x' | OfLogin(s', x, login) && OfLogin(s', x', login)
      ensures Linked(s'.history, s'.mintedAt[x], s'.mintedAt[x'])
    {
      if x in s.mintedAt && x' in s.mintedAt {
        LinkLasts(env, s, e, x, x');
      } else if x in s.mintedAt {
        NewestLinked(env, s, e, x, login);
      } else if x' in s.mintedAt {
        NewestLinked(env, s, e, x', login);
      }
    }
  }

  lemma LinkLasts(env: Checks, s: State, e: Step, x: Token, x': Token)
    requires Inv(env, s) && Enabled(env, s, e) && x in s.mintedAt && x' in s.mintedAt
    ensures var s' := Apply(env, s, e);
      && LoginOfToken(s, x) == LoginOf(s'.history, s'.mintedAt[x])
      && LoginOfToken(s, x') == LoginOf(s'.history, s'.mintedAt[x'])
      && (Linked(s.history, s.mintedAt[x], s.mintedAt[x']) ==> Linked(s'.history, s'.mintedAt[x], s'.mintedAt[x']))
  {
    StepOnlyAdds(env, s, e);
    LoginsLast(env, s, e, x);
    LoginsLast(env, s, e, x');
    var s' := Apply(env, s, e);
    if s'.history != s.history {
      var added := s'.history[|s.history|];
      assert s'.history == s.history + [added];
      DescendsKept(s.history, added, s.mintedAt[x], s.mintedAt[x']);
      DescendsKept(s.history, added, s.mintedAt[x'], s.mintedAt[x]);
    }
  }

  // A token just issued descends from every other token of its login.
  lemma NewestLinked(env: Checks, s: State, e: Step, z: Token, login: nat)
    requires Inv(env, s) && Enabled(env, s, e) && LoginsIssueOnce(s) && Chain(s, login) && ReservedLogin(s, login)
    requires e.Mint? && z in s.mintedAt
    requires OfLogin(Apply(env, s, e), e.y, login) && OfLogin(Apply(env, s, e), z, login)
    ensures var s' := Apply(env, s, e); Descends(s'.history, s'.mintedAt[e.y], s'.mintedAt[z])
  {
    var s', cause := Apply(env, s, e), s.threads[e.t].cause;
    NewTokenLogin(env, s, e);
    LoginsLast(env, s, e, z);
    assert OfLogin(s, z, login);
    var x := s.history[cause].token;
    assert OfLogin(s, x, login) && Toward(s, e.t, x);
    if z != x && !Descends(s.history, cause, s.mintedAt[z]) { DescendantHasChild(env, s, z, x); }
    DescendsKept(s.history, s'.history[|s.history|], cause, s.mintedAt[z]);
  }

  lemma ReservedLoginKept(env: Checks, s: State, e: Step, login: nat)
    requires Inv(env, s) && Enabled(env, s, e) && ReservedLogin(s, login) && CalmLogin(s, login)
    ensures ReservedLogin(Apply(env, s, e), login)
  {
    var s' := Apply(env, s, e);
    forall x | OfLogin(s', x, login)
      ensures Reserved(s', x)
    {
      if x in s.mintedAt {
        LoginsLast(env, s, e, x);
        ReservedKept(env, s, e, x);
      } else {
        NewTokenAlone(env, s, e, x);
      }
    }
  }

  lemma InitialChain(users: map<Uuid, User>, login: nat)
    ensures Chain(Initial(users), login) && ReservedLogin(Initial(users), login)
  {
  }

  lemma {:induction false} ChainRun(env: Checks, states: seq<State>, steps: seq<Step>, i: nat, login: nat)
    requires Run(env, states, steps) && i < |states|
    requires forall k :: 0 <= k < i ==> CalmLogin(states[k], login)
    ensures Chain(states[i], login) && ReservedLogin(states[i], login)
  {
    if i == 0 {
      var users :| states[0] == Initial(users);
      InitialChain(users, login);
    } else {
      ChainRun(env, states, steps, i - 1, login);
      RunInv(env, states, steps, i - 1);
      RunLoginsIssueOnce(env, states, steps, i - 1);
      assert StepAt(env, states, steps, i - 1);
      ChainKept(env, states[i - 1], steps[i - 1], login);
      ReservedLoginKept(env, states[i - 1], steps[i - 1], login);
    }
  }

  lemma LiveHasNoChild(env: Checks, s: State, x: Token)
    requires Inv(env, s) && x in Live(s) && x !in s.failures
    ensures Children(s, x) == {}
  {
    assert forall y :: !ChildOf(s, y, x);
  }

  // The tokens of a login whose refreshes never overlap token by token and never fail to revoke form a chain, each
  // descending from the one before, with at most one live token; other logins may do as they like meanwhile.
  lemma LoginChain(env: Checks, states: seq<State>, steps: seq<Step>, i: nat, login: nat)
    requires Run(env, states, steps) && i < |states|
    requires forall k :: 0 <= k <= i ==> CalmLogin(states[k], login)
    ensures Chain(states[i], login)
    ensures forall x, x' :: (x in Live(states[i]) && x' in Live(states[i])
                             && OfLogin(states[i], x, login) && OfLogin(states[i], x', login)) ==> x == x'
  {
    ChainRun(env, states, steps, i, login);
    RunInv(env, states, steps, i);
    var s := states[i];
    forall x, x' | x in Live(s) && x' in Live(s) && OfLogin(s, x, login) && OfLogin(s, x', login)
      ensures x == x'
    {
      LiveHasNoChild(env, s, x);
      LiveHasNoChild(env, s, x');
      if x != x' {
        if Descends(s.history, s.mintedAt[x], s.mintedAt[x']) {
          DescendantHasChild(env, s, x, x');
        } else {
          DescendantHasChild(env, s, x', x);
        }
      }
    }
  }

  // When that holds of every token, though any number of requests for different tokens and logins overlap: each
  // token is refreshed at most once and then revoked, each login's tokens form a chain with at most one live token,
  // and live tokens never outnumber logins.
  lemma SerialRotation(env: Checks, states: seq<State>, steps: seq<Step>, i: nat)
    requires Run(env, states, steps) && i < |states|
    requires forall k, x :: 0 <= k <= i ==> Calm(states[k], x)
    ensures forall x :: OnlyChild(states[i], x)
    ensures forall x, y :: ChildOf(states[i], y, x) ==> Revoked(states[i], x)
    ensures forall login :: Chain(states[i], login)
    ensures Live(states[i]) <= states[i].mintedAt.Keys
    ensures forall x, x' :: (x in Live(states[i]) && x' in Live(states[i])
                             && LoginOfToken(states[i], x) == LoginOfToken(states[i], x')) ==> x == x'
    ensures |Live(states[i])| <= |Logins(states[i].history)|
  {
    RunInv(env, states, steps, i);
    var s := states[i];
    forall x
      ensures OnlyChild(s, x) && forall y :: ChildOf(s, y, x) ==> Revoked(s, x)
    {
      RefreshedOnce(env, states, steps, i, x);
    }
    forall login
      ensures Chain(s, login)
    {
      LoginChain(env, states, steps, i, login);
    }
    forall x, x' | x in Live(s) && x' in Live(s) && LoginOfToken(s, x) == LoginOfToken(s, x')
      ensures x == x'
    {
      LoginChain(env, states, steps, i, LoginOfToken(s, x));
    }
    forall x | x in Live(s)
      ensures LoginOfToken(s, x) in Logins(s.history)
    {
      LoginOfIsLogin(env, s.history, s.mintedAt[x]);
    }
    InjectionBound(Live(s), Logins(s.history), x requires x in s.mintedAt => LoginOfToken(s, x));
  }

  // ---- Refreshes that do overlap ----

  // A state reached by refreshing token 0: requests 0..looked have looked it up, of which 0..revoked have revoked
  // it, 0..loaded have loaded the user and 0..minted have issued their token, 1..minted.
  ghost predicate Stage(s: State, u: Uuid, looked: nat, revoked: nat, loaded: nat, minted: nat) {
    && minted <= loaded <= revoked <= looked
    && u in s.users && |s.history| == 2 + minted && s.history[1] == Minted(u, 0, 0)
    && (forall t :: t in s.threads <==> minted <= t < looked)
    && (forall t :: revoked <= t < looked ==> s.threads[t] == Found(0, u))
    && (forall t :: loaded <= t < revoked ==> s.threads[t] == Rotated(0, u))
    && (forall t :: minted <= t < loaded ==> s.threads[t].Issuing? && s.threads[t].user == u && s.threads[t].cause == 1)
    && (forall y: nat :: y in s.mintedAt <==> y <= minted) && s.mintedAt.Keys == s.tokens.Keys
    && s.tokens[0] == RefreshToken(u, s.tokens[0].org, REFRESH_TTL, 0 < revoked)
    && s.mintedAt[0] == 1
    && (forall y :: 1 <= y <= minted ==>
          !s.tokens[y].revoked && s.mintedAt[y] == y + 1 && s.history[y + 1] == Minted(u, y, 1))
  }

  // A run that has reached a stage.
  ghost predicate Reached(env: Checks, states: seq<State>, steps: seq<Step>, u: Uuid,
                          looked: nat, revoked: nat, loaded: nat, minted: nat) {
    Run(env, states, steps) && Stage(states[|steps|], u, looked, revoked, loaded, minted)
  }

  lemma Extend(env: Checks, states: seq<State>, steps: seq<Step>, e: Step)
    returns (states': seq<State>, steps': seq<Step>)
    requires Run(env, states, steps) && Enabled(env, states[|steps|], e)
    ensures Run(env, states', steps') && |steps'| == |steps| + 1
    ensures states' == states + [Apply(env, states[|steps|], e)]
  {
    states', steps' := states + [Apply(env, states[|steps|], e)], steps + [e];
    forall i | 0 <= i < |steps'|
      ensures StepAt(env, states', steps', i)
    {
      if i < |steps| { assert StepAt(env, states, steps, i); }
    }
  }

  // One login without MFA, then k lookups before the first revocation.
  lemma {:induction false} LookUps(env: Checks, users: map<Uuid, User>, u: Uuid, password: string, k: nat)
    returns (states: seq<State>, steps: seq<Step>)
    requires u in users && !NeedsMfa(users[u]) && env.password(password, users[u].hash)
    ensures Reached(env, states, steps, u, k, 0, 0, 0)
  {
    if k == 0 {
      states, steps := [Initial(users)], [];
      assert states[0] == Initial(users);
      states, steps := Extend(env, states, steps, Login(0, u, password, 0));
      assert states[1].threads == map[0 := Issuing(u, users[u].org, 0)];
      states, steps := Extend(env, states, steps, Mint(0, 0, "", 0));
      assert states[2].history == [PasswordOk(u, users[u], password), Minted(u, 0, 0)];
      assert states[2].threads == map[] && states[2].mintedAt == map[0 := 1];
      assert states[2].tokens == map[0 := RefreshToken(u, users[u].org, REFRESH_TTL, false)];
      assert Stage(states[2], u, 0, 0, 0, 0);
    } else {
      states, steps := LookUps(env, users, u, password, k - 1);
      states, steps := Extend(env, states, steps, LookUp(k - 1, 0, 0));
    }
  }

  lemma {:induction false} Revokes(env: Checks, users: map<Uuid, User>, u: Uuid, password: string, k: nat, j: nat)
    returns (states: seq<State>, steps: seq<Step>)
    requires u in users && !NeedsMfa(users[u]) && env.password(password, users[u].hash) && j <= k
    ensures Reached(env, states, steps, u, k, j, 0, 0)
  {
    if j == 0 {
      states, steps := LookUps(env, users, u, password, k);
    } else {
      states, steps := Revokes(env, users, u, password, k, j - 1);
      states, steps := Extend(env, states, steps, Revoke(j - 1));
    }
  }

  lemma {:induction false} Loads(env: Checks, users: map<Uuid, User>, u: Uuid, password: string, k: nat, j: nat)
    returns (states: seq<State>, steps: seq<Step>)
    requires u in users && !NeedsMfa(users[u]) && env.password(password, users[u].hash) && j <= k
    ensures Reached(env, states, steps, u, k, k, j, 0)
  {
    if j == 0 {
      states, steps := Revokes(env, users, u, password, k, k);
    } else {
      states, steps := Loads(env, users, u, password, k, j - 1);
      states, steps := Extend(env, states, steps, LoadUser(j - 1, true));
    }
  }

  lemma {:induction false} Mints(env: Checks, users: map<Uuid, User>, u: Uuid, password: string, k: nat, j: nat)
    returns (states: seq<State>, steps: seq<Step>)
    requires u in users && !NeedsMfa(users[u]) && env.password(password, users[u].hash) && j <= k
    ensures Reached(env, states, steps, u, k, k, k, j)
  {
    if j == 0 {
      states, steps := Loads(env, users, u, password, k, k);
    } else {
      states, steps := Mints(env, users, u, password, k, j - 1);
      states, steps := Extend(env, states, steps, Mint(j - 1, j, "", 0));
    }
  }

  // The bound of SuccessorsBound is attained for every k: k refreshes that look the token up before its first
  // revocation all succeed, and one login ends with k live tokens.
  lemma OverlapForks(env: Checks, users: map<Uuid, User>, u: Uuid, password: string, k: nat)
    returns (states: seq<State>, steps: seq<Step>)
    requires u in users && !NeedsMfa(users[u]) && env.password(password, users[u].hash)
    ensures Run(env, states, steps)
    ensures var s := states[|steps|];
      && |Children(s, 0)| == k && Children(s, 0) <= Live(s)
      && (forall y :: y in Children(s, 0) ==> y in s.mintedAt && LoginOfToken(s, y) == 0)
  {
    states, steps := Mints(env, users, u, password, k, k);
    var s := states[|steps|];
    RunInv(env, states, steps, |steps|);
    assert EntryOk(env, s.history, 1);
    forall y | y in Children(s, 0)
      ensures 1 <= y <= k && LoginOfToken(s, y) == 0
    {
      assert LoginOf(s.history, 1) == 0;
    }
    forall y | y in UpTo(k)
      ensures y in Children(s, 0)
    {
      assert s.history[y + 1] == Minted(u, y, 1);
    }
    assert Children(s, 0) == UpTo(k);
  }

  // ---- Whenever refreshes of one token overlap ----

  // From s to s' request t has ended, issuing y for x, and nothing else has happened.
  ghost predicate Finished(s: State, s': State, t: Tid, x: Token, y: Token) {
    && Toward(s, t, x) && y !in s.mintedAt && y in s'.mintedAt
    && s'.users == s.users && s'.threads == s.threads - {t} && s'.mintedAt.Keys == s.mintedAt.Keys + {y}
    && Children(s, x) + {y} <= Children(s', x)
    && (forall z :: z in s.tokens ==> z in s'.tokens && s'.tokens[z].user == s.tokens[z].user)
    && (forall z :: z in s.tokens && z != x ==> s'.tokens[z] == s.tokens[z])
    && (x in s.mintedAt ==> s'.mintedAt[x] == s.mintedAt[x])
    && y in s'.tokens && !s'.tokens[y].revoked
  }

  lemma FinishIssuing(env: Checks, states: seq<State>, steps: seq<Step>, t: Tid, x: Token, y: Token)
    returns (states': seq<State>, steps': seq<Step>)
    requires Run(env, states, steps) && y !in states[|steps|].mintedAt
    requires Toward(states[|steps|], t, x) && states[|steps|].threads[t].Issuing?
    ensures Run(env, states', steps') && states <= states' && Finished(states[|steps|], states'[|steps'|], t, x, y)
  {
    var s := states[|steps|];
    RunInv(env, states, steps, |steps|);
    states', steps' := Extend(env, states, steps, Mint(t, y, "", 0));
    ChildrenLast(env, s, Mint(t, y, "", 0), x);
    assert y in Children(states'[|steps'|], x);
  }

  lemma FinishRotated(env: Checks, states: seq<State>, steps: seq<Step>, t: Tid, x: Token, y: Token)
    returns (states': seq<State>, steps': seq<Step>)
    requires Run(env, states, steps) && y !in states[|steps|].mintedAt
    requires Toward(states[|steps|], t, x) && states[|steps|].threads[t].Rotated?
    requires states[|steps|].threads[t].user in states[|steps|].users
    ensures Run(env, states', steps') && states <= states' && Finished(states[|steps|], states'[|steps'|], t, x, y)
  {
    var s := states[|steps|];
    states', steps' := Extend(env, states, steps, LoadUser(t, true));
    var s1 := states'[|steps'|];
    assert Children(s1, x) == Children(s, x);
    states', steps' := FinishIssuing(env, states', steps', t, x, y);
  }

  lemma FinishFound(env: Checks, states: seq<State>, steps: seq<Step>, t: Tid, x: Token, y: Token)
    returns (states': seq<State>, steps': seq<Step>)
    requires Run(env, states, steps) && y !in states[|steps|].mintedAt
    requires Toward(states[|steps|], t, x) && states[|steps|].threads[t].Found?
    requires states[|steps|].threads[t].user in states[|steps|].users
    ensures Run(env, states', steps') && states <= states' && Finished(states[|steps|], states'[|steps'|], t, x, y)
  {
    states', steps' := Extend(env, states, steps, Revoke(t));
    assert Children(states'[|steps'|], x) == Children(states[|steps|], x);
    states', steps' := FinishRotated(env, states', steps', t, x, y);
  }

  // A request refreshing x for a user that still exists can run to its end alone.
  lemma Finish(env: Checks, states: seq<State>, steps: seq<Step>, t: Tid, x: Token, y: Token)
    returns (states': seq<State>, steps': seq<Step>)
    requires Run(env, states, steps) && y !in states[|steps|].mintedAt && Toward(states[|steps|], t, x)
    requires x in states[|steps|].tokens && states[|steps|].tokens[x].user in states[|steps|].users
    ensures Run(env, states', steps') && states <= states' && Finished(states[|steps|], states'[|steps'|], t, x, y)
  {
    var s := states[|steps|];
    RunInv(env, states, steps, |steps|);
    assert ThreadOk(s, s.threads[t]);
    match s.threads[t] {
      case Issuing(_, _, _) => states', steps' := FinishIssuing(env, states, steps, t, x, y);
      case Rotated(_, _) => states', steps' := FinishRotated(env, states, steps, t, x, y);
      case Found(_, _) => states', steps' := FinishFound(env, states, steps, t, x, y);
    }
  }

  lemma ChildLogin(env: Checks, s: State, y: Token, x: Token)
    requires Inv(env, s) && ChildOf(s, y, x)
    ensures LoginOfToken(s, y) == LoginOfToken(s, x)
  {
    CausesEarlier(env, s);
  }

  // From every reachable state in which two requests are refreshing one token, whose user still exists, the run can
  // go on so that both succeed and the login has two live tokens. So RefreshedOnce and LoginChain need their
  // hypothesis.
  lemma DoubleFlightForks(env: Checks, states: seq<State>, steps: seq<Step>, x: Token, t: Tid, t': Tid, y: Token,
                          y': Token)
    returns (states': seq<State>, steps': seq<Step>)
    requires Run(env, states, steps) && t != t' && y != y'
    requires Toward(states[|steps|], t, x) && Toward(states[|steps|], t', x)
    requires y !in states[|steps|].mintedAt && y' !in states[|steps|].mintedAt
    requires x in states[|steps|].tokens && states[|steps|].tokens[x].user in states[|steps|].users
    ensures Run(env, states', steps') && states <= states'
    ensures var s := states'[|steps'|];
      && {y, y'} <= Children(s, x) && {y, y'} <= Live(s)
      && x in s.mintedAt && OfLogin(s, y, LoginOfToken(s, x)) && OfLogin(s, y', LoginOfToken(s, x))
  {
    RunInv(env, states, steps, |steps|);
    states', steps' := Finish(env, states, steps, t, x, y);
    var s1 := states'[|steps'|];
    states', steps' := Finish(env, states', steps', t', x, y');
    var s2 := states'[|steps'|];
    RunInv(env, states', steps', |steps'|);
    assert y in s1.tokens && y != x;
    assert y in Children(s2, x) && y' in Children(s2, x);
    ChildLogin(env, s2, y, x);
    ChildLogin(env, s2, y', x);
  }

  // Likewise when a token that has been refreshed can still be looked up, as after a revocation that failed.
  lemma UnrevokedForks(env: Checks, states: seq<State>, steps: seq<Step>, x: Token, at: Time, t: Tid, y: Token)
    returns (states': seq<State>, steps': seq<Step>)
    requires Run(env, states, steps) && t !in states[|steps|].threads && y !in states[|steps|].mintedAt
    requires Usable(states[|steps|].tokens, x, at) && states[|steps|].tokens[x].user in states[|steps|].users
    ensures Run(env, states', steps') && states <= states'
    ensures Children(states[|steps|], x) + {y} <= Children(states'[|steps'|], x)
    ensures y !in Children(states[|steps|], x)
  {
    RunInv(env, states, steps, |steps|);
    states', steps' := Extend(env, states, steps, LookUp(t, x, at));
    assert Children(states'[|steps'|], x) == Children(states[|steps|], x);
    states', steps' := Finish(env, states', steps', t, x, y);
  }

  // 1..k
  function UpTo(k: nat): (r: set<Token>)
    ensures |r| == k
    ensures forall y :: y in r <==> 1 <= y <= k
  {
    if k == 0 then {} else UpTo(k - 1) + {k}
  }
}
