// The checks behind a login put in place: what the provenance of a refresh token means with the password and the
// one-time code verified as the auth package does.
module Credentials {
  import opened Common
  import opened Passwords
  import TokenRotation
  import Text
  import Totp

  // Instants in Unix seconds, rounded down.
  function UnixSeconds(at: Time): int {
    at / SECOND
  }

  ghost function ChecksOf(kdf: Kdf, otp: Totp.Otp): TokenRotation.Checks {
    TokenRotation.Checks(
      (password, hash) => VerifyPassword(kdf, password, hash).Ok?,
      (secret, code, at) => Totp.Accepts(otp, secret, code, UnixSeconds(at)))
  }

  // The password derives the key that the user's record holds.
  predicate Derives(kdf: Kdf, password: string, stored: string) {
    var parsed := Parse(stored);
    parsed.Ok? &&
    var st := parsed.value;
    kdf(password, st.salt, st.iterations, st.memory, st.parallelism, |st.hash| % UINT32) == Some(st.hash)
  }

  // The code is that of a decodable secret for the time step, the one before or the one after.
  predicate InWindow(otp: Totp.Otp, secret: string, code: string, t: int) {
    var key, step := Totp.DecodeKey(secret), Totp.StepOf(t);
    key.Some? && Text.Trim(code) in {otp(key.value, step - 1), otp(key.value, step), otp(key.value, step + 1)}
  }

  lemma VerifiedDerives(kdf: Kdf, password: string, stored: string)
    ensures VerifyPassword(kdf, password, stored).Ok? <==> Derives(kdf, password, stored)
  {
  }

  lemma AcceptedInWindow(otp: Totp.Otp, secret: string, code: string, t: int)
    requires Totp.PERIOD <= t
    ensures Totp.Accepts(otp, secret, code, t) <==> InWindow(otp, secret, code, t)
  {
    if Totp.DecodeKey(secret).Some? { Totp.DriftWindow(otp, secret, code, t); }
  }

  // Entry `from` goes back to a login of user u by a password, completed by a code where one was needed.
  ghost predicate Earned(kdf: Kdf, otp: Totp.Otp, h: seq<TokenRotation.Entry>, from: nat, u: Uuid) {
    var r := TokenRotation.Root(h, from);
    && r < |h| && h[r].PasswordOk? && h[r].user == u && Derives(kdf, h[r].password, h[r].record.hash)
    && (TokenRotation.NeedsMfa(h[r].record) ==>
          exists k :: 0 <= k < |h| && TokenRotation.Ancestor(h, from, k) && CodeGiven(otp, h[k], u))
  }

  predicate CodeGiven(otp: Totp.Otp, e: TokenRotation.Entry, u: Uuid) {
    && e.CodeOk? && e.user == u
    && (Totp.PERIOD <= UnixSeconds(e.at) ==> InWindow(otp, e.secret, e.code, UnixSeconds(e.at)))
  }

  lemma AcceptedIsGiven(kdf: Kdf, otp: Totp.Otp, e: TokenRotation.Entry, u: Uuid)
    requires e.CodeOk? && e.user == u && ChecksOf(kdf, otp).totp(e.secret, e.code, e.at)
    ensures CodeGiven(otp, e, u)
  {
    if Totp.PERIOD <= UnixSeconds(e.at) { AcceptedInWindow(otp, e.secret, e.code, UnixSeconds(e.at)); }
  }

  // In every run and interleaving, behind every refresh token there is a password of its user that derives the key
  // on record and, if MFA was enabled with a secret, a one-time code of that user within a step of its time.
  lemma TokensAreEarned(kdf: Kdf, otp: Totp.Otp, states: seq<TokenRotation.State>, steps: seq<TokenRotation.Step>,
                        i: nat, y: TokenRotation.Token)
    requires TokenRotation.Run(ChecksOf(kdf, otp), states, steps) && i < |states| && y in states[i].tokens
    ensures y in states[i].mintedAt
    ensures Earned(kdf, otp, states[i].history, states[i].mintedAt[y], states[i].tokens[y].user)
  {
    var env := ChecksOf(kdf, otp);
    TokenRotation.Provenance(env, states, steps, i, y);
    var h, u, from := states[i].history, states[i].tokens[y].user, states[i].mintedAt[y];
    var r := TokenRotation.Root(h, from);
    VerifiedDerives(kdf, h[r].password, h[r].record.hash);
    if TokenRotation.NeedsMfa(h[r].record) {
      var k :| 0 <= k < |h| && TokenRotation.Ancestor(h, from, k) && h[k].CodeOk? && h[k].user == u
            && env.totp(h[k].secret, h[k].code, h[k].at);
      AcceptedIsGiven(kdf, otp, h[k], u);
    }
  }
}
