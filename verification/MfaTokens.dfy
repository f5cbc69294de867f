/** What one verification of an MFA token does when nothing comes in between. The use case deletes the
    token before it issues the session, but does not look at whether that worked. */
module MfaTokens {
  import opened Wrappers
  import opened Users
  import opened Store
  import opened Invariant
  import opened Machine
  import opened Serial
  import opened History
  import opened Claims
  import Email
  import Sessions

  /** Where the n-th operation of a verification is. */
  function VerifyAt(p: Proc, token: string): Option<nat> {
    if !p.Session? then None
    else
      match p.s
      case VerifyGet(t, _) => if t == token then Some(0) else None
      case VerifyFind(t, _, _) => if t == token then Some(1) else None
      case VerifyCheck(t, _, _) => if t == token then Some(2) else None
      case VerifyDel(t, _) => if t == token then Some(3) else None
      case VerifySign(t, _) => if t == token then Some(4) else None
      case VerifyMintRefresh(t, _) => if t == token then Some(5) else None
      case _ => None
  }

  /** Each operation of a verification either fails it or leads to the next; only the fourth and the
      last one change tokens, and the last one no MFA token. */
  lemma VerifyAdvances(cfg: Config, sh: Shared, p: Proc, ch: Choice, token: string)
    requires VerifyAt(p, token).Some?
    ensures var (t, q) := Advance(cfg, sh, p, ch);
            var at := VerifyAt(p, token).value;
            && (q.Finished? ==> q.outcome.Failure? || at == 5)
            && (!q.Finished? ==> at < 5 && VerifyAt(q, token) == Some(at + 1))
  {
  }

  lemma VerifyTokens(cfg: Config, sh: Shared, p: Proc, ch: Choice, token: string)
    requires VerifyAt(p, token).Some?
    ensures var t, k := Advance(cfg, sh, p, ch).0, Key(Mfa, token);
            k in t.tokens <==> k in sh.tokens && !(VerifyAt(p, token) == Some(3) && ch.fault != Lost)
  {
    TokensAfter(cfg, sh, NextOp(p), ch);
  }

  lemma {:induction false} VerifyLeaves(cfg: Config, sh: Shared, p: Proc, env: Env, n: nat, token: string)
    requires VerifyAt(p, token).Some?
    ensures var end, at := Finish(cfg, sh, p, env, n), VerifyAt(p, token).value;
            end.outcome.Success? ==>
              (Key(Mfa, token) in end.sh.tokens <==>
                 Key(Mfa, token) in sh.tokens && (at <= 3 ==> env(n + 3 - at).fault == Lost))
    decreases Stage(p), Left(p)
  {
    hide Advance;
    var (t, q) := Advance(cfg, sh, p, env(n));
    VerifyAdvances(cfg, sh, p, env(n), token);
    VerifyTokens(cfg, sh, p, env(n), token);
    if !q.Finished? {
      VerifyLeaves(cfg, t, q, env, n + 1, token);
    }
  }

  lemma VerifyStarts(cfg: Config, sh: Shared, token: string, code: string, ch: Choice)
    ensures Key(Mfa, token) !in sh.tokens ==>
              var (t, q) := Advance(cfg, sh, Begin(cfg, VerifyMFA(token, code)), ch); q.Finished? && q.outcome.Failure?
  {
    GetAnswers(cfg, sh, Key(Mfa, token), ch);
  }

  /** A successful verification needs the token stored, and leaves it stored exactly when its deletion
      did not take effect. */
  lemma VerifyUsesUpExactlyWhen(cfg: Config, sh: Shared, token: string, code: string, env: Env, n: nat)
    ensures var end := Do(cfg, sh, Request(VerifyMFA(token, code)), env, n);
            end.outcome.Success? ==>
              Key(Mfa, token) in sh.tokens && (Key(Mfa, token) in end.sh.tokens <==> env(n + 3).fault == Lost)
  {
    var p := Begin(cfg, VerifyMFA(token, code));
    VerifyStarts(cfg, sh, token, code, env(n));
    var (t, q) := Advance(cfg, sh, p, env(n));
    assert Do(cfg, sh, Request(VerifyMFA(token, code)), env, n) == Finish(cfg, t, q, env, n + 1);
    VerifyLeaves(cfg, sh, p, env, n, token);
  }

  // ---------- When a verification succeeds ----------

  ghost predicate NoFaults(env: Env, from: nat, count: nat) {
    forall i :: from <= i < from + count ==> env(i).fault.Fine?
  }

  /** The MFA token is replaced by a session of this user, which lives a week from now. */
  predicate Exchanged(before: Shared, after: Shared, token: string, minted: string, id: Id) {
    && after.users == before.users
    && after.tokens == (before.tokens - {Key(Mfa, token)})[
         Key(Refresh, minted) := Entry(id, after.now + 604_800_000_000_000)]
  }

  /** The last three operations, without faults. */
  lemma VerifyEnds(cfg: Config, sh: Shared, u: UserState, env: Env, n: nat, token: string)
    requires NoFaults(env, n, 3)
    ensures var end := Finish(cfg, sh, Session(Sessions.VerifyDel(token, u)), env, n);
            end.outcome == Success(Tokens(u, env(n + 2).random)) && end.n == n + 3
            && Exchanged(sh, end.sh, token, env(n + 2).random, u.id)
  {
    hide Advance;
    var p := Session(Sessions.VerifyDel(token, u));
    DelAdvances(cfg, sh, u, env(n), token);
    var (t1, p1) := Advance(cfg, sh, p, env(n));
    var t2, p2 := SignAdvances(cfg, t1, u, env(n + 1), token);
    var t3, p3 := MintAdvances(cfg, t2, u, env(n + 2), token);
    assert Finish(cfg, sh, p, env, n) == Finish(cfg, t1, p1, env, n + 1);
    assert Finish(cfg, t1, p1, env, n + 1) == Finish(cfg, t2, p2, env, n + 2) == Finish(cfg, t3, p3, env, n + 3);
  }

  lemma DelAdvances(cfg: Config, sh: Shared, u: UserState, ch: Choice, token: string)
    requires ch.fault.Fine?
    ensures var (t, q) := Advance(cfg, sh, Session(Sessions.VerifyDel(token, u)), ch);
            q == Session(Sessions.VerifySign(token, u)) && t.users == sh.users
            && t.tokens == sh.tokens - {Key(Mfa, token)}
  {
  }

  lemma SignAdvances(cfg: Config, sh: Shared, u: UserState, ch: Choice, token: string) returns (t: Shared, q: Proc)
    requires ch.fault.Fine?
    ensures (t, q) == Advance(cfg, sh, Session(Sessions.VerifySign(token, u)), ch)
    ensures q == Session(Sessions.VerifyMintRefresh(token, u)) && t == Later(sh, ch)
  {
    t, q := Later(sh, ch), Session(Sessions.VerifyMintRefresh(token, u));
  }

  lemma MintAdvances(cfg: Config, sh: Shared, u: UserState, ch: Choice, token: string) returns (t: Shared, q: Proc)
    requires ch.fault.Fine?
    ensures (t, q) == Advance(cfg, sh, Session(Sessions.VerifyMintRefresh(token, u)), ch)
    ensures q == Finished(Success(Tokens(u, ch.random))) && t.users == sh.users
    ensures t.tokens == sh.tokens[Key(Refresh, ch.random) := Entry(u.id, t.now + 604_800_000_000_000)]
  {
    var r := Advance(cfg, sh, Session(Sessions.VerifyMintRefresh(token, u)), ch);
    t, q := r.0, r.1;
  }

  lemma CheckAdvances(cfg: Config, sh: Shared, u: UserState, ch: Choice, token: string, code: string)
    requires ch.fault.Fine?
    ensures Advance(cfg, sh, Session(Sessions.VerifyCheck(token, code, u)), ch) ==
              (Later(sh, ch), if cfg.totp(code, u.totpSecret, sh.now + ch.delay)
                  then Session(Sessions.VerifyDel(token, u))
                              else Finished(Failure(InvalidTOTPCode)))
  {
  }

  lemma VerifyChecks(cfg: Config, sh: Shared, u: UserState, env: Env, n: nat, token: string, code: string)
    requires NoFaults(env, n, 4)
    ensures var end := Finish(cfg, sh, Session(Sessions.VerifyCheck(token, code, u)), env, n);
            if cfg.totp(code, u.totpSecret, sh.now + env(n).delay)
            then end.outcome == Success(Tokens(u, env(n + 3).random)) && end.n == n + 4
                && Exchanged(sh, end.sh, token, env(n + 3).random, u.id)
            else end.outcome == Failure(InvalidTOTPCode)
  {
    hide Advance;
    var p := Session(Sessions.VerifyCheck(token, code, u));
    var (t, q) := Advance(cfg, sh, p, env(n));
    CheckAdvances(cfg, sh, u, env(n), token, code);
    assert Finish(cfg, sh, p, env, n) == Finish(cfg, t, q, env, n + 1);
    VerifyEnds(cfg, t, u, env, n + 1, token);
  }

  /** The user a stored token names is found, with the secret of its row. */
  lemma VerifyFinds(cfg: Config, sh: Shared, id: Id, ch: Choice, token: string, code: string)
    returns (t: Shared, u: UserState)
    requires ShOk(cfg, sh) && Email.FixesEmails(cfg.normalise) && id in sh.users && ch.fault.Fine?
    ensures (t, Session(Sessions.VerifyCheck(token, code, u)))
        == Advance(cfg, sh, Session(Sessions.VerifyFind(token, code, id)), ch)
    ensures t == Later(sh, ch) && ShowsRow(u, sh.users[id]) && u.id == id
  {
    hide ShOk, ShowsRow;
    t := Later(sh, ch);
    RowKnown(cfg, sh, id);
    LoadShowsRow(cfg, sh.users[id], t.now);
    u := Loaded(cfg, sh.users[id], t.now).user;
    SameId(u, sh.users[id]);
  }

  lemma VerifyReads(cfg: Config, sh: Shared, ch: Choice, token: string, code: string)
    requires ch.fault.Fine?
    ensures var k, now := Key(Mfa, token), sh.now + ch.delay;
            Advance(cfg, sh, Begin(cfg, VerifyMFA(token, code)), ch) ==
              (Later(sh, ch), if k in sh.tokens && now < sh.tokens[k].expires
                              then Session(Sessions.VerifyFind(token, code, sh.tokens[k].userId))
                              else Finished(Failure(InvalidMFAToken)))
  {
  }

  lemma NamesUser(cfg: Config, sh: Shared, k: Key)
    requires ShOk(cfg, sh) && cfg.topology.TokensFromUserEvents() && k in sh.tokens
    ensures sh.tokens[k].userId in sh.users
  {
  }

  /** Without faults, a verification succeeds exactly when the token is stored and has not expired when
      it is read, and the code is valid for the secret in the row of the user the token names. The session it
      returns shows that row, roles included, and takes the place of the token for a week. */
  lemma VerifySucceedsExactlyWhen(cfg: Config, sh: Shared, token: string, code: string, env: Env, n: nat)
    requires ShOk(cfg, sh) && Email.FixesEmails(cfg.normalise) && cfg.topology.TokensFromUserEvents()
    requires NoFaults(env, n, 6)
    ensures var end, k := Do(cfg, sh, Request(VerifyMFA(token, code)), env, n), Key(Mfa, token);
            if && k in sh.tokens
               && sh.now + env(n).delay < sh.tokens[k].expires
               && sh.tokens[k].userId in sh.users
               && cfg.totp(code, sh.users[sh.tokens[k].userId].totpSecret,
                           sh.now + env(n).delay + env(n + 1).delay + env(n + 2).delay)
            then
              && end.outcome.Success? && end.outcome.body.Tokens?
              && ShowsRow(end.outcome.body.user, sh.users[sh.tokens[k].userId])
              && Exchanged(sh, end.sh, token, end.outcome.body.refreshToken, sh.tokens[k].userId)
            else end.outcome.Failure?
  {
    hide Advance, ShOk;
    var k, p := Key(Mfa, token), Begin(cfg, VerifyMFA(token, code));
    var (t, q) := Advance(cfg, sh, p, env(n));
    VerifyReads(cfg, sh, env(n), token, code);
    assert Do(cfg, sh, Request(VerifyMFA(token, code)), env, n) == Finish(cfg, t, q, env, n + 1);
    if !q.Finished? {
      LaterOk(cfg, sh, env(n));
      NamesUser(cfg, sh, k);
      var t2, u := VerifyFinds(cfg, t, sh.tokens[k].userId, env(n + 1), token, code);
      assert Finish(cfg, t, q, env, n + 1)
          == Finish(cfg, t2, Session(Sessions.VerifyCheck(token, code, u)), env, n + 2);
      VerifyChecks(cfg, t2, u, env, n + 2, token, code);
    }
  }
}
