/** What every use case and message handler answers, whichever of its dependencies fail on the way: which failures it
    goes on in spite of, and with which error the others end it. */
module Failures {
  import opened Wrappers
  import opened Users
  import opened Store
  import opened Invariant
  import opened Machine
  import opened Serial
  import opened History
  import opened Claims
  import opened MfaTokens
  import opened Outcomes
  import Email
  import Sessions

  /** The n-th operation takes effect and says so. */
  predicate Works(env: Env, n: nat) {
    env(n).fault.Fine?
  }

  // ---------- One operation ----------

  /** What an operation that works answers, apart from lookups of users. */
  ghost predicate Answers(cfg: Config, sh: Shared, op: Op, ch: Choice, now: Time, reply: Reply) {
    match op
    case SaveCommand(_, _) => reply == Done
    case Sign(_) => reply == Done
    case Del(_) => reply == Done
    case SetProfile(_) => reply == Done
    case Mint(_, _) => reply == Minted(ch.random)
    case NewSecret => reply == Minted(ch.random)
    case Hash(password) =>
      var hash := cfg.hash(password, ch.salt);
      reply == if password == "" || hash == "" then Failed else Hashed(hash)
    case Compare(password, hash) =>
      var answer := cfg.compare(password, hash);
      reply == if answer.CompareError? then Failed else Compared(answer.matches, answer.needsUpgrade)
    case CheckTotp(code, secret) => reply == Checked(cfg.totp(code, secret, now))
    case Get(k) => reply == if k in sh.tokens && now < sh.tokens[k].expires then Got(sh.tokens[k].userId) else Absent
    case GetProfile(id) =>
      reply == if id in sh.profiles && now < sh.profiles[id].expires then Cached(sh.profiles[id].profile) else Absent
    case Update(u) => reply == if u.id in sh.users && |u.totpSecret| > 128 then Failed else Done
    case UpdateRoles(id, roles) => reply == if id in sh.users && roles.None? then Failed else Done
    case Save(email, _) =>
      reply == if ch.random in sh.users || EmailTaken(sh.users, email) || |email| > 255 then Failed else Done
    case FindByID(id) => reply == if id in sh.users then Loaded(cfg, sh.users[id], now) else Absent
    case FindByEmail(email) =>
      var row := RowByEmail(sh.users, email);
      reply == if row.Some? then Loaded(cfg, row.value, now) else Absent
    case _ => true
  }

  predicate OnlyReads(op: Op) {
    op.FindByEmail? || op.FindByID? || op.Get? || op.Hash? || op.Compare? || op.CheckTotp? || op.NewSecret?
    || op.GetProfile? || op.ReplicaFind?
  }

  lemma Replies(cfg: Config, sh: Shared, op: Op, ch: Choice)
    requires !op.Ack? && !op.Nack?
    ensures var (t, reply) := Exec(cfg, sh, op, ch);
            && t.now == sh.now + ch.delay
            && (OnlyReads(op) ==> t == Later(sh, ch))
            && (if ch.fault.Fine? then Answers(cfg, sh, op, ch, t.now, reply) else reply == Failed)
  {
    if OnlyReads(op) {
      ReadReplies(cfg, sh, op, ch);
    } else {
      WriteReplies(cfg, sh, op, ch);
    }
  }

  lemma ReadReplies(cfg: Config, sh: Shared, op: Op, ch: Choice)
    requires OnlyReads(op)
    ensures var (t, reply) := Exec(cfg, sh, op, ch);
            t == Later(sh, ch) && (if ch.fault.Fine? then Answers(cfg, sh, op, ch, t.now, reply) else reply == Failed)
  {
    hide Loaded, RowByEmail;
  }

  lemma WriteReplies(cfg: Config, sh: Shared, op: Op, ch: Choice)
    requires !OnlyReads(op) && !op.Ack? && !op.Nack?
    ensures var (t, reply) := Exec(cfg, sh, op, ch);
            && t.now == sh.now + ch.delay
            && (if ch.fault.Fine? then Answers(cfg, sh, op, ch, t.now, reply) else reply == Failed)
  {
    hide Loaded, RowByEmail, EmailTaken, Marked, Overwritten, IsBatch, ItemsAt;
  }

  /** One operation of a process, and the rest from there. */
  lemma Goes(cfg: Config, sh: Shared, p: Proc, env: Env, n: nat) returns (t: Shared, reply: Reply)
    requires !p.Finished? && !p.Settling?
    ensures t.now == sh.now + env(n).delay && (OnlyReads(NextOp(p)) ==> t == Later(sh, env(n)))
    ensures if Works(env, n) then Answers(cfg, sh, NextOp(p), env(n), t.now, reply) else reply == Failed
    ensures (t, reply) == Exec(cfg, sh, NextOp(p), env(n))
    ensures var q := Resume(cfg, p, reply, t.now);
            Finish(cfg, sh, p, env, n) == if q.Finished? then End(t, q.outcome, n + 1)
                                          else Finish(cfg, t, q, env, n + 1)
  {
    hide Exec, Resume, Answers;
    Replies(cfg, sh, NextOp(p), env(n));
    var r := Exec(cfg, sh, NextOp(p), env(n));
    t, reply := r.0, r.1;
  }

  lemma Ended(cfg: Config, sh: Shared, outcome: Outcome, env: Env, n: nat)
    ensures Finish(cfg, sh, Finished(outcome), env, n) == End(sh, outcome, n)
  {
  }

  lemma FoundById(cfg: Config, sh: Shared, id: Id, now: Time)
    requires ShOk(cfg, sh) && Email.FixesEmails(cfg.normalise) && id in sh.users
    ensures var reply := Loaded(cfg, sh.users[id], now);
            reply.Found? && ShowsRow(reply.user, sh.users[id]) && reply.user.id == id && |reply.user.totpSecret| <= 128
  {
    hide ShOk;
    RowsRestorable(cfg, sh, id);
    LoadShowsRow(cfg, sh.users[id], now);
  }

  lemma FoundByEmail(cfg: Config, sh: Shared, email: string, now: Time)
    requires ShOk(cfg, sh) && Email.FixesEmails(cfg.normalise) && RowByEmail(sh.users, email).Some?
    ensures var row := RowByEmail(sh.users, email).value;
            var reply := Loaded(cfg, row, now);
            reply.Found? && ShowsRow(reply.user, row) && reply.user.hash != ""
  {
    hide ShOk;
    var row := RowByEmail(sh.users, email).value;
    var id :| id in sh.users && sh.users[id] == row;
    RowsRestorable(cfg, sh, id);
    LoadShowsRow(cfg, row, now);
  }

  // ---------- Sessions ----------

  /** The answer is a session of the user in this row, with this refresh token. */
  ghost predicate IsSession(outcome: Outcome, row: UserState, refreshToken: string) {
    outcome.Success? && outcome.body.Tokens? && ShowsRow(outcome.body.user, row)
    && outcome.body.refreshToken == refreshToken
  }

  predicate LiveThen(sh: Shared, k: Key, at: Time) {
    k in sh.tokens && at < sh.tokens[k].expires
  }

  /** The code is valid at this time for the secret in the user's row. */
  predicate CodeValidFor(cfg: Config, users: UserTable, id: Id, code: string, at: Time) {
    id in users && cfg.totp(code, users[id].totpSecret, at)
  }

  lemma VerifyIssues(cfg: Config, sh: Shared, u: UserState, env: Env, n: nat, token: string)
    ensures Finish(cfg, sh, Session(Sessions.VerifySign(token, u)), env, n).outcome
         == if Works(env, n) && Works(env, n + 1) then Success(Tokens(u, env(n + 1).random)) else Failure(Dependency)
  {
    hide Exec, Finish;
    var t, signed := Goes(cfg, sh, Session(Sessions.VerifySign(token, u)), env, n);
    if Works(env, n) {
      var t1, stored := Goes(cfg, t, Session(Sessions.VerifyMintRefresh(token, u)), env, n + 1);
    }
  }

  lemma VerifyEndsWith(cfg: Config, sh: Shared, u: UserState, env: Env, n: nat, token: string)
    ensures Finish(cfg, sh, Session(Sessions.VerifyDel(token, u)), env, n).outcome
         == if Works(env, n + 1) && Works(env, n + 2) then Success(Tokens(u, env(n + 2).random))
            else Failure(Dependency)
  {
    hide Exec, Finish, Answers;
    var t, deleted := Goes(cfg, sh, Session(Sessions.VerifyDel(token, u)), env, n);
    VerifyIssues(cfg, t, u, env, n + 1, token);
  }

  lemma FoundVerification(cfg: Config, sh: Shared, id: Id, env: Env, n: nat, token: string, code: string)
    requires ShOk(cfg, sh) && Email.FixesEmails(cfg.normalise) && id in sh.users
    ensures var outcome := Finish(cfg, sh, Session(Sessions.VerifyFind(token, code, id)), env, n).outcome;
            var valid := CodeValidFor(cfg, sh.users, id, code, sh.now + env(n).delay + env(n + 1).delay);
            if Works(env, n) && Works(env, n + 1) && valid && Works(env, n + 3) && Works(env, n + 4)
            then IsSession(outcome, sh.users[id], env(n + 4).random)
            else outcome == Failure(if Works(env, n) && (!Works(env, n + 1) || !valid) then InvalidTOTPCode
                                    else Dependency)
  {
    hide Exec, Finish, ShOk, Loaded;
    var t, found := Goes(cfg, sh, Session(Sessions.VerifyFind(token, code, id)), env, n);
    if Works(env, n) {
      FoundById(cfg, sh, id, t.now);
      var u := found.user;
      var t1, checked := Goes(cfg, t, Session(Sessions.VerifyCheck(token, code, u)), env, n + 1);
      if checked == Checked(true) {
        VerifyEndsWith(cfg, t1, u, env, n + 2, token);
      }
    }
  }

  /** Whatever fails: a verification issues a session exactly when the token is live at its read, the code is valid,
      and every operation works but, perhaps, the deletion of the token; and it says of anything that goes wrong
      with the code, the check itself included, that the code is not valid. */
  lemma VerifyOutcome(cfg: Config, sh: Shared, token: string, code: string, env: Env, n: nat)
    requires ShOk(cfg, sh) && Email.FixesEmails(cfg.normalise) && cfg.topology.TokensFromUserEvents()
    ensures var outcome, k := Do(cfg, sh, Request(VerifyMFA(token, code)), env, n).outcome, Key(Mfa, token);
            if !Works(env, n) then outcome == Failure(Dependency)
            else if !LiveThen(sh, k, sh.now + env(n).delay) then outcome == Failure(InvalidMFAToken)
            else
              var id := sh.tokens[k].userId;
              var valid := CodeValidFor(cfg, sh.users, id, code,
                  sh.now + env(n).delay + env(n + 1).delay + env(n + 2).delay);
              if Works(env, n + 1) && Works(env, n + 2) && valid && Works(env, n + 4) && Works(env, n + 5)
              then id in sh.users && IsSession(outcome, sh.users[id], env(n + 5).random)
              else outcome == Failure(if Works(env, n + 1) && (!Works(env, n + 2) || !valid) then InvalidTOTPCode
                                      else Dependency)
  {
    hide Exec, Finish, ShOk, IsSession, Answers;
    var k := Key(Mfa, token);
    var t, read := Goes(cfg, sh, Session(Sessions.VerifyGet(token, code)), env, n);
    ReadAnswers(cfg, sh, k, env(n), t.now, read);
    if read.Got? {
      LaterOk(cfg, sh, env(n));
      NamesUser(cfg, sh, k);
      FoundVerification(cfg, t, sh.tokens[k].userId, env, n + 1, token, code);
    }
  }

  lemma ReadAnswers(cfg: Config, sh: Shared, k: Key, ch: Choice, now: Time, reply: Reply)
    requires if ch.fault.Fine? then Answers(cfg, sh, Get(k), ch, now, reply) else reply == Failed
    ensures reply == if !ch.fault.Fine? then Failed
                     else if LiveThen(sh, k, now) then Got(sh.tokens[k].userId) else Absent
  {
  }

  lemma RotationEndsWith(cfg: Config, sh: Shared, u: UserState, env: Env, n: nat, token: string)
    ensures Finish(cfg, sh, Session(Sessions.RefreshMint(token, u)), env, n).outcome
         == if Works(env, n) && Works(env, n + 1) then Success(Tokens(u, env(n).random)) else Failure(Dependency)
  {
    hide Exec, Finish;
    var t, stored := Goes(cfg, sh, Session(Sessions.RefreshMint(token, u)), env, n);
    var minted := if stored.Minted? then Some(stored.token) else None;
    var t1, deleted := Goes(cfg, t, Session(Sessions.RefreshDel(token, u, minted)), env, n + 1);
  }

  lemma FoundRefresh(cfg: Config, sh: Shared, id: Id, env: Env, n: nat, token: string)
    requires ShOk(cfg, sh) && Email.FixesEmails(cfg.normalise) && id in sh.users
    ensures var outcome := Finish(cfg, sh, Session(Sessions.RefreshFind(token, id)), env, n).outcome;
            if Works(env, n) && Works(env, n + 1) && Works(env, n + 2) && Works(env, n + 3)
            then IsSession(outcome, sh.users[id], env(n + 2).random)
            else outcome == Failure(Dependency)
  {
    hide Exec, Finish, ShOk, Loaded;
    var t, found := Goes(cfg, sh, Session(Sessions.RefreshFind(token, id)), env, n);
    if Works(env, n) {
      FoundById(cfg, sh, id, t.now);
      var u := found.user;
      var t1, signed := Goes(cfg, t, Session(Sessions.RefreshSign(token, u)), env, n + 1);
      if Works(env, n + 1) {
        RotationEndsWith(cfg, t1, u, env, n + 2, token);
      }
    }
  }

  /** Whatever fails: a refresh issues a session exactly when the token is live at its read and all five operations
      work. */
  lemma RefreshOutcome(cfg: Config, sh: Shared, token: string, env: Env, n: nat)
    requires ShOk(cfg, sh) && Email.FixesEmails(cfg.normalise) && cfg.topology.TokensFromUserEvents()
    ensures var outcome, k := Do(cfg, sh, Request(RefreshToken(token)), env, n).outcome, Key(Refresh, token);
            if !Works(env, n) then outcome == Failure(Dependency)
            else if !LiveThen(sh, k, sh.now + env(n).delay) then outcome == Failure(InvalidRefreshToken)
            else
              var id := sh.tokens[k].userId;
              if Works(env, n + 1) && Works(env, n + 2) && Works(env, n + 3) && Works(env, n + 4)
              then id in sh.users && IsSession(outcome, sh.users[id], env(n + 3).random)
              else outcome == Failure(Dependency)
  {
    hide Exec, Finish, ShOk, IsSession, Answers;
    var k := Key(Refresh, token);
    var t, read := Goes(cfg, sh, Session(Sessions.RefreshGet(token)), env, n);
    ReadAnswers(cfg, sh, k, env(n), t.now, read);
    if read.Got? {
      LaterOk(cfg, sh, env(n));
      NamesUser(cfg, sh, k);
      FoundRefresh(cfg, t, sh.tokens[k].userId, env, n + 1, token);
    }
  }

  /** A logout succeeds exactly when its one operation works. */
  lemma LogoutOutcome(cfg: Config, sh: Shared, token: string, env: Env, n: nat)
    ensures Do(cfg, sh, Request(Logout(token)), env, n).outcome
         == if Works(env, n) then Success(Nothing) else Failure(Dependency)
  {
    hide Exec, Finish;
    var t, deleted := Goes(cfg, sh, Session(Sessions.LogoutDel(token)), env, n);
  }

  /** How the second half of a login ends, from its n-th operation on. */
  ghost predicate LoginEndsWith(outcome: Outcome, row: UserState, env: Env, n: nat) {
    if row.mfaEnabled then
      outcome == if Works(env, n) then Success(MFARequired(row.id, env(n).random)) else Failure(Dependency)
    else if Works(env, n) && Works(env, n + 1) then IsSession(outcome, row, env(n + 1).random)
    else outcome == Failure(Dependency)
  }

  lemma SecondHalf(cfg: Config, sh: Shared, u: UserState, row: UserState, env: Env, n: nat)
    requires ShowsRow(u, row)
    ensures LoginEndsWith(Finish(cfg, sh, OfSession(Sessions.SecondFactor(u)), env, n).outcome, row, env, n)
  {
    hide Exec, Finish;
    if u.mfaEnabled {
      var t, stored := Goes(cfg, sh, Session(Sessions.LoginMintMfa(u)), env, n);
    } else {
      var t, signed := Goes(cfg, sh, Session(Sessions.LoginSign(u)), env, n);
      if Works(env, n) {
        var t1, stored := Goes(cfg, t, Session(Sessions.LoginMintRefresh(u)), env, n + 1);
      }
    }
  }

  /** Operations that go into the upgrade of a password: none unless one is asked for; hashing it; and queueing the
      command if that worked. */
  function UpgradeOps(cfg: Config, password: string, needsUpgrade: bool, env: Env, n: nat): nat {
    if !needsUpgrade then 0
    else if Works(env, n) && password != "" && cfg.hash(password, env(n).salt) != "" then 2
    else 1
  }

  lemma UpgradeHarmless(cfg: Config, sh: Shared, u: UserState, row: UserState, password: string, env: Env, n: nat)
    requires ShowsRow(u, row)
    ensures LoginEndsWith(Finish(cfg, sh, Session(Sessions.LoginRehash(u, password)), env, n).outcome, row, env,
        n + UpgradeOps(cfg, password, true, env, n))
  {
    hide Exec, Finish, LoginEndsWith, ShowsRow;
    var t, hashed := Goes(cfg, sh, Session(Sessions.LoginRehash(u, password)), env, n);
    if hashed.Hashed? {
      var t1, queued := Goes(cfg, t, Session(Sessions.LoginQueueUpgrade(u, hashed.hash)), env, n + 1);
      SecondHalf(cfg, t1, u, row, env, n + 2);
    } else {
      SecondHalf(cfg, t, u, row, env, n + 1);
    }
  }

  lemma FoundLogin(cfg: Config, sh: Shared, u: UserState, row: UserState, password: string, env: Env, n: nat)
    requires ShowsRow(u, row)
    ensures var outcome := Finish(cfg, sh, Session(Sessions.LoginCompare(u, password)), env, n).outcome;
            if Works(env, n) && IsMatch(cfg, password, row.hash)
            then LoginEndsWith(outcome, row, env,
                n + 1 + UpgradeOps(cfg, password, cfg.compare(password, row.hash).needsUpgrade, env, n + 1))
            else outcome == Failure(InvalidLogin)
  {
    hide Exec, Finish, LoginEndsWith;
    var t, compared := Goes(cfg, sh, Session(Sessions.LoginCompare(u, password)), env, n);
    if Works(env, n) && IsMatch(cfg, password, row.hash) {
      if compared.needsUpgrade {
        UpgradeHarmless(cfg, t, u, row, password, env, n + 1);
      } else {
        SecondHalf(cfg, t, u, row, env, n + 1);
      }
    }
  }

  /** Whatever fails: a login goes on in spite of an upgrade that fails in either of its operations; a comparison
      that fails counts as a wrong password; and every other failure ends it. */
  lemma LoginOutcome(cfg: Config, sh: Shared, email: string, password: string, env: Env, n: nat)
    requires ShOk(cfg, sh) && Email.FixesEmails(cfg.normalise)
    ensures var outcome, address := Do(cfg, sh, Request(Login(email, password)), env, n).outcome, cfg.normalise(email);
            if !Email.Matches(address) then outcome == Failure(InvalidLogin)
            else if !Works(env, n) then outcome == Failure(Dependency)
            else
              match RowByEmail(sh.users, address)
              case None => outcome == Failure(InvalidLogin)
              case Some(row) =>
                if Works(env, n + 1) && IsMatch(cfg, password, row.hash)
                then LoginEndsWith(outcome, row, env,
                    n + 2 + UpgradeOps(cfg, password, cfg.compare(password, row.hash).needsUpgrade, env, n + 2))
                else outcome == Failure(InvalidLogin)
  {
    hide Exec, Finish, ShOk, LoginEndsWith, RowByEmail, Loaded, IsMatch, ShowsRow, Email.Matches, Email.IsEmail;
    var address := cfg.normalise(email);
    Email.RecogniserIsPattern(address);
    if Email.IsEmail(address) {
      var t, found := Goes(cfg, sh, Session(Sessions.LoginFind(address, password)), env, n);
      var row := RowByEmail(sh.users, address);
      if Works(env, n) && row.Some? {
        FoundByEmail(cfg, sh, address, t.now);
        FoundLogin(cfg, t, found.user, row.value, password, env, n + 1);
      }
    } else {
      Ended(cfg, sh, Failure(InvalidLogin), env, n);
    }
  }
}
