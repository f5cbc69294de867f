/** What the account use cases come to when nothing fails: exactly when each succeeds, and what it leaves. */
module AccountOutcomes {
  import opened Wrappers
  import opened Users
  import opened Store
  import opened Topology
  import opened Invariant
  import opened Machine
  import opened Serial
  import opened MfaTokens
  import opened Claims
  import opened Outcomes
  import Email
  import Accounts
  import Handlers

  // ---------- Password reset ----------

  lemma ResetReads(cfg: Config, sh: Shared, ch: Choice, token: string, password: string)
    requires ch.fault.Fine?
    ensures var k, now := Key(Reset, token), sh.now + ch.delay;
            Advance(cfg, sh, Begin(cfg, ResetPassword(token, password)), ch) ==
              (Later(sh, ch), if k in sh.tokens && now < sh.tokens[k].expires
                              then Account(Accounts.ResetFind(token, password, sh.tokens[k].userId))
                              else Finished(Failure(InvalidResetToken)))
  {
  }

  lemma ResetFinds(cfg: Config, sh: Shared, id: Id, ch: Choice, token: string, password: string)
    returns (t: Shared, u: UserState)
    requires ShOk(cfg, sh) && Email.FixesEmails(cfg.normalise) && id in sh.users && ch.fault.Fine?
    ensures (t, Account(Accounts.ResetHash(token, password, u)))
        == Advance(cfg, sh, Account(Accounts.ResetFind(token, password, id)), ch)
    ensures t == Later(sh, ch) && ShowsRow(u, sh.users[id]) && u.id == id
  {
    hide ShOk;
    t := Later(sh, ch);
    RowsRestorable(cfg, sh, id);
    LoadShowsRow(cfg, sh.users[id], t.now);
    u := Loaded(cfg, sh.users[id], t.now).user;
  }

  lemma ResetHashes(cfg: Config, sh: Shared, u: UserState, ch: Choice, token: string, password: string)
    requires ch.fault.Fine?
    ensures var hash := cfg.hash(password, ch.salt);
            Advance(cfg, sh, Account(Accounts.ResetHash(token, password, u)), ch) ==
              (Later(sh, ch), if password != "" && hash != ""
                              then Account(Accounts.ResetUpdate(token, u.UpdatePassword(hash, sh.now + ch.delay)))
                              else Finished(Failure(Dependency)))
  {
  }

  lemma ResetUpdates(cfg: Config, sh: Shared, u: UserState, ch: Choice, token: string)
    requires ch.fault.Fine? && u.id in sh.users && |u.totpSecret| <= 128
    ensures var (t, q) := Advance(cfg, sh, Account(Accounts.ResetUpdate(token, u)), ch);
            && q == Account(Accounts.ResetDel(token)) && t.tokens == sh.tokens
            && t.users == sh.users[u.id := Overwritten(sh.users[u.id], u)]
  {
  }

  lemma ResetDeletes(cfg: Config, sh: Shared, ch: Choice, token: string)
    requires ch.fault.Fine?
    ensures var (t, q) := Advance(cfg, sh, Account(Accounts.ResetDel(token)), ch);
            q == Finished(Success(Nothing)) && t.tokens == sh.tokens - {Key(Reset, token)} && t.users == sh.users
  {
  }

  lemma ResetEnds(cfg: Config, sh: Shared, u: UserState, env: Env, n: nat, token: string)
    requires NoFaults(env, n, 2) && u.id in sh.users && |u.totpSecret| <= 128
    ensures var end := Finish(cfg, sh, Account(Accounts.ResetUpdate(token, u)), env, n);
            && end.outcome == Success(Nothing) && end.sh.tokens == sh.tokens - {Key(Reset, token)}
            && end.sh.users == sh.users[u.id := Overwritten(sh.users[u.id], u)]
  {
    hide Advance;
    var p := Account(Accounts.ResetUpdate(token, u));
    ResetUpdates(cfg, sh, u, env(n), token);
    var (t, q) := Advance(cfg, sh, p, env(n));
    ResetDeletes(cfg, t, env(n + 1), token);
    var (t2, q2) := Advance(cfg, t, q, env(n + 1));
    assert Finish(cfg, sh, p, env, n) == Finish(cfg, t, q, env, n + 1) == Finish(cfg, t2, q2, env, n + 2);
  }

  /** The user was given this hash at this time, and nothing else was changed. */
  predicate PasswordReplaced(before: UserTable, after: UserTable, id: Id, hash: string, at: Time) {
    id in before && after == before[id := before[id].(hash := hash, updatedAt := at)]
  }

  lemma FoundResetEnds(cfg: Config, sh: Shared, id: Id, env: Env, n: nat, token: string, password: string)
    requires ShOk(cfg, sh) && Email.FixesEmails(cfg.normalise) && id in sh.users
    requires NoFaults(env, n, 4)
    ensures var end, hash := Finish(cfg, sh, Account(Accounts.ResetFind(token, password, id)), env, n),
        cfg.hash(password, env(n + 1).salt);
            if password != "" && hash != ""
            then end.outcome == Success(Nothing) && end.sh.tokens == sh.tokens - {Key(Reset, token)}
                && PasswordReplaced(sh.users, end.sh.users, id, hash, sh.now + env(n).delay + env(n + 1).delay)
            else end.outcome == Failure(Dependency) && end.sh.users == sh.users && end.sh.tokens == sh.tokens
  {
    hide Advance, ShOk;
    var p := Account(Accounts.ResetFind(token, password, id));
    var t, u := ResetFinds(cfg, sh, id, env(n), token, password);
    var p1 := Account(Accounts.ResetHash(token, password, u));
    ResetHashes(cfg, t, u, env(n + 1), token, password);
    var (t2, p2) := Advance(cfg, t, p1, env(n + 1));
    assert Finish(cfg, sh, p, env, n) == Finish(cfg, t, p1, env, n + 1) == Finish(cfg, t2, p2, env, n + 2);
    RowsRestorable(cfg, sh, id);
    if !p2.Finished? {
      ResetEnds(cfg, t2, p2.a.user, env, n + 2, token);
    }
  }

  /** Without faults, a password reset succeeds exactly when the token is stored and has not expired when
      it is read, and the new password is hashed: then the user's hash is one of the new password, its update
      time is that of the hashing, nothing else is touched, and the token is gone. */
  lemma ResetSucceedsExactlyWhen(cfg: Config, sh: Shared, token: string, password: string, env: Env, n: nat)
    requires ShOk(cfg, sh) && Email.FixesEmails(cfg.normalise) && cfg.topology.TokensFromUserEvents()
        && NoFaults(env, n, 5)
    ensures var end, k, hash := Do(cfg, sh, Request(ResetPassword(token, password)), env, n), Key(Reset, token),
        cfg.hash(password, env(n + 2).salt);
            if k in sh.tokens && sh.now + env(n).delay < sh.tokens[k].expires && password != "" && hash != ""
            then end.outcome == Success(Nothing) && end.sh.tokens == sh.tokens - {k}
                && PasswordReplaced(sh.users, end.sh.users, sh.tokens[k].userId, hash,
                                    sh.now + env(n).delay + env(n + 1).delay + env(n + 2).delay)
            else end.outcome.Failure? && end.sh.users == sh.users && end.sh.tokens == sh.tokens
  {
    hide Advance, ShOk, PasswordReplaced;
    var k, p := Key(Reset, token), Begin(cfg, ResetPassword(token, password));
    ResetReads(cfg, sh, env(n), token, password);
    var (t, q) := Advance(cfg, sh, p, env(n));
    assert Do(cfg, sh, Request(ResetPassword(token, password)), env, n) == Finish(cfg, t, q, env, n + 1);
    if !q.Finished? {
      LaterOk(cfg, sh, env(n));
      NamesUser(cfg, sh, k);
      FoundResetEnds(cfg, t, sh.tokens[k].userId, env, n + 1, token, password);
    }
  }

  // ---------- Second factor ----------

  lemma SetupFinds(cfg: Config, sh: Shared, id: Id, ch: Choice)
    requires ShOk(cfg, sh) && Email.FixesEmails(cfg.normalise) && ch.fault.Fine?
    ensures var (t, q) := Advance(cfg, sh, Account(Accounts.SetupFind(id)), ch);
            && t == Later(sh, ch)
            && if id !in sh.users then q == Finished(Failure(UserNotFound))
               else q.Account? && q.a.SetupSecret? && ShowsRow(q.a.user, sh.users[id]) && q.a.user.id == id
  {
    hide ShOk;
    if id in sh.users {
      RowsRestorable(cfg, sh, id);
      LoadShowsRow(cfg, sh.users[id], sh.now + ch.delay);
    }
  }

  lemma SetupDraws(cfg: Config, sh: Shared, u: UserState, ch: Choice)
    requires ch.fault.Fine?
    ensures Advance(cfg, sh, Account(Accounts.SetupSecret(u)), ch)
         == (Later(sh, ch), Account(Accounts.SetupUpdate(u.EnableMFA(ch.random, sh.now + ch.delay))))
  {
  }

  lemma SetupUpdates(cfg: Config, sh: Shared, u: UserState, ch: Choice)
    requires ch.fault.Fine? && u.id in sh.users
    ensures var (t, q) := Advance(cfg, sh, Account(Accounts.SetupUpdate(u)), ch);
            if |u.totpSecret| <= 128
            then q == Finished(Success(Secret(u.totpSecret)))
                && t.users == sh.users[u.id := Overwritten(sh.users[u.id], u)]
            else q == Finished(Failure(Dependency)) && t.users == sh.users
  {
  }

  /** Without faults, setting up the second factor succeeds exactly for a stored user and a secret that
      fits its column: then the user has a second factor from that moment on, with the very secret that was
      answered, and is otherwise the same. */
  lemma SetupSucceedsExactlyWhen(cfg: Config, sh: Shared, id: Id, env: Env, n: nat)
    requires ShOk(cfg, sh) && Email.FixesEmails(cfg.normalise) && NoFaults(env, n, 3)
    ensures var end, secret := Do(cfg, sh, Request(SetupMFA(id)), env, n), env(n + 1).random;
            if id in sh.users && |secret| <= 128 then
              && end.outcome == Success(Secret(secret)) && id in end.sh.users && end.n == n + 3
              && end.sh.users == sh.users[id := sh.users[id].(mfaEnabled := true, totpSecret := secret,
                  updatedAt := sh.now + env(n).delay + env(n + 1).delay)]
            else end.outcome.Failure? && end.sh.users == sh.users
  {
    hide Advance, ShOk;
    var p := Account(Accounts.SetupFind(id));
    SetupFinds(cfg, sh, id, env(n));
    var (t, q) := Advance(cfg, sh, p, env(n));
    assert Do(cfg, sh, Request(SetupMFA(id)), env, n) == Finish(cfg, t, q, env, n + 1);
    if id in sh.users {
      SetupDraws(cfg, t, q.a.user, env(n + 1));
      var (t1, q1) := Advance(cfg, t, q, env(n + 1));
      SetupUpdates(cfg, t1, q1.a.user, env(n + 2));
      var (t2, q2) := Advance(cfg, t1, q1, env(n + 2));
      assert Finish(cfg, t, q, env, n + 1) == Finish(cfg, t1, q1, env, n + 2) == Finish(cfg, t2, q2, env, n + 3);
    }
  }

  // ---------- Roles ----------

  lemma RolesFinds(cfg: Config, sh: Shared, id: Id, roles: Option<seq<string>>, ch: Choice)
    requires ShOk(cfg, sh) && Email.FixesEmails(cfg.normalise) && ch.fault.Fine?
    ensures Advance(cfg, sh, Account(Accounts.RolesFind(id, roles)), ch)
         == (Later(sh, ch), if id in sh.users then Account(Accounts.RolesQueue(id, roles))
             else Finished(Failure(UserNotFound)))
  {
    hide ShOk;
    if id in sh.users {
      RowsRestorable(cfg, sh, id);
      LoadShowsRow(cfg, sh.users[id], sh.now + ch.delay);
    }
  }

  lemma RolesQueues(cfg: Config, sh: Shared, id: Id, roles: Option<seq<string>>, ch: Choice)
    requires ch.fault.Fine?
    ensures var (t, q) := Advance(cfg, sh, Account(Accounts.RolesQueue(id, roles)), ch);
            && q == Finished(Success(Nothing))
            && t == Later(sh, ch).(outbox := sh.outbox
                + [OutboxRow(RolesCommand, RolesPayload(id, roles), ch.stamp, None)])
  {
  }

  /** Without faults, a request to change roles succeeds exactly for a stored user, and then adds the
      command for that user and those roles to the outbox, and nothing else. */
  lemma RolesRequestQueues(cfg: Config, sh: Shared, id: Id, roles: Option<seq<string>>, env: Env, n: nat)
    requires ShOk(cfg, sh) && Email.FixesEmails(cfg.normalise) && NoFaults(env, n, 2)
    ensures var end := Do(cfg, sh, Request(ChangeRoles(id, roles)), env, n);
            if id in sh.users then
              && end.outcome == Success(Nothing)
              && end.sh == Later(Later(sh, env(n)), env(n + 1)).(
                   outbox := sh.outbox + [OutboxRow(RolesCommand, RolesPayload(id, roles), env(n + 1).stamp, None)])
              && var command := RolesPayload(id, roles); command.Json? && command.userId == id && command.roles == roles
            else end.outcome == Failure(UserNotFound) && end.sh == Later(sh, env(n))
  {
    hide Advance, ShOk;
    var p := Account(Accounts.RolesFind(id, roles));
    RolesFinds(cfg, sh, id, roles, env(n));
    var (t, q) := Advance(cfg, sh, p, env(n));
    assert Do(cfg, sh, Request(ChangeRoles(id, roles)), env, n) == Finish(cfg, t, q, env, n + 1);
    if id in sh.users {
      RolesQueues(cfg, t, id, roles, env(n + 1));
      var (t1, q1) := Advance(cfg, t, q, env(n + 1));
      assert Finish(cfg, t, q, env, n + 1) == Finish(cfg, t1, q1, env, n + 2);
    }
  }

  lemma HandlerFindsUser(cfg: Config, sh: Shared, m: nat, id: Id, roles: Option<seq<string>>, ch: Choice)
    requires ShOk(cfg, sh) && Email.FixesEmails(cfg.normalise) && ch.fault.Fine? && id in sh.users
    ensures Advance(cfg, sh, Handling(m, Handlers.RolesFind(id, roles)), ch)
         == (Later(sh, ch), Handling(m, Handlers.RolesWrite(id, roles)))
  {
    hide ShOk;
    RowsRestorable(cfg, sh, id);
    LoadShowsRow(cfg, sh.users[id], sh.now + ch.delay);
  }

  lemma HandlerWritesRoles(cfg: Config, sh: Shared, m: nat, id: Id, roles: Option<seq<string>>, ch: Choice)
    requires ch.fault.Fine? && id in sh.users
    ensures var (t, q) := Advance(cfg, sh, Handling(m, Handlers.RolesWrite(id, roles)), ch);
            if roles.Some?
            then q == Settling(m, Success(Nothing)) && t.now == sh.now + ch.delay
                && t.users == sh.users[id := sh.users[id].(roles := roles.value, updatedAt := t.now)]
            else q == Settling(m, Failure(Dependency)) && t.users == sh.users
  {
  }

  lemma SettlingEnds(cfg: Config, sh: Shared, m: nat, result: Outcome, env: Env, n: nat)
    ensures var end := Finish(cfg, sh, Settling(m, result), env, n); end.outcome == result && end.sh.users == sh.users
  {
  }

  /** Without faults, the delivery of a roles command for a stored user writes exactly the roles it names,
      in place of those the user had; a command that names none fails, and comes back. */
  lemma RolesCommandApplies(cfg: Config, sh: Shared, m: nat, id: Id, roles: Option<seq<string>>, env: Env, n: nat)
    requires ShOk(cfg, sh) && Email.FixesEmails(cfg.normalise) && NoFaults(env, n, 2) && id in sh.users
    requires m in sh.ready && m < |sh.accepted| && cfg.topology.JobOf(sh.accepted[m].event).RolesUpdate?
    requires var command := sh.accepted[m].payload; command.Json? && command.userId == id && command.roles == roles
    ensures var end := Do(cfg, sh, Delivery(m), env, n);
            if roles.Some? then
              && end.outcome == Success(Nothing) && id in end.sh.users
              && end.sh.users == sh.users[id := sh.users[id].(roles := roles.value,
                  updatedAt := sh.now + env(n).delay + env(n + 1).delay)]
            else end.outcome.Failure? && end.sh.users == sh.users
  {
    hide Advance, ShOk;
    var (t, p) := Launch(cfg, sh, Delivery(m));
    LaunchOk(cfg, sh, Delivery(m));
    HandlerFindsUser(cfg, t, m, id, roles, env(n));
    var (t1, q1) := Advance(cfg, t, p, env(n));
    HandlerWritesRoles(cfg, t1, m, id, roles, env(n + 1));
    var (t2, q2) := Advance(cfg, t1, q1, env(n + 1));
    SettlingEnds(cfg, t2, m, q2.result, env, n + 2);
    assert Finish(cfg, t, p, env, n) == Finish(cfg, t1, q1, env, n + 1) == Finish(cfg, t2, q2, env, n + 2);
  }

  // ---------- Registration request ----------

  lemma RegisterFinds(cfg: Config, sh: Shared, email: string, command: Payload, ch: Choice)
    requires ShOk(cfg, sh) && Email.FixesEmails(cfg.normalise) && ch.fault.Fine?
    ensures Advance(cfg, sh, Account(Accounts.RegisterFind(email, command)), ch)
         == (Later(sh, ch), if EmailTaken(sh.users, email) then Finished(Failure(UserAlreadyExists))
                            else Account(Accounts.RegisterQueue(command)))
  {
    hide ShOk;
    var found := RowByEmail(sh.users, email);
    if found.Some? {
      var id :| id in sh.users && sh.users[id] == found.value;
      RowsRestorable(cfg, sh, id);
      LoadShowsRow(cfg, found.value, sh.now + ch.delay);
    }
  }

  lemma RegisterQueues(cfg: Config, sh: Shared, command: Payload, ch: Choice)
    requires ch.fault.Fine?
    ensures var (t, q) := Advance(cfg, sh, Account(Accounts.RegisterQueue(command)), ch);
            && q == Finished(Success(Nothing))
            && t == Later(sh, ch).(outbox := sh.outbox + [OutboxRow(RegisterCommand, command, ch.stamp, None)])
  {
  }

  /** Without faults, a registration request succeeds exactly for a valid address that is free, and then
      adds the command, as it was given, to the outbox, and nothing else. */
  lemma RegisterSucceedsExactlyWhen(cfg: Config, sh: Shared, email: string, password: string, env: Env, n: nat)
    requires ShOk(cfg, sh) && Email.FixesEmails(cfg.normalise) && NoFaults(env, n, 2)
    ensures var end, address := Do(cfg, sh, Request(Register(email, password)), env, n), cfg.normalise(email);
            if !Email.Matches(address) then end.outcome == Failure(InvalidEmail) && end.sh == sh
            else if EmailTaken(sh.users, address)
            then end.outcome == Failure(UserAlreadyExists) && end.sh == Later(sh, env(n))
            else
              var command := RegisterPayload(email, password);
              && end.outcome == Success(Nothing) && end.n == n + 2
              && end.sh == Later(Later(sh, env(n)), env(n + 1)).(
                   outbox := sh.outbox + [OutboxRow(RegisterCommand, command, env(n + 1).stamp, None)])
              && command.Json? && command.email == email && command.password == password
  {
    hide Advance, ShOk, EmailTaken, Email.Matches, Email.IsEmail;
    Email.RecogniserIsPattern(cfg.normalise(email));
    var address, command := Email.NewEmail(cfg.normalise, email), RegisterPayload(email, password);
    if address.Ok? {
      var p := Account(Accounts.RegisterFind(address.value, command));
      RegisterFinds(cfg, sh, address.value, command, env(n));
      var (t, q) := Advance(cfg, sh, p, env(n));
      assert Do(cfg, sh, Request(Register(email, password)), env, n) == Finish(cfg, sh, p, env, n)
          == Finish(cfg, t, q, env, n + 1);
      if !q.Finished? {
        RegisterQueues(cfg, t, command, env(n + 1));
        var (t2, q2) := Advance(cfg, t, q, env(n + 1));
        assert Finish(cfg, t, q, env, n + 1) == Finish(cfg, t2, q2, env, n + 2);
      }
    }
  }

  // ---------- Confirmation ----------

  lemma ConfirmReads(cfg: Config, sh: Shared, ch: Choice, token: string)
    requires ch.fault.Fine?
    ensures var k, now := Key(Confirm, token), sh.now + ch.delay;
            Advance(cfg, sh, Begin(cfg, ConfirmEmail(token)), ch) ==
              (Later(sh, ch), if k in sh.tokens && now < sh.tokens[k].expires
                              then Account(Accounts.ConfirmFind(token, sh.tokens[k].userId))
                              else Finished(Failure(InvalidVerificationToken)))
  {
  }

  lemma ConfirmFinds(cfg: Config, sh: Shared, id: Id, ch: Choice, token: string) returns (t: Shared, u: UserState)
    requires ShOk(cfg, sh) && Email.FixesEmails(cfg.normalise) && id in sh.users && ch.fault.Fine?
    ensures (t, Account(Accounts.ConfirmUpdate(token, u)))
        == Advance(cfg, sh, Account(Accounts.ConfirmFind(token, id)), ch)
    ensures t == Later(sh, ch) && ShowsRow(u, sh.users[id]) && u.id == id && u.updatedAt == t.now
  {
    hide ShOk;
    t := Later(sh, ch);
    RowsRestorable(cfg, sh, id);
    LoadShowsRow(cfg, sh.users[id], t.now);
    u := Loaded(cfg, sh.users[id], t.now).user.ConfirmEmail(t.now);
  }

  lemma ConfirmUpdates(cfg: Config, sh: Shared, u: UserState, ch: Choice, token: string)
    requires ch.fault.Fine? && u.id in sh.users && |u.totpSecret| <= 128
    ensures var (t, q) := Advance(cfg, sh, Account(Accounts.ConfirmUpdate(token, u)), ch);
            && q == Account(Accounts.ConfirmDel(token)) && t.tokens == sh.tokens
            && t.users == sh.users[u.id := Overwritten(sh.users[u.id], u)]
  {
  }

  lemma ConfirmDeletes(cfg: Config, sh: Shared, ch: Choice, token: string)
    requires ch.fault.Fine?
    ensures var (t, q) := Advance(cfg, sh, Account(Accounts.ConfirmDel(token)), ch);
            q == Finished(Success(Nothing)) && t.tokens == sh.tokens - {Key(Confirm, token)} && t.users == sh.users
  {
  }

  /** Nothing but the update time of this user has changed. */
  predicate OnlyTouched(before: UserTable, after: UserTable, id: Id, at: Time) {
    id in before && after == before[id := before[id].(updatedAt := at)]
  }

  lemma FoundConfirmEnds(cfg: Config, sh: Shared, id: Id, env: Env, n: nat, token: string)
    requires ShOk(cfg, sh) && Email.FixesEmails(cfg.normalise) && id in sh.users && NoFaults(env, n, 3)
    ensures var end := Finish(cfg, sh, Account(Accounts.ConfirmFind(token, id)), env, n);
            end.outcome == Success(Nothing) && end.sh.tokens == sh.tokens - {Key(Confirm, token)}
                && OnlyTouched(sh.users, end.sh.users, id, sh.now + env(n).delay)
  {
    hide Advance, ShOk;
    var p := Account(Accounts.ConfirmFind(token, id));
    var t, u := ConfirmFinds(cfg, sh, id, env(n), token);
    var p1 := Account(Accounts.ConfirmUpdate(token, u));
    RowsRestorable(cfg, sh, id);
    ConfirmUpdates(cfg, t, u, env(n + 1), token);
    var (t2, p2) := Advance(cfg, t, p1, env(n + 1));
    ConfirmDeletes(cfg, t2, env(n + 2), token);
    var (t3, p3) := Advance(cfg, t2, p2, env(n + 2));
    assert Finish(cfg, sh, p, env, n) == Finish(cfg, t, p1, env, n + 1)
        == Finish(cfg, t2, p2, env, n + 2) == Finish(cfg, t3, p3, env, n + 3);
  }

  /** Without faults, a confirmation succeeds exactly when the token is stored and has not expired when it
      is read. It burns the token; but all it does to the user is to set the update time. */
  lemma ConfirmSucceedsExactlyWhen(cfg: Config, sh: Shared, token: string, env: Env, n: nat)
    requires ShOk(cfg, sh) && Email.FixesEmails(cfg.normalise) && cfg.topology.TokensFromUserEvents()
        && NoFaults(env, n, 4)
    ensures var end, k := Do(cfg, sh, Request(ConfirmEmail(token)), env, n), Key(Confirm, token);
            if k in sh.tokens && sh.now + env(n).delay < sh.tokens[k].expires
            then end.outcome == Success(Nothing) && end.sh.tokens == sh.tokens - {k}
                && OnlyTouched(sh.users, end.sh.users, sh.tokens[k].userId, sh.now + env(n).delay + env(n + 1).delay)
            else end.outcome == Failure(InvalidVerificationToken) && end.sh == Later(sh, env(n))
  {
    hide Advance, ShOk, OnlyTouched;
    var k, p := Key(Confirm, token), Begin(cfg, ConfirmEmail(token));
    ConfirmReads(cfg, sh, env(n), token);
    var (t, q) := Advance(cfg, sh, p, env(n));
    assert Do(cfg, sh, Request(ConfirmEmail(token)), env, n) == Finish(cfg, t, q, env, n + 1);
    if !q.Finished? {
      LaterOk(cfg, sh, env(n));
      NamesUser(cfg, sh, k);
      FoundConfirmEnds(cfg, t, sh.tokens[k].userId, env, n + 1, token);
    }
  }

  // ---------- Profile ----------

  lemma ProfileReads(cfg: Config, sh: Shared, id: Id, ch: Choice)
    requires ch.fault.Fine?
    ensures Advance(cfg, sh, Begin(cfg, QueryProfile(id)), ch) ==
              (Later(sh, ch), if id in sh.profiles && sh.now + ch.delay < sh.profiles[id].expires
                              then Finished(Success(ProfileBody(sh.profiles[id].profile)))
                              else Account(Accounts.ProfileFind(id)))
  {
  }

  /** The replica shows the user. */
  predicate Shows(sh: Shared, id: Id, ch: Choice) {
    ch.version < |sh.versions| && id in sh.versions[ch.version]
  }

  lemma ReplicaShows(cfg: Config, sh: Shared, id: Id, ch: Choice)
    requires ShOk(cfg, sh) && Shows(sh, id, ch)
    ensures var row := sh.versions[ch.version][id];
            id in sh.users && Restorable(row) && row.id == id && ProfileOf(cfg, row) == ProfileOf(cfg, sh.users[id])
  {
    assert TableOk(sh.versions[ch.version]) && TableGrows(sh.versions[ch.version], sh.users);
    assert sh.users[id].id == id;
  }

  lemma ProfileFinds(cfg: Config, sh: Shared, id: Id, ch: Choice)
    requires ShOk(cfg, sh) && Email.FixesEmails(cfg.normalise) && ch.fault.Fine?
    ensures Advance(cfg, sh, Account(Accounts.ProfileFind(id)), ch) ==
              (Later(sh, ch), if Shows(sh, id, ch) then Account(Accounts.ProfileFill(ProfileOf(cfg, sh.users[id])))
                              else Finished(Failure(UserNotFound)))
  {
    hide ShOk, Loaded, ReplicaRow;
    if Shows(sh, id, ch) {
      ReplicaShows(cfg, sh, id, ch);
      ReplicaLoads(cfg, sh.versions[ch.version][id], sh.now + ch.delay);
    }
  }

  lemma ReplicaLoads(cfg: Config, row: UserState, now: Time)
    requires Email.FixesEmails(cfg.normalise) && Restorable(row)
    ensures var reply := Loaded(cfg, ReplicaRow(row), now);
            reply.Found? && ProfileOf(cfg, reply.user) == ProfileOf(cfg, row)
  {
    hide FirstOccurrences;
    LoadedUser(cfg.normalise, ReplicaRow(row), now);
  }

  lemma ProfileFills(cfg: Config, sh: Shared, profile: Profile, ch: Choice)
    requires ch.fault.Fine?
    ensures Advance(cfg, sh, Account(Accounts.ProfileFill(profile)), ch) ==
              var cached := CachedProfile(profile, sh.now + ch.delay + PROFILE_TTL);
              (Later(sh, ch).(profiles := sh.profiles[profile.id := cached]), Finished(Success(ProfileBody(profile))))
  {
  }

  /** Without faults, a profile query answers the identity columns of the stored user exactly when the cache
      has an entry that has not expired or the replica shows the user; in the second case the answer is
      cached for ten minutes. */
  lemma ProfileSucceedsExactlyWhen(cfg: Config, sh: Shared, id: Id, env: Env, n: nat)
    requires ShOk(cfg, sh) && Email.FixesEmails(cfg.normalise) && NoFaults(env, n, 3)
    ensures var end := Do(cfg, sh, Request(QueryProfile(id)), env, n);
            var cached := id in sh.profiles && sh.now + env(n).delay < sh.profiles[id].expires;
            if cached || Shows(sh, id, env(n + 1)) then
              && id in sh.users && end.outcome.Success? && end.outcome.body.ProfileBody?
              && var profile, row := end.outcome.body.profile, sh.users[id];
                 && profile.id == id && profile.email == row.email
                 && profile.createdAt == cfg.formatTime(row.createdAt)
                 && end.sh.profiles == if cached then sh.profiles
                        else sh.profiles[id := CachedProfile(profile, end.sh.now + 600_000_000_000)]
            else end.outcome == Failure(UserNotFound) && end.sh.profiles == sh.profiles
  {
    hide Advance, ShOk;
    var p := Begin(cfg, QueryProfile(id));
    ProfileReads(cfg, sh, id, env(n));
    var (t, q) := Advance(cfg, sh, p, env(n));
    assert Do(cfg, sh, Request(QueryProfile(id)), env, n) == Finish(cfg, t, q, env, n + 1);
    if q.Finished? {
      CacheIsSound(cfg, sh, id);
      RowsRestorable(cfg, sh, id);
    } else {
      LaterOk(cfg, sh, env(n));
      ProfileFinds(cfg, t, id, env(n + 1));
      var (t2, q2) := Advance(cfg, t, q, env(n + 1));
      assert Finish(cfg, t, q, env, n + 1) == Finish(cfg, t2, q2, env, n + 2);
      if !q2.Finished? {
        ReplicaShows(cfg, t, id, env(n + 1));
        ProfileFilled(cfg, t2, sh.users[id], env, n + 2);
        RowsRestorable(cfg, sh, id);
      }
    }
  }

  lemma CacheIsSound(cfg: Config, sh: Shared, id: Id)
    requires ShOk(cfg, sh) && id in sh.profiles
    ensures id in sh.users && sh.profiles[id].profile == ProfileOf(cfg, sh.users[id])
  {
    assert ProfileOk(cfg, sh.users, sh.profiles[id].profile);
  }

  lemma ProfileFilled(cfg: Config, sh: Shared, row: UserState, env: Env, n: nat)
    requires NoFaults(env, n, 1)
    ensures var profile := ProfileOf(cfg, row);
            var end := Finish(cfg, sh, Account(Accounts.ProfileFill(profile)), env, n);
            && end.outcome == Success(ProfileBody(profile))
            && end.sh.profiles == sh.profiles[row.id := CachedProfile(profile, end.sh.now + PROFILE_TTL)]
  {
    hide Advance;
    var p := Account(Accounts.ProfileFill(ProfileOf(cfg, row)));
    ProfileFills(cfg, sh, ProfileOf(cfg, row), env(n));
    var (t, q) := Advance(cfg, sh, p, env(n));
    assert Finish(cfg, sh, p, env, n) == Finish(cfg, t, q, env, n + 1);
  }
}
