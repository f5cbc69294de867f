/** What the session use cases come to when nothing fails: exactly when each succeeds, and what it leaves. */
module Outcomes {
  import opened Wrappers
  import opened Users
  import opened Store
  import opened Topology
  import opened Invariant
  import opened Machine
  import opened Serial
  import opened History
  import opened Effects
  import opened Claims
  import opened MfaTokens
  import opened Interleaving
  import Email
  import Sessions

  // ---------- Login ----------

  lemma RowsRestorable(cfg: Config, sh: Shared, id: Id)
    requires ShOk(cfg, sh) && id in sh.users
    ensures sh.users[id].id == id && Restorable(sh.users[id]) && FitsColumns(sh.users[id])
  {
  }

  lemma LoginFinds(cfg: Config, sh: Shared, email: string, password: string, ch: Choice)
    requires ShOk(cfg, sh) && Email.FixesEmails(cfg.normalise) && ch.fault.Fine?
    ensures var (t, q) := Advance(cfg, sh, Session(Sessions.LoginFind(email, password)), ch);
            && t == Later(sh, ch)
            && match RowByEmail(sh.users, email)
               case None => q == Finished(Failure(InvalidLogin))
               case Some(row) =>
                 q.Session? && q.s.LoginCompare? && ShowsRow(q.s.user, row) && q.s.password == password
  {
    hide ShOk;
    var found := RowByEmail(sh.users, email);
    if found.Some? {
      var id :| id in sh.users && sh.users[id] == found.value;
      RowsRestorable(cfg, sh, id);
      LoadShowsRow(cfg, found.value, sh.now + ch.delay);
    }
  }

  /** The event that asks for the upgrade of this user to a new hash, if the password can be hashed. */
  function UpgradeEvent(cfg: Config, id: Id, password: string, env: Env, n: nat): seq<OutboxRow> {
    var newHash := cfg.hash(password, env(n).salt);
    if password == "" || newHash == "" then []
    else [OutboxRow(PasswordUpgrade, UpgradePayload(id, newHash), env(n + 1).stamp, None)]
  }

  /** The upgrade, with any faults, leads to where the login goes without one; without faults, its event is
      in the outbox. */
  lemma LoginUpgrades(cfg: Config, sh: Shared, u: UserState, password: string, env: Env, n: nat)
    returns (t: Shared, m: nat)
    ensures Finish(cfg, sh, Session(Sessions.LoginRehash(u, password)), env, n)
         == Finish(cfg, t, OfSession(Sessions.SecondFactor(u)), env, m)
    ensures n <= m <= n + 2 && t.tokens == sh.tokens && t.users == sh.users
    ensures NoFaults(env, n, 2) ==> t.outbox == sh.outbox + UpgradeEvent(cfg, u.id, password, env, n)
  {
    hide Advance;
    var p := Session(Sessions.LoginRehash(u, password));
    var q;
    t, q := Rehashes(cfg, sh, u, password, env(n));
    assert Finish(cfg, sh, p, env, n) == Finish(cfg, t, q, env, n + 1);
    m := n + 1;
    if q.s.LoginQueueUpgrade? {
      var t1 := t;
      t := Queues(cfg, t1, u, q.s.newHash, env(n + 1));
      assert Finish(cfg, t1, q, env, n + 1) == Finish(cfg, t, OfSession(Sessions.SecondFactor(u)), env, n + 2);
      m := n + 2;
    }
  }

  lemma Rehashes(cfg: Config, sh: Shared, u: UserState, password: string, ch: Choice) returns (t: Shared, q: Proc)
    ensures (t, q) == Advance(cfg, sh, Session(Sessions.LoginRehash(u, password)), ch)
    ensures q == OfSession(Sessions.SecondFactor(u)) || (q.Session? && q.s.LoginQueueUpgrade? && q.s.user == u)
    ensures q.Session? && t.tokens == sh.tokens && t.users == sh.users && t.outbox == sh.outbox
    ensures var newHash := cfg.hash(password, ch.salt);
            ch.fault.Fine? ==> if password == "" || newHash == "" then !q.s.LoginQueueUpgrade?
                               else q == Session(Sessions.LoginQueueUpgrade(u, newHash))
  {
    var r := Advance(cfg, sh, Session(Sessions.LoginRehash(u, password)), ch);
    t, q := r.0, r.1;
  }

  lemma Queues(cfg: Config, sh: Shared, u: UserState, newHash: string, ch: Choice) returns (t: Shared)
    ensures (t, OfSession(Sessions.SecondFactor(u)))
        == Advance(cfg, sh, Session(Sessions.LoginQueueUpgrade(u, newHash)), ch)
    ensures t.tokens == sh.tokens && t.users == sh.users
    ensures ch.fault.Fine? ==>
              t.outbox == sh.outbox + [OutboxRow(PasswordUpgrade, UpgradePayload(u.id, newHash), ch.stamp, None)]
  {
    t := Advance(cfg, sh, Session(Sessions.LoginQueueUpgrade(u, newHash)), ch).0;
  }

  /** The body of a successful login: a second factor is asked for exactly when the user has one, and the
      token that is answered is stored for the user, for five minutes or for a week. */
  ghost predicate LoggedIn(sh: Shared, outcome: Outcome, row: UserState) {
    outcome.Success?
    && if row.mfaEnabled then
         && outcome.body.MFARequired? && outcome.body.userId == row.id
         && var k := Key(Mfa, outcome.body.mfaToken);
            k in sh.tokens && sh.tokens[k] == Entry(row.id, sh.now + 300_000_000_000)
       else
         && outcome.body.Tokens? && ShowsRow(outcome.body.user, row)
         && var k := Key(Refresh, outcome.body.refreshToken);
            k in sh.tokens && sh.tokens[k] == Entry(row.id, sh.now + 604_800_000_000_000)
  }

  lemma MintsMfa(cfg: Config, sh: Shared, u: UserState, ch: Choice)
    requires ch.fault.Fine?
    ensures var (t, q) := Advance(cfg, sh, Session(Sessions.LoginMintMfa(u)), ch);
            q == Finished(Success(MFARequired(u.id, ch.random))) && Key(Mfa, ch.random) in t.tokens
                && t.tokens[Key(Mfa, ch.random)] == Entry(u.id, t.now + 300_000_000_000) && SameTables(sh, t)
  {
  }

  lemma LoginSigns(cfg: Config, sh: Shared, u: UserState, ch: Choice)
    requires ch.fault.Fine?
    ensures Advance(cfg, sh, Session(Sessions.LoginSign(u)), ch)
        == (Later(sh, ch), Session(Sessions.LoginMintRefresh(u)))
  {
  }

  lemma MintsRefresh(cfg: Config, sh: Shared, u: UserState, ch: Choice)
    requires ch.fault.Fine?
    ensures var (t, q) := Advance(cfg, sh, Session(Sessions.LoginMintRefresh(u)), ch);
            q == Finished(Success(Tokens(u, ch.random))) && Key(Refresh, ch.random) in t.tokens
                && t.tokens[Key(Refresh, ch.random)] == Entry(u.id, t.now + 604_800_000_000_000) && SameTables(sh, t)
  {
  }

  lemma SecondFactorEnds(cfg: Config, sh: Shared, u: UserState, row: UserState, env: Env, n: nat)
    requires ShowsRow(u, row) && NoFaults(env, n, 2)
    ensures var end := Finish(cfg, sh, OfSession(Sessions.SecondFactor(u)), env, n);
            LoggedIn(end.sh, end.outcome, row) && SameTables(sh, end.sh)
  {
    hide Advance;
    if u.mfaEnabled {
      var p := Session(Sessions.LoginMintMfa(u));
      MintsMfa(cfg, sh, u, env(n));
      var (t, q) := Advance(cfg, sh, p, env(n));
      assert Finish(cfg, sh, p, env, n) == Finish(cfg, t, q, env, n + 1);
    } else {
      var p, t1, p1 := Session(Sessions.LoginSign(u)), Later(sh, env(n)), Session(Sessions.LoginMintRefresh(u));
      LoginSigns(cfg, sh, u, env(n));
      MintsRefresh(cfg, t1, u, env(n + 1));
      var (t2, p2) := Advance(cfg, t1, p1, env(n + 1));
      assert Finish(cfg, sh, p, env, n) == Finish(cfg, t1, p1, env, n + 1) == Finish(cfg, t2, p2, env, n + 2);
    }
  }

  /** After the comparison, the tables are the same but for the event that asks for an upgrade, if the
      comparison said that one is needed. */
  predicate OnlyUpgradeQueued(cfg: Config, before: Shared, after: Shared, row: UserState, password: string, env: Env,
        n: nat) {
    && after.users == before.users
    && var answer := cfg.compare(password, row.hash);
       after.outbox == before.outbox
           + (if answer.CompareAnswer? && answer.needsUpgrade then UpgradeEvent(cfg, row.id, password, env, n)
                                        else [])
  }

  lemma LoginCompares(cfg: Config, sh: Shared, u: UserState, password: string, ch: Choice)
    requires ch.fault.Fine?
    ensures var (t, q) := Advance(cfg, sh, Session(Sessions.LoginCompare(u, password)), ch);
            && t == Later(sh, ch)
            && (if !IsMatch(cfg, password, u.hash) then q == Finished(Failure(InvalidLogin))
                else if cfg.compare(password, u.hash).needsUpgrade then q == Session(Sessions.LoginRehash(u, password))
                else q == OfSession(Sessions.SecondFactor(u)))
  {
  }

  lemma ComparedLoginEnds(cfg: Config, sh: Shared, u: UserState, row: UserState, password: string, env: Env, n: nat)
    requires ShowsRow(u, row) && NoFaults(env, n, 6)
    ensures var end := Finish(cfg, sh, Session(Sessions.LoginCompare(u, password)), env, n);
            if IsMatch(cfg, password, row.hash)
            then LoggedIn(end.sh, end.outcome, row) && OnlyUpgradeQueued(cfg, sh, end.sh, row, password, env, n + 1)
            else end.outcome == Failure(InvalidLogin) && SameTables(sh, end.sh)
  {
    hide Advance, LoggedIn, UpgradeEvent;
    var p := Session(Sessions.LoginCompare(u, password));
    LoginCompares(cfg, sh, u, password, env(n));
    var (t, q) := Advance(cfg, sh, p, env(n));
    assert Finish(cfg, sh, p, env, n) == Finish(cfg, t, q, env, n + 1);
    if q == Session(Sessions.LoginRehash(u, password)) {
      var t2, m := LoginUpgrades(cfg, t, u, password, env, n + 1);
      SecondFactorEnds(cfg, t2, u, row, env, m);
    } else if !q.Finished? {
      SecondFactorEnds(cfg, t, u, row, env, n + 1);
      assert sh.outbox + [] == sh.outbox;
    }
  }

  /** Without faults, a login succeeds exactly when the address is valid and registered and the password
      matches the stored hash; it fails in one and the same way otherwise. No user is changed, and an upgrade
      to a new hash of the password is queued exactly if the comparison said that one is needed. */
  lemma LoginSucceedsExactlyWhen(cfg: Config, sh: Shared, email: string, password: string, env: Env, n: nat)
    requires ShOk(cfg, sh) && Email.FixesEmails(cfg.normalise) && NoFaults(env, n, 7)
    ensures var end, address := Do(cfg, sh, Request(Login(email, password)), env, n),
        Email.NewEmail(cfg.normalise, email);
            if address.Ok? && RowByEmail(sh.users, address.value).Some?
               && IsMatch(cfg, password, RowByEmail(sh.users, address.value).value.hash)
            then
              var row := RowByEmail(sh.users, address.value).value;
              LoggedIn(end.sh, end.outcome, row) && OnlyUpgradeQueued(cfg, sh, end.sh, row, password, env, n + 2)
            else end.outcome == Failure(InvalidLogin) && SameTables(sh, end.sh)
  {
    hide Advance, ShOk, IsMatch, LoggedIn, RowByEmail, UpgradeEvent;
    var address := Email.NewEmail(cfg.normalise, email);
    if address.Ok? {
      var p := Session(Sessions.LoginFind(address.value, password));
      LoginFinds(cfg, sh, address.value, password, env(n));
      var (t, q) := Advance(cfg, sh, p, env(n));
      assert Do(cfg, sh, Request(Login(email, password)), env, n) == Finish(cfg, sh, p, env, n)
          == Finish(cfg, t, q, env, n + 1);
      var found := RowByEmail(sh.users, address.value);
      if found.Some? {
        ComparedLoginEnds(cfg, t, q.s.user, found.value, password, env, n + 1);
      }
    }
  }

  // ---------- Refresh ----------

  lemma RefreshReads(cfg: Config, sh: Shared, ch: Choice, token: string)
    requires ch.fault.Fine?
    ensures var k, now := Key(Refresh, token), sh.now + ch.delay;
            Advance(cfg, sh, Begin(cfg, RefreshToken(token)), ch) ==
              (Later(sh, ch), if k in sh.tokens && now < sh.tokens[k].expires
                              then Session(Sessions.RefreshFind(token, sh.tokens[k].userId))
                              else Finished(Failure(InvalidRefreshToken)))
  {
  }

  /** Without faults, a refresh succeeds exactly when the token is stored and has not expired when it is
      read; the session it returns is that of the user the token names, and the token it returns takes the
      place of the old one for a week. */
  lemma RefreshSucceedsExactlyWhen(cfg: Config, sh: Shared, token: string, env: Env, n: nat)
    requires ShOk(cfg, sh) && Email.FixesEmails(cfg.normalise) && cfg.topology.TokensFromUserEvents()
        && NoFaults(env, n, 5)
    ensures var end, k := Do(cfg, sh, Request(RefreshToken(token)), env, n), Key(Refresh, token);
            if k in sh.tokens && sh.now + env(n).delay < sh.tokens[k].expires
            then
              && end.outcome.Success? && end.outcome.body.Tokens?
              && sh.tokens[k].userId in sh.users && ShowsRow(end.outcome.body.user, sh.users[sh.tokens[k].userId])
              && RotatedTo(sh, end.sh, token, end.outcome.body.refreshToken, sh.tokens[k].userId,
                           end.sh.now - env(n + 4).delay)
            else end.outcome == Failure(InvalidRefreshToken)
  {
    hide Advance, ShOk;
    var k, p := Key(Refresh, token), Begin(cfg, RefreshToken(token));
    RefreshReads(cfg, sh, env(n), token);
    var (t, q) := Advance(cfg, sh, p, env(n));
    assert Do(cfg, sh, Request(RefreshToken(token)), env, n) == Finish(cfg, t, q, env, n + 1);
    if !q.Finished? {
      LaterOk(cfg, sh, env(n));
      NamesUser(cfg, sh, k);
      var u := ReadRefreshSucceeds(cfg, t, sh.tokens[k].userId, env, n + 1, token);
    }
  }

  // ---------- Logout ----------

  /** Without faults, a logout always succeeds, and removes exactly the token it names. */
  lemma LogoutRemovesExactly(cfg: Config, sh: Shared, token: string, env: Env, n: nat)
    requires NoFaults(env, n, 1)
    ensures var end := Do(cfg, sh, Request(Logout(token)), env, n);
            end.outcome == Success(Nothing) && end.sh == Later(sh, env(n)).(tokens := sh.tokens - {Key(Refresh, token)})
  {
    hide Advance;
    LogoutDels(cfg, sh, token, env(n));
    var p := Session(Sessions.LogoutDel(token));
    var (t, q) := Advance(cfg, sh, p, env(n));
    assert Do(cfg, sh, Request(Logout(token)), env, n) == Finish(cfg, sh, p, env, n) == Finish(cfg, t, q, env, n + 1);
  }

  lemma LogoutDels(cfg: Config, sh: Shared, token: string, ch: Choice)
    requires ch.fault.Fine?
    ensures Advance(cfg, sh, Session(Sessions.LogoutDel(token)), ch)
         == (Later(sh, ch).(tokens := sh.tokens - {Key(Refresh, token)}), Finished(Success(Nothing)))
  {
  }
}
