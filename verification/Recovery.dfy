/** A forgotten password from end to end: the request, the relay, the worker's token, the reset, and the
    next login. */
module Recovery {
  import opened Wrappers
  import opened Users
  import opened Store
  import opened Topology
  import opened Invariant
  import opened Machine
  import opened Serial
  import opened History
  import opened MfaTokens
  import opened RelayDrain
  import opened Consumer
  import opened Claims
  import opened Outcomes
  import opened AccountOutcomes
  import opened Upgrade
  import opened Journey
  import Email
  import Accounts
  import Handlers
  import PasswordServer
  import V1 = PasswordV1

  // ---------- The request ----------

  lemma ForgotFinds(cfg: Config, sh: Shared, email: string, ch: Choice)
    requires ShOk(cfg, sh) && Email.FixesEmails(cfg.normalise) && ch.fault.Fine?
    ensures var (t, q) := Advance(cfg, sh, Account(Accounts.ForgotFind(email)), ch);
            && t == Later(sh, ch)
            && match RowByEmail(sh.users, email)
               case None => q == Finished(Success(Nothing))
               case Some(row) => q.Account? && q.a.ForgotQueue? && ShowsRow(q.a.user, row)
  {
    hide ShOk;
    var found := RowByEmail(sh.users, email);
    if found.Some? {
      var id :| id in sh.users && sh.users[id] == found.value;
      RowsRestorable(cfg, sh, id);
      LoadShowsRow(cfg, found.value, sh.now + ch.delay);
    }
  }

  lemma ForgotQueues(cfg: Config, sh: Shared, u: UserState, ch: Choice)
    requires ch.fault.Fine?
    ensures var (t, q) := Advance(cfg, sh, Account(Accounts.ForgotQueue(u)), ch);
            && q == Finished(Success(Nothing))
            && t == Later(sh, ch).(outbox := sh.outbox
                + [OutboxRow(EventType.ForgotPassword, ForgotPayload(u.id, u.email), ch.stamp, None)])
  {
  }

  /** Without faults, a request for a valid address always succeeds, and tells nothing about whether it is
      registered; but exactly if it is, the event for its user is in the outbox. */
  lemma RequestQueuesExactlyWhen(cfg: Config, sh: Shared, email: string, env: Env, n: nat)
    requires ShOk(cfg, sh) && Email.FixesEmails(cfg.normalise) && NoFaults(env, n, 2)
    ensures var end, address := Do(cfg, sh, Request(Call.ForgotPassword(email)), env, n), cfg.normalise(email);
            if !Email.Matches(address) then end.outcome == Failure(InvalidEmail) && end.sh == sh
            else
              && end.outcome == Success(Nothing)
              && match RowByEmail(sh.users, address)
                 case None => end.sh == Later(sh, env(n))
                 case Some(row) =>
                   var event := ForgotPayload(row.id, row.email);
                   && end.sh == Later(Later(sh, env(n)), env(n + 1)).(
                        outbox := sh.outbox + [OutboxRow(EventType.ForgotPassword, event, env(n + 1).stamp, None)])
                   && event.Json? && event.id == row.id && event.email == row.email
  {
    hide Advance, ShOk, RowByEmail, Email.Matches, Email.IsEmail;
    Email.RecogniserIsPattern(cfg.normalise(email));
    var address := Email.NewEmail(cfg.normalise, email);
    if address.Ok? {
      var p := Account(Accounts.ForgotFind(address.value));
      ForgotFinds(cfg, sh, address.value, env(n));
      var (t, q) := Advance(cfg, sh, p, env(n));
      assert Do(cfg, sh, Request(Call.ForgotPassword(email)), env, n) == Finish(cfg, sh, p, env, n)
          == Finish(cfg, t, q, env, n + 1);
      if !q.Finished? {
        ForgotQueues(cfg, t, q.a.user, env(n + 1));
        var (t2, q2) := Advance(cfg, t, q, env(n + 1));
        assert Finish(cfg, t, q, env, n + 1) == Finish(cfg, t2, q2, env, n + 2);
      }
    }
  }

  // ---------- The worker ----------

  /** The kind of token each of the two mailing handlers makes. */
  predicate Mails(cfg: Config, e: EventType, kind: Kind) {
    var job := cfg.topology.JobOf(e);
    (job.ResetEmail? && kind.Reset?) || (job.Confirmation? && kind.Confirm?)
  }

  lemma MintsToken(cfg: Config, sh: Shared, m: nat, h: Handlers.Pc, kind: Kind, id: Id, ch: Choice)
    requires (kind.Reset? && h == Handlers.ResetMint(id)) || (kind.Confirm? && h == Handlers.ConfirmationMint(id))
    requires ch.fault.Fine?
    ensures var (t, q) := Advance(cfg, sh, Handling(m, h), ch);
            && q == Settling(m, Success(Nothing)) && t.users == sh.users && t.now == sh.now + ch.delay
            && t.tokens == sh.tokens[Key(kind, ch.random) := Entry(id, t.now + Ttl(kind))]
  {
  }

  lemma SettlingWaits(cfg: Config, sh: Shared, m: nat, ch: Choice)
    ensures var t := Advance(cfg, sh, Settling(m, Success(Nothing)), ch).0;
            t.tokens == sh.tokens && t.now == sh.now + ch.delay
  {
  }

  /** The delivery of an event that has a token mailed stores one for the user it names, which lives
      fifteen minutes if it is for a reset, and a day if it is for a confirmation, from that moment. */
  lemma DeliveryMints(cfg: Config, sh: Shared, m: nat, kind: Kind, id: Id, env: Env, n: nat)
    requires m in sh.ready && m < |sh.accepted| && NoFaults(env, n, 1)
    requires var d := sh.accepted[m]; Mails(cfg, d.event, kind) && d.payload.Json? && d.payload.id == id
    ensures var end, k := Do(cfg, sh, Delivery(m), env, n), Key(kind, env(n).random);
            && end.outcome == Success(Nothing) && end.sh.users == sh.users
            && var stored := end.sh.now - env(n + 1).delay;
               end.sh.tokens == sh.tokens[k := Entry(id, stored + (if kind.Reset? then 900_000_000_000
                                                                   else 86_400_000_000_000))]
  {
    hide Advance;
    var (t, p) := Launch(cfg, sh, Delivery(m));
    MintsToken(cfg, t, m, p.h, kind, id, env(n));
    var (t1, q1) := Advance(cfg, t, p, env(n));
    SettlingMoves(cfg, t1, m, Success(Nothing), env(n + 1));
    SettlingWaits(cfg, t1, m, env(n + 1));
    var (t2, q2) := Advance(cfg, t1, q1, env(n + 1));
    assert Finish(cfg, t, p, env, n) == Finish(cfg, t1, q1, env, n + 1) == Finish(cfg, t2, q2, env, n + 2);
  }

  // ---------- From the request to the login ----------

  ghost function Asked(cfg: Config, sh: Shared, email: string, env: Env, n: nat): End {
    Do(cfg, sh, Request(Call.ForgotPassword(email)), env, n)
  }

  ghost function Passed(cfg: Config, sh: Shared, email: string, env: Env, n: nat): End {
    var end := Asked(cfg, sh, email, env, n);
    Do(cfg, end.sh, Request(Tick), env, end.n)
  }

  /** The address is that of a stored user, and the event key reaches the handler that makes the token. */
  ghost predicate CanRecover(cfg: Config, sh: Shared, email: string, id: Id) {
    && id in sh.users && Email.NewEmail(cfg.normalise, email) == Ok(sh.users[id].email)
    && cfg.topology.Routes(EventType.ForgotPassword) && cfg.topology.JobOf(EventType.ForgotPassword).ResetEmail?
    && cfg.topology.TokensFromUserEvents()
  }

  lemma RecoverableMeans(cfg: Config, before: Shared, after: Shared, email: string, id: Id)
    requires CanRecover(cfg, before, email, id) && after.users == before.users
    ensures CanRecover(cfg, after, email, id) && Mails(cfg, EventType.ForgotPassword, Reset)
  {
  }

  lemma EmailsUnique(cfg: Config, sh: Shared)
    requires ShOk(cfg, sh)
    ensures UniqueEmails(sh.users)
  {
  }

  lemma RequestIsPassedOn(cfg: Config, sh: Shared, email: string, id: Id, env: Env, n: nat) returns (m: nat)
    requires ShOk(cfg, sh) && Email.FixesEmails(cfg.normalise) && CanRecover(cfg, sh, email, id) && AllWorks(cfg, env)
    requires var asked := Asked(cfg, sh, email, env, n);
             Selects(asked.sh, env(asked.n)) && |sh.outbox| in env(asked.n).pick
    ensures var passed := Passed(cfg, sh, email, env, n);
            && ShOk(cfg, passed.sh) && passed.sh.users == sh.users
            && m in passed.sh.ready && m < |passed.sh.accepted|
            && passed.sh.accepted[m]
                == Message(EventType.ForgotPassword, ForgotPayload(id, sh.users[id].email), |sh.outbox|)
  {
    hide Do, ShOk, IsBatch, AllWorks;
    AllWorksMeans(cfg, env, n, 2, "");
    EmailsUnique(cfg, sh);
    FoundRow(sh.users, sh.users[id].email, id);
    RowsRestorable(cfg, sh, id);
    Email.RecogniserIsPattern(cfg.normalise(email));
    RequestQueuesExactlyWhen(cfg, sh, email, env, n);
    DoOk(cfg, sh, Request(Call.ForgotPassword(email)), env, n);
    var asked := Asked(cfg, sh, email, env, n);
    AllWorksMeans(cfg, env, asked.n, |env(asked.n).pick| + 2, "");
    m := TickDelivers(cfg, asked.sh, env, asked.n, |sh.outbox|);
    DoOk(cfg, asked.sh, Request(Tick), env, asked.n);
  }

  /** A reset that is used in time: exactly the passwords that match the new hash log in, the new one among
      them. */
  lemma ResetThenLogin(cfg: Config, sh: Shared, email: string, id: Id, token: string, newPassword: string,
        tried: string, env: Env, n: nat)
    requires ShOk(cfg, sh) && Email.FixesEmails(cfg.normalise) && CanRecover(cfg, sh, email, id) && AllWorks(cfg, env)
    requires newPassword != ""
    requires var k := Key(Reset, token);
             k in sh.tokens && sh.tokens[k].userId == id && sh.now + env(n).delay < sh.tokens[k].expires
    ensures var reset, hash := Do(cfg, sh, Request(ResetPassword(token, newPassword)), env, n),
        cfg.hash(newPassword, env(n + 2).salt);
            && reset.outcome == Success(Nothing) && Key(Reset, token) !in reset.sh.tokens
            && (Do(cfg, reset.sh, Request(Login(email, tried)), env, reset.n).outcome.Success? <==>
                IsMatch(cfg, tried, hash))
            && IsMatch(cfg, newPassword, hash)
  {
    hide Do, ShOk, AllWorks, IsMatch;
    AllWorksMeans(cfg, env, n, 5, newPassword);
    ResetSucceedsExactlyWhen(cfg, sh, token, newPassword, env, n);
    DoOk(cfg, sh, Request(ResetPassword(token, newPassword)), env, n);
    var reset := Do(cfg, sh, Request(ResetPassword(token, newPassword)), env, n);
    AllWorksMeans(cfg, env, reset.n, 7, newPassword);
    EmailsUnique(cfg, reset.sh);
    FoundRow(reset.sh.users, sh.users[id].email, id);
    LoginSucceedsExactlyWhen(cfg, reset.sh, email, tried, env, reset.n);
  }

  /** Where nothing fails and the event reaches its handler: after a request for a registered address, a
      pass of the relay that takes it, and the delivery of the message, a reset with the token that was made,
      less than its lifetime later, replaces the password: whatever it was before, a login with that address
      then succeeds with exactly the passwords that match the new hash, the new one among them. */
  lemma ForgottenPasswordIsReplaced(cfg: Config, sh: Shared, email: string, id: Id, newPassword: string, tried: string,
        env: Env, n: nat)
    returns (m: nat)
    requires ShOk(cfg, sh) && Email.FixesEmails(cfg.normalise) && CanRecover(cfg, sh, email, id) && AllWorks(cfg, env)
    requires newPassword != ""
    requires var asked := Asked(cfg, sh, email, env, n);
             Selects(asked.sh, env(asked.n)) && |sh.outbox| in env(asked.n).pick
    ensures var passed := Passed(cfg, sh, email, env, n);
            var minted := Do(cfg, passed.sh, Delivery(m), env, passed.n);
            var token, hash := env(passed.n).random, cfg.hash(newPassword, env(minted.n + 2).salt);
            var reset := Do(cfg, minted.sh, Request(ResetPassword(token, newPassword)), env, minted.n);
            && m in passed.sh.ready && minted.outcome == Success(Nothing)
            && (env(passed.n + 1).delay + env(minted.n).delay < 900_000_000_000 ==>
                  && reset.outcome == Success(Nothing) && Key(Reset, token) !in reset.sh.tokens
                  && (Do(cfg, reset.sh, Request(Login(email, tried)), env, reset.n).outcome.Success? <==>
                      IsMatch(cfg, tried, hash))
                  && IsMatch(cfg, newPassword, hash))
  {
    hide Do, ShOk, IsBatch, AllWorks, Asked, Passed, IsMatch, Mails, CanRecover;
    m := RequestIsPassedOn(cfg, sh, email, id, env, n);
    var passed := Passed(cfg, sh, email, env, n);
    AllWorksMeans(cfg, env, passed.n, 1, "");
    RecoverableMeans(cfg, sh, passed.sh, email, id);
    DeliveryMints(cfg, passed.sh, m, Reset, id, env, passed.n);
    DoOk(cfg, passed.sh, Delivery(m), env, passed.n);
    var minted := Do(cfg, passed.sh, Delivery(m), env, passed.n);
    RecoverableMeans(cfg, sh, minted.sh, email, id);
    if env(passed.n + 1).delay + env(minted.n).delay < 900_000_000_000 {
      ResetThenLogin(cfg, minted.sh, email, id, env(passed.n).random, newPassword, tried, env, minted.n);
    }
  }

  /** Where new hashes are of version 1, that is: exactly the passwords that Argon2id maps to the digest of the
      new one, under the salt drawn for it. */
  lemma ForgottenUnderV1(cfg: Config, services: seq<PasswordServer.HashService>, v1: V1.Service,
        argon2id: V1.Argon2id, sh: Shared, email: string, id: Id, newPassword: string, tried: string, env: Env, n: nat)
    returns (m: nat)
    requires HashedByV1(cfg, services, v1, argon2id) && newPassword != ""
    requires ShOk(cfg, sh) && Email.FixesEmails(cfg.normalise) && CanRecover(cfg, sh, email, id) && AllWorks(cfg, env)
    requires var asked := Asked(cfg, sh, email, env, n);
             Selects(asked.sh, env(asked.n)) && |sh.outbox| in env(asked.n).pick
    ensures var passed := Passed(cfg, sh, email, env, n);
            var minted := Do(cfg, passed.sh, Delivery(m), env, passed.n);
            var token, salt := env(passed.n).random, env(minted.n + 2).salt;
            var reset := Do(cfg, minted.sh, Request(ResetPassword(token, newPassword)), env, minted.n);
            env(passed.n + 1).delay + env(minted.n).delay < 900_000_000_000 ==>
              (Do(cfg, reset.sh, Request(Login(email, tried)), env, reset.n).outcome.Success? <==>
                v1.Digest(argon2id, tried, salt) == v1.Digest(argon2id, newPassword, salt))
  {
    hide Do, ShOk, Asked, Passed, AllWorks, IsBatch, IsMatch, HashedByV1;
    m := ForgottenPasswordIsReplaced(cfg, sh, email, id, newPassword, tried, env, n);
    var passed := Passed(cfg, sh, email, env, n);
    var minted := Do(cfg, passed.sh, Delivery(m), env, passed.n);
    V1Matches(cfg, services, v1, argon2id, newPassword, tried, env(minted.n + 2).salt);
  }
}
