/** What the account use cases and the worker's handlers come to, whichever of their dependencies fail on the way. */
module AccountFailures {
  import opened Wrappers
  import opened Users
  import opened Store
  import opened Invariant
  import opened Machine
  import opened Serial
  import opened MfaTokens
  import opened Consumer
  import opened AccountOutcomes
  import opened Failures
  import Email
  import Accounts
  import Handlers

  // ---------- Requests that queue ----------

  /** Whatever fails: a registration request succeeds exactly for a valid address that is free, when both of its
      operations work. */
  lemma RegisterOutcome(cfg: Config, sh: Shared, email: string, password: string, env: Env, n: nat)
    requires ShOk(cfg, sh) && Email.FixesEmails(cfg.normalise)
    ensures var address := cfg.normalise(email);
            Do(cfg, sh, Request(Register(email, password)), env, n).outcome ==
              (if !Email.Matches(address) then Failure(InvalidEmail)
               else if !Works(env, n) then Failure(Dependency)
               else if EmailTaken(sh.users, address) then Failure(UserAlreadyExists)
               else if !Works(env, n + 1) then Failure(Dependency)
               else Success(Nothing))
  {
    hide Exec, Finish, ShOk, RowByEmail, Loaded, Email.Matches, Email.IsEmail, EmailTaken;
    var address, command := cfg.normalise(email), RegisterPayload(email, password);
    Email.RecogniserIsPattern(address);
    if Email.IsEmail(address) {
      var t, found := Goes(cfg, sh, Account(Accounts.RegisterFind(address, command)), env, n);
      if Works(env, n) {
        if EmailTaken(sh.users, address) {
          FoundByEmail(cfg, sh, address, t.now);
        } else {
          var t1, queued := Goes(cfg, t, Account(Accounts.RegisterQueue(command)), env, n + 1);
        }
      }
    } else {
      Ended(cfg, sh, Failure(InvalidEmail), env, n);
    }
  }

  /** Whatever fails: a request for a new password is answered alike for a registered address and for one that is
      not, unless the command cannot be queued. */
  lemma ForgotOutcome(cfg: Config, sh: Shared, email: string, env: Env, n: nat)
    requires ShOk(cfg, sh) && Email.FixesEmails(cfg.normalise)
    ensures var address := cfg.normalise(email);
            Do(cfg, sh, Request(Call.ForgotPassword(email)), env, n).outcome ==
              (if !Email.Matches(address) then Failure(InvalidEmail)
               else if !Works(env, n) then Failure(Dependency)
               else if EmailTaken(sh.users, address) && !Works(env, n + 1) then Failure(Dependency)
               else Success(Nothing))
  {
    hide Exec, Finish, ShOk, RowByEmail, Loaded, Email.Matches, Email.IsEmail, EmailTaken;
    var address := cfg.normalise(email);
    Email.RecogniserIsPattern(address);
    if Email.IsEmail(address) {
      var t, found := Goes(cfg, sh, Account(Accounts.ForgotFind(address)), env, n);
      if Works(env, n) && EmailTaken(sh.users, address) {
        FoundByEmail(cfg, sh, address, t.now);
        var t1, queued := Goes(cfg, t, Account(Accounts.ForgotQueue(found.user)), env, n + 1);
      }
    } else {
      Ended(cfg, sh, Failure(InvalidEmail), env, n);
    }
  }

  /** Whatever fails: a request to change roles succeeds exactly for a stored user, when both of its operations
      work. */
  lemma RolesRequestOutcome(cfg: Config, sh: Shared, id: Id, roles: Option<seq<string>>, env: Env, n: nat)
    requires ShOk(cfg, sh) && Email.FixesEmails(cfg.normalise)
    ensures Do(cfg, sh, Request(ChangeRoles(id, roles)), env, n).outcome ==
              (if !Works(env, n) then Failure(Dependency)
               else if id !in sh.users then Failure(UserNotFound)
               else if !Works(env, n + 1) then Failure(Dependency)
               else Success(Nothing))
  {
    hide Exec, Finish, ShOk, Loaded;
    var t, found := Goes(cfg, sh, Account(Accounts.RolesFind(id, roles)), env, n);
    if Works(env, n) && id in sh.users {
      FoundById(cfg, sh, id, t.now);
      var t1, queued := Goes(cfg, t, Account(Accounts.RolesQueue(id, roles)), env, n + 1);
    }
  }

  // ---------- Password reset and confirmation ----------

  lemma ResetEndsWith(cfg: Config, sh: Shared, u: UserState, env: Env, n: nat, token: string)
    requires |u.totpSecret| <= 128
    ensures Finish(cfg, sh, Account(Accounts.ResetUpdate(token, u)), env, n).outcome
         == if Works(env, n) then Success(Nothing) else Failure(Dependency)
  {
    hide Exec, Finish;
    var t, updated := Goes(cfg, sh, Account(Accounts.ResetUpdate(token, u)), env, n);
    if Works(env, n) {
      var t1, deleted := Goes(cfg, t, Account(Accounts.ResetDel(token)), env, n + 1);
    }
  }

  lemma FoundReset(cfg: Config, sh: Shared, id: Id, env: Env, n: nat, token: string, password: string)
    requires ShOk(cfg, sh) && Email.FixesEmails(cfg.normalise) && id in sh.users
    ensures Finish(cfg, sh, Account(Accounts.ResetFind(token, password, id)), env, n).outcome ==
              (if && Works(env, n) && Works(env, n + 1) && Works(env, n + 2)
                  && password != "" && cfg.hash(password, env(n + 1).salt) != ""
               then Success(Nothing) else Failure(Dependency))
  {
    hide Exec, Finish, ShOk, Loaded;
    var t, found := Goes(cfg, sh, Account(Accounts.ResetFind(token, password, id)), env, n);
    if Works(env, n) {
      FoundById(cfg, sh, id, t.now);
      var t1, hashed := Goes(cfg, t, Account(Accounts.ResetHash(token, password, found.user)), env, n + 1);
      if hashed.Hashed? {
        ResetEndsWith(cfg, t1, found.user.UpdatePassword(hashed.hash, t1.now), env, n + 2, token);
      }
    }
  }

  /** Whatever fails: a reset succeeds exactly when the token is live at its read, the new password is hashed, and
      every operation works but, perhaps, the deletion of the token. */
  lemma ResetOutcome(cfg: Config, sh: Shared, token: string, password: string, env: Env, n: nat)
    requires ShOk(cfg, sh) && Email.FixesEmails(cfg.normalise) && cfg.topology.TokensFromUserEvents()
    ensures Do(cfg, sh, Request(ResetPassword(token, password)), env, n).outcome ==
              (if !Works(env, n) then Failure(Dependency)
               else if !LiveThen(sh, Key(Reset, token), sh.now + env(n).delay) then Failure(InvalidResetToken)
               else if && Works(env, n + 1) && Works(env, n + 2) && Works(env, n + 3)
                       && password != "" && cfg.hash(password, env(n + 2).salt) != ""
               then Success(Nothing) else Failure(Dependency))
  {
    hide Exec, Finish, ShOk, Answers;
    var k := Key(Reset, token);
    var t, read := Goes(cfg, sh, Account(Accounts.ResetGet(token, password)), env, n);
    ReadAnswers(cfg, sh, k, env(n), t.now, read);
    if read.Got? {
      LaterOk(cfg, sh, env(n));
      NamesUser(cfg, sh, k);
      FoundReset(cfg, t, sh.tokens[k].userId, env, n + 1, token, password);
    }
  }

  lemma FoundConfirmation(cfg: Config, sh: Shared, id: Id, env: Env, n: nat, token: string)
    requires ShOk(cfg, sh) && Email.FixesEmails(cfg.normalise) && id in sh.users
    ensures Finish(cfg, sh, Account(Accounts.ConfirmFind(token, id)), env, n).outcome
         == if Works(env, n) && Works(env, n + 1) then Success(Nothing) else Failure(Dependency)
  {
    hide Exec, Finish, ShOk, Loaded;
    var t, found := Goes(cfg, sh, Account(Accounts.ConfirmFind(token, id)), env, n);
    if Works(env, n) {
      FoundById(cfg, sh, id, t.now);
      ConfirmationEndsWith(cfg, t, found.user.ConfirmEmail(t.now), env, n + 1, token);
    }
  }

  lemma ConfirmationEndsWith(cfg: Config, sh: Shared, u: UserState, env: Env, n: nat, token: string)
    requires |u.totpSecret| <= 128
    ensures Finish(cfg, sh, Account(Accounts.ConfirmUpdate(token, u)), env, n).outcome
         == if Works(env, n) then Success(Nothing) else Failure(Dependency)
  {
    hide Exec, Finish;
    var t, updated := Goes(cfg, sh, Account(Accounts.ConfirmUpdate(token, u)), env, n);
    if Works(env, n) {
      var t1, deleted := Goes(cfg, t, Account(Accounts.ConfirmDel(token)), env, n + 1);
    }
  }

  /** Whatever fails: a confirmation succeeds exactly when the token is live at its read and every operation works
      but, perhaps, the deletion of the token. */
  lemma ConfirmOutcome(cfg: Config, sh: Shared, token: string, env: Env, n: nat)
    requires ShOk(cfg, sh) && Email.FixesEmails(cfg.normalise) && cfg.topology.TokensFromUserEvents()
    ensures Do(cfg, sh, Request(ConfirmEmail(token)), env, n).outcome ==
              (if !Works(env, n) then Failure(Dependency)
               else if !LiveThen(sh, Key(Confirm, token), sh.now + env(n).delay)
               then Failure(InvalidVerificationToken)
               else if Works(env, n + 1) && Works(env, n + 2) then Success(Nothing)
               else Failure(Dependency))
  {
    hide Exec, Finish, ShOk, Answers;
    var k := Key(Confirm, token);
    var t, read := Goes(cfg, sh, Account(Accounts.ConfirmGet(token)), env, n);
    ReadAnswers(cfg, sh, k, env(n), t.now, read);
    if read.Got? {
      LaterOk(cfg, sh, env(n));
      NamesUser(cfg, sh, k);
      FoundConfirmation(cfg, t, sh.tokens[k].userId, env, n + 1, token);
    }
  }

  // ---------- Second factor and profile ----------

  /** Whatever fails: a set-up succeeds, with the secret that was drawn, exactly for a stored user and a secret that
      fits its column, when all three operations work. */
  lemma SetupOutcome(cfg: Config, sh: Shared, id: Id, env: Env, n: nat)
    requires ShOk(cfg, sh) && Email.FixesEmails(cfg.normalise)
    ensures Do(cfg, sh, Request(SetupMFA(id)), env, n).outcome ==
              (if !Works(env, n) then Failure(Dependency)
               else if id !in sh.users then Failure(UserNotFound)
               else if Works(env, n + 1) && Works(env, n + 2) && |env(n + 1).random| <= 128
               then Success(Secret(env(n + 1).random))
               else Failure(Dependency))
  {
    hide Exec, Finish, ShOk, Loaded;
    var t, found := Goes(cfg, sh, Account(Accounts.SetupFind(id)), env, n);
    if Works(env, n) && id in sh.users {
      FoundById(cfg, sh, id, t.now);
      FoundSetup(cfg, t, found.user, env, n + 1);
    }
  }

  lemma FoundSetup(cfg: Config, sh: Shared, u: UserState, env: Env, n: nat)
    requires u.id in sh.users
    ensures Finish(cfg, sh, Account(Accounts.SetupSecret(u)), env, n).outcome ==
              (if Works(env, n) && Works(env, n + 1) && |env(n).random| <= 128 then Success(Secret(env(n).random))
               else Failure(Dependency))
  {
    hide Exec, Finish;
    var t, drawn := Goes(cfg, sh, Account(Accounts.SetupSecret(u)), env, n);
    if Works(env, n) {
      var t1, updated := Goes(cfg, t, Account(Accounts.SetupUpdate(u.EnableMFA(drawn.token, t.now))), env, n + 1);
    }
  }

  /** The answer is the profile of the user in this row. */
  predicate AnswersProfile(cfg: Config, outcome: Outcome, row: UserState) {
    outcome.Success? && outcome.body.ProfileBody?
    && var profile := outcome.body.profile;
       profile.id == row.id && profile.email == row.email && profile.createdAt == cfg.formatTime(row.createdAt)
  }

  lemma UncachedProfile(cfg: Config, sh: Shared, id: Id, env: Env, n: nat)
    requires ShOk(cfg, sh) && Email.FixesEmails(cfg.normalise)
    ensures var outcome := Finish(cfg, sh, Account(Accounts.ProfileFind(id)), env, n).outcome;
            if Works(env, n) && Shows(sh, id, env(n)) then id in sh.users && AnswersProfile(cfg, outcome, sh.users[id])
            else outcome == Failure(UserNotFound)
  {
    hide Exec, Finish, ShOk, Answers;
    var t, found := Goes(cfg, sh, Account(Accounts.ProfileFind(id)), env, n);
    if Works(env, n) {
      ProfileFinds(cfg, sh, id, env(n));
      if Shows(sh, id, env(n)) {
        ReplicaShows(cfg, sh, id, env(n));
        FilledOrNot(cfg, t, ProfileOf(cfg, sh.users[id]), env, n + 1);
      }
    }
  }

  lemma FilledOrNot(cfg: Config, sh: Shared, profile: Profile, env: Env, n: nat)
    ensures Finish(cfg, sh, Account(Accounts.ProfileFill(profile)), env, n).outcome == Success(ProfileBody(profile))
  {
    hide Exec, Finish, Answers;
    var t, filled := Goes(cfg, sh, Account(Accounts.ProfileFill(profile)), env, n);
  }

  /** Whatever fails: a profile query answers the stored user's identity columns exactly when the cache works and has
      an entry that has not expired, or else the replica works and shows the user. A cache that fails is passed over,
      a replica that fails is reported as an unknown user, and a fill that fails is not noticed. */
  lemma ProfileOutcome(cfg: Config, sh: Shared, id: Id, env: Env, n: nat)
    requires ShOk(cfg, sh) && Email.FixesEmails(cfg.normalise)
    ensures var outcome := Do(cfg, sh, Request(QueryProfile(id)), env, n).outcome;
            var cached := Works(env, n) && id in sh.profiles && sh.now + env(n).delay < sh.profiles[id].expires;
            if cached || (Works(env, n + 1) && Shows(sh, id, env(n + 1)))
            then id in sh.users && AnswersProfile(cfg, outcome, sh.users[id])
            else outcome == Failure(UserNotFound)
  {
    hide Exec, Finish, ShOk;
    var t, cached := Goes(cfg, sh, Account(Accounts.ProfileGet(id)), env, n);
    if cached.Cached? {
      CacheIsSound(cfg, sh, id);
    } else {
      LaterOk(cfg, sh, env(n));
      UncachedProfile(cfg, t, id, env, n + 1);
    }
  }

  // ---------- The worker ----------

  /** A delivery that ends at once, or is handled by a process that goes on from here. */
  lemma Delivered(cfg: Config, sh: Shared, m: nat, env: Env, n: nat) returns (t: Shared, p: Proc)
    requires m in sh.ready && m < |sh.accepted| && ShOk(cfg, sh)
    ensures (t, p) == Launch(cfg, sh, Delivery(m)) && p == OfHandler(m, Handlers.Handle(cfg, sh.accepted[m]))
    ensures ShOk(cfg, t) && t.users == sh.users && t.now == sh.now
    ensures Do(cfg, sh, Delivery(m), env, n) == Finish(cfg, t, p, env, n)
  {
    hide Finish, Handlers.Handle;
    LaunchOk(cfg, sh, Delivery(m));
    var r := Launch(cfg, sh, Delivery(m));
    t, p := r.0, r.1;
  }

  /** Whatever fails: a registration message is settled as done exactly when its text decodes, and its address is not
      valid, or is found to be registered, or the user is stored: with a password that is hashed, an address that
      fits its column, and an identifier that is new. */
  lemma RegistrationOutcome(cfg: Config, sh: Shared, m: nat, env: Env, n: nat)
    requires ShOk(cfg, sh) && Email.FixesEmails(cfg.normalise)
    requires m in sh.ready && m < |sh.accepted| && cfg.topology.JobOf(sh.accepted[m].event).Registration?
    ensures var outcome, payload := Do(cfg, sh, Delivery(m), env, n).outcome, sh.accepted[m].payload;
            if payload.Malformed? then outcome == Failure(BadPayload)
            else
              var address, password := cfg.normalise(payload.email), payload.password;
              outcome ==
                (if !Email.Matches(address) then Success(Nothing)
                 else if !Works(env, n) then Failure(Dependency)
                 else if EmailTaken(sh.users, address) then Success(Nothing)
                 else if && Works(env, n + 1) && password != "" && cfg.hash(password, env(n + 1).salt) != ""
                         && Works(env, n + 2) && |address| <= 255 && env(n + 2).random !in sh.users
                 then Success(Nothing)
                 else Failure(Dependency))
  {
    hide Exec, Finish, ShOk, RowByEmail, Loaded, Email.Matches, Email.IsEmail, EmailTaken;
    var payload := sh.accepted[m].payload;
    var t, p := Delivered(cfg, sh, m, env, n);
    if payload.Json? {
      Email.RecogniserIsPattern(cfg.normalise(payload.email));
    }
    if p.Settling? {
      SettlesWith(cfg, t, m, p.result, env, n);
    } else {
      FreeAddress(cfg, t, m, cfg.normalise(payload.email), payload.password, env, n);
    }
  }

  lemma FreeAddress(cfg: Config, sh: Shared, m: nat, email: string, password: string, env: Env, n: nat)
    requires ShOk(cfg, sh) && Email.FixesEmails(cfg.normalise)
    ensures Finish(cfg, sh, Handling(m, Handlers.RegistrationFind(email, password)), env, n).outcome ==
              (if !Works(env, n) then Failure(Dependency)
               else if EmailTaken(sh.users, email) then Success(Nothing)
               else if && Works(env, n + 1) && password != "" && cfg.hash(password, env(n + 1).salt) != ""
                       && Works(env, n + 2) && |email| <= 255 && env(n + 2).random !in sh.users
               then Success(Nothing)
               else Failure(Dependency))
  {
    hide Exec, Finish, ShOk, RowByEmail, Loaded, EmailTaken;
    var t, found := Goes(cfg, sh, Handling(m, Handlers.RegistrationFind(email, password)), env, n);
    if Works(env, n) && EmailTaken(sh.users, email) {
      FoundByEmail(cfg, sh, email, t.now);
    }
    var q := Resume(cfg, Handling(m, Handlers.RegistrationFind(email, password)), found, t.now);
    if q.Settling? {
      SettlesWith(cfg, t, m, q.result, env, n + 1);
    } else {
      NewUserOutcome(cfg, t, m, email, password, env, n + 1);
    }
  }

  lemma NewUserOutcome(cfg: Config, sh: Shared, m: nat, email: string, password: string, env: Env, n: nat)
    requires !EmailTaken(sh.users, email)
    ensures Finish(cfg, sh, Handling(m, Handlers.RegistrationHash(email, password)), env, n).outcome ==
              (if && Works(env, n) && password != "" && cfg.hash(password, env(n).salt) != ""
                  && Works(env, n + 1) && |email| <= 255 && env(n + 1).random !in sh.users
               then Success(Nothing)
               else Failure(Dependency))
  {
    hide Exec, Finish, EmailTaken;
    var t, hashed := Goes(cfg, sh, Handling(m, Handlers.RegistrationHash(email, password)), env, n);
    if hashed.Hashed? {
      var t1, saved := Goes(cfg, t, Handling(m, Handlers.RegistrationSave(email, hashed.hash)), env, n + 1);
      SettlesWith(cfg, t1, m, if saved.Done? then Success(Nothing) else Failure(Dependency), env, n + 2);
    } else {
      SettlesWith(cfg, t, m, Failure(Dependency), env, n + 1);
    }
  }

  /** Whatever fails: a roles command is done exactly when its text decodes, its user is stored, it names roles, and
      both operations work. */
  lemma RolesCommandOutcome(cfg: Config, sh: Shared, m: nat, env: Env, n: nat)
    requires ShOk(cfg, sh) && Email.FixesEmails(cfg.normalise)
    requires m in sh.ready && m < |sh.accepted| && cfg.topology.JobOf(sh.accepted[m].event).RolesUpdate?
    ensures var outcome, payload := Do(cfg, sh, Delivery(m), env, n).outcome, sh.accepted[m].payload;
            if payload.Malformed? then outcome == Failure(BadPayload)
            else
              outcome ==
                (if !Works(env, n) then Failure(Dependency)
                 else if payload.userId !in sh.users then Failure(UserNotFound)
                 else if Works(env, n + 1) && payload.roles.Some? then Success(Nothing)
                 else Failure(Dependency))
  {
    hide Exec, Finish, ShOk, Loaded;
    var payload := sh.accepted[m].payload;
    var t, p := Delivered(cfg, sh, m, env, n);
    if p.Settling? {
      SettlesWith(cfg, t, m, p.result, env, n);
    } else {
      var t1, found := Goes(cfg, t, p, env, n);
      if Works(env, n) && payload.userId in sh.users {
        FoundById(cfg, t, payload.userId, t1.now);
      }
      var q := Resume(cfg, p, found, t1.now);
      if q.Settling? {
        SettlesWith(cfg, t1, m, q.result, env, n + 1);
      } else {
        RolesWriteOutcome(cfg, t1, m, payload.userId, payload.roles, env, n + 1);
      }
    }
  }

  lemma RolesWriteOutcome(cfg: Config, sh: Shared, m: nat, id: Id, roles: Option<seq<string>>, env: Env, n: nat)
    requires id in sh.users
    ensures Finish(cfg, sh, Handling(m, Handlers.RolesWrite(id, roles)), env, n).outcome
         == if Works(env, n) && roles.Some? then Success(Nothing) else Failure(Dependency)
  {
    hide Exec, Finish;
    var t, written := Goes(cfg, sh, Handling(m, Handlers.RolesWrite(id, roles)), env, n);
    SettlesWith(cfg, t, m, if written.Done? then Success(Nothing) else Failure(Dependency), env, n + 1);
  }

  /** Whatever fails: a message that has a token mailed is done exactly when its text decodes and the token is
      stored. */
  lemma MailOutcome(cfg: Config, sh: Shared, m: nat, env: Env, n: nat)
    requires ShOk(cfg, sh)
    requires m in sh.ready && m < |sh.accepted|
    requires var job := cfg.topology.JobOf(sh.accepted[m].event); job.Confirmation? || job.ResetEmail?
    ensures Do(cfg, sh, Delivery(m), env, n).outcome ==
              (if sh.accepted[m].payload.Malformed? then Failure(BadPayload)
               else if Works(env, n) then Success(Nothing)
               else Failure(Dependency))
  {
    hide Exec, Finish, ShOk;
    var t, p := Delivered(cfg, sh, m, env, n);
    if p.Settling? {
      SettlesWith(cfg, t, m, p.result, env, n);
    } else {
      var t1, stored := Goes(cfg, t, p, env, n);
      SettlesWith(cfg, t1, m, if stored.Minted? then Success(Nothing) else Failure(Dependency), env, n + 1);
    }
  }

  /** Whatever fails: an upgrade is done exactly when its text decodes, its user is stored, it brings a hash, and
      both operations work. */
  lemma UpgradeOutcome(cfg: Config, sh: Shared, m: nat, env: Env, n: nat)
    requires ShOk(cfg, sh) && Email.FixesEmails(cfg.normalise)
    requires m in sh.ready && m < |sh.accepted| && cfg.topology.JobOf(sh.accepted[m].event).Upgrade?
    ensures var outcome, payload := Do(cfg, sh, Delivery(m), env, n).outcome, sh.accepted[m].payload;
            if payload.Malformed? then outcome == Failure(BadPayload)
            else
              outcome ==
                (if !Works(env, n) then Failure(Dependency)
                 else if payload.userId !in sh.users then Failure(UserNotFound)
                 else if payload.newHash == "" then Failure(BadHash)
                 else if Works(env, n + 1) then Success(Nothing)
                 else Failure(Dependency))
  {
    hide Exec, Finish, ShOk, Loaded;
    var payload := sh.accepted[m].payload;
    var t, p := Delivered(cfg, sh, m, env, n);
    if p.Settling? {
      SettlesWith(cfg, t, m, p.result, env, n);
    } else {
      var t1, found := Goes(cfg, t, p, env, n);
      if Works(env, n) && payload.userId in sh.users {
        FoundById(cfg, t, payload.userId, t1.now);
      }
      var q := Resume(cfg, p, found, t1.now);
      if q.Settling? {
        SettlesWith(cfg, t1, m, q.result, env, n + 1);
      } else {
        UpgradeWriteOutcome(cfg, t1, m, q.h.user, env, n + 1);
      }
    }
  }

  lemma UpgradeWriteOutcome(cfg: Config, sh: Shared, m: nat, u: UserState, env: Env, n: nat)
    requires |u.totpSecret| <= 128
    ensures Finish(cfg, sh, Handling(m, Handlers.UpgradeUpdate(u)), env, n).outcome
         == if Works(env, n) then Success(Nothing) else Failure(Dependency)
  {
    hide Exec, Finish;
    var t, written := Goes(cfg, sh, Handling(m, Handlers.UpgradeUpdate(u)), env, n);
    SettlesWith(cfg, t, m, if written.Done? then Success(Nothing) else Failure(Dependency), env, n + 1);
  }
}
