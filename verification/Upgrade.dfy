/** Transparent password upgrades and password resets over whole runs: exactly when a password keeps matching,
    when an applied upgrade lasts, and when a reset does. */
module Upgrade {
  import opened Wrappers
  import opened Users
  import opened Store
  import opened Invariant
  import opened Machine
  import opened Safety
  import opened History
  import opened Serial
  import opened Consumer
  import opened Hashes
  import opened HashSpread
  import Email
  import Accounts
  import Handlers
  import PasswordServer
  import Topology
  import V1 = PasswordV1

  /** Hashing a password anew gives a hash that it matches and that needs no upgrade. */
  ghost predicate NewHashesAreCurrent(cfg: Config) {
    forall password, salt :: password != "" ==>
        cfg.compare(password, cfg.hash(password, salt)) == CompareAnswer(true, false)
  }

  /** Whether a hash asks for an upgrade does not depend on which of the passwords that match it is compared. */
  ghost predicate NeedIsOfHash(cfg: Config) {
    forall p, q, h :: IsMatch(cfg, p, h) && IsMatch(cfg, q, h) ==>
        cfg.compare(p, h).needsUpgrade == cfg.compare(q, h).needsUpgrade
  }

  /** The hashes that the password matches and that ask for no upgrade. */
  ghost function Current(cfg: Config, password: string): Hashes {
    h => cfg.compare(password, h) == CompareAnswer(true, false)
  }

  /** The password matches the hash, and no other one in use does. */
  ghost predicate MatchesOnly(cfg: Config, use: Use, password: string, h: string) {
    forall p :: p in use.passwords || p == password ==> (IsMatch(cfg, p, h) <==> p == password)
  }

  ghost function Only(cfg: Config, use: Use, password: string): Hashes {
    h => MatchesOnly(cfg, use, password, h)
  }

  /** No other password in use matches a hash made of this one under a salt in use. */
  ghost predicate TellsApart(cfg: Config, use: Use, password: string) {
    password != "" ==> forall salt :: salt in use.salts ==> MatchesOnly(cfg, use, password, cfg.hash(password, salt))
  }

  lemma CurrentCloses(cfg: Config, use: Use, password: string)
    requires NeedIsOfHash(cfg)
    ensures ClosedUnder(cfg, use, Current(cfg, password))
  {
    forall h, p | AsksForUpgrade(cfg, p, h)
      ensures !Current(cfg, password)(h)
    {
      assert IsMatch(cfg, p, h);
      assert Current(cfg, password)(h) ==> IsMatch(cfg, password, h);
    }
  }

  lemma OnlyCloses(cfg: Config, use: Use, password: string)
    requires TellsApart(cfg, use, password)
    ensures ClosedUnder(cfg, use, Only(cfg, use, password))
  {
    forall h, p | Only(cfg, use, password)(h) && p in use.passwords && AsksForUpgrade(cfg, p, h)
      ensures MakesIn(cfg, use, p, Only(cfg, use, password))
    {
      assert MatchesOnly(cfg, use, password, h) && IsMatch(cfg, p, h);
    }
  }

  /** In every interleaving in which no password reset of the user gets so far as to load it, whatever upgrades
      are applied, in any order and any number of times: of the passwords in use exactly this one matches the
      stored hash, however it goes on, exactly when that holds now of the stored hash, of what a confirmation or
      set-up can write back, of every upgrade that can still be handled, and of those that logins under way will
      have queued. */
  lemma PasswordKeepsMatching(cfg: Config, use: Use, s: State, id: Id, password: string)
    requires Inv(cfg, s) && Email.FixesEmails(cfg.normalise) && NoneResets(s, id) && id in s.sh.users
    requires LoginsInUse(use, s) && TellsApart(cfg, use, password) && exists salt :: salt in use.salts
    ensures StaysIn(cfg, use, s, id, Only(cfg, use, password)) <==> HashesIn(cfg, use, s, id, Only(cfg, use, password))
  {
    hide Inv, NoneResets, LoginsInUse, TellsApart, HashesIn, StaysIn, ClosedUnder;
    OnlyCloses(cfg, use, password);
    StaysInExactlyWhen(cfg, use, s, id, Only(cfg, use, password));
  }

  /** Where nothing is under way, and every upgrade of the user that was queued is published and acknowledged,
      the condition is one of the stored hash alone. */
  lemma AtRest(cfg: Config, use: Use, s: State, id: Id, hashes: Hashes)
    requires forall p :: p in s.procs ==> s.procs[p].Finished?
    requires forall r: nat :: Unpublished(s.sh.outbox, r) ==>
        Carried(cfg, s.sh.outbox[r].event, s.sh.outbox[r].payload, id).None?
    requires forall m: nat :: Pends(s.sh, m) ==>
        Carried(cfg, s.sh.accepted[m].event, s.sh.accepted[m].payload, id).None?
    ensures HashesIn(cfg, use, s, id, hashes) <==> StoredIn(s.sh, id, hashes)
  {
    hide Carried;
  }

  // ---------- Exactly when an applied upgrade lasts ----------

  ghost predicate IsCurrent(cfg: Config, s: State, id: Id, password: string) {
    StoredIn(s.sh, id, Current(cfg, password))
  }

  lemma WriterEnds(cfg: Config, use: Use, s: State, pid: Pid, u: UserState, ch: Choice)
    requires Inv(cfg, s) && LoginsInUse(use, s) && pid in s.procs && AtUpdate(s.procs[pid], u)
    requires u.id in s.sh.users && SecretFits(u) && ch.fault != Lost
    requires forall p :: p in s.procs && p != pid ==> !Resets(s.procs[p], u.id)
    ensures var t := Apply(cfg, s, Run(pid, ch));
            && u.id in t.sh.users && t.sh.users[u.id].hash == u.hash
            && NoneResets(t, u.id) && LoginsInUse(use, t)
  {
    hide Exec, Inv;
    UpdateStores(cfg, s, pid, u, ch);
    var (sh, reply) := Exec(cfg, s.sh, NextOp(s.procs[pid]), ch);
    AfterUpdate(cfg, s.procs[pid], u, reply, sh.now);
  }

  lemma AfterUpdate(cfg: Config, p: Proc, u: UserState, reply: Reply, now: Time)
    requires AtUpdate(p, u)
    ensures var q := Resume(cfg, p, reply, now); !q.Session? && !Resets(q, u.id)
  {
  }

  lemma UserOfUpdate(cfg: Config, s: State, pid: Pid, u: UserState)
    requires Inv(cfg, s) && pid in s.procs && AtUpdate(s.procs[pid], u)
    ensures u.id in s.sh.users
  {
    hide ShOk, HoldersOk;
    NextOpOk(cfg, s.sh, s.procs[pid]);
  }

  /** An upgrade is applied. From then on the stored hash needs no upgrade, however it goes on without a password
      reset that loads the user, exactly when the stored hash needs none now, and none of these has another: a
      confirmation or set-up that can write the user back, an upgrade that can still be handled (in a row that
      is not published, with a relay, waiting, or held), and a login that will have one queued. */
  lemma UpgradeLastsExactlyWhen(cfg: Config, use: Use, s: State, pid: Pid, ch: Choice, m: nat, u: UserState,
        password: string)
    requires Inv(cfg, s) && Email.FixesEmails(cfg.normalise) && NeedIsOfHash(cfg)
    requires NoneResets(s, u.id) && LoginsInUse(use, s) && exists salt :: salt in use.salts
    requires At(s, pid, Handling(m, Handlers.UpgradeUpdate(u))) && ch.fault != Lost && SecretFits(u)
    ensures var t := Apply(cfg, s, Run(pid, ch));
            && u.id in t.sh.users && t.sh.users[u.id].hash == u.hash
            && (StaysIn(cfg, use, t, u.id, Current(cfg, password)) <==>
                HashesIn(cfg, use, t, u.id, Current(cfg, password)))
  {
    hide Inv, Apply, LoginsInUse, NeedIsOfHash, HashesIn, StaysIn, ClosedUnder;
    UserOfUpdate(cfg, s, pid, u);
    WriterEnds(cfg, use, s, pid, u, ch);
    ApplyKeeps(cfg, s, Run(pid, ch));
    CurrentCloses(cfg, use, password);
    StaysInExactlyWhen(cfg, use, Apply(cfg, s, Run(pid, ch)), u.id, Current(cfg, password));
  }

  // ---------- Exactly when a reset lasts ----------

  /** A password reset takes effect. The new password then matches, and no other one in use; and that stays so,
      however it goes on without another reset that loads the user, exactly when none of these has a hash of
      which it does not hold: a confirmation or set-up that can write the user back, an upgrade that can still
      be handled, and a login that will have one queued. */
  lemma ResetLastsExactlyWhen(cfg: Config, use: Use, s: State, pid: Pid, ch: Choice, token: string, u: UserState,
        password: string, salt: Salt)
    requires Inv(cfg, s) && Email.FixesEmails(cfg.normalise) && TellsApart(cfg, use, password)
    requires LoginsInUse(use, s) && forall p :: p in s.procs && p != pid ==> !Resets(s.procs[p], u.id)
    requires At(s, pid, Account(Accounts.ResetUpdate(token, u))) && ch.fault != Lost && SecretFits(u)
    requires password != "" && salt in use.salts && u.hash == cfg.hash(password, salt)
    ensures var t := Apply(cfg, s, Run(pid, ch));
            && StoredIn(t.sh, u.id, Only(cfg, use, password))
            && (StaysIn(cfg, use, t, u.id, Only(cfg, use, password)) <==>
                UpgradesIn(cfg, t.sh, u.id, Only(cfg, use, password))
                    && ProcsIn(cfg, use, t, u.id, Only(cfg, use, password)))
  {
    hide Inv, Apply, LoginsInUse, NoneResets, UpgradesIn, ProcsIn, StaysIn, ClosedUnder, Resets;
    UserOfUpdate(cfg, s, pid, u);
    WriterEnds(cfg, use, s, pid, u, ch);
    ApplyKeeps(cfg, s, Run(pid, ch));
    PasswordKeepsMatching(cfg, use, Apply(cfg, s, Run(pid, ch)), u.id, password);
  }

  // ---------- One job after another ----------

  ghost predicate SaltsIn(use: Use, env: Env) {
    forall n :: env(n).salt in use.salts
  }

  predicate Resetting(p: Proc) {
    p.Account? && (p.a.ResetGet? || p.a.ResetFind? || p.a.ResetHash? || p.a.ResetUpdate?)
  }

  lemma NoneBegins(cfg: Config, p: Proc, reply: Reply, now: Time)
    requires !p.Finished? && !Resetting(p)
    ensures !Resetting(Resume(cfg, p, reply, now))
  {
  }

  lemma {:induction false} FinishIn(cfg: Config, use: Use, sh: Shared, p: Proc, env: Env, n: nat, id: Id,
        hashes: Hashes)
    requires ShOk(cfg, sh) && Email.FixesEmails(cfg.normalise) && ProcOk(cfg, sh, p) && !Resetting(p)
    requires ClosedUnder(cfg, use, hashes) && SaltsIn(use, env) && TriesInUse(use, p)
    requires StoredIn(sh, id, hashes) && UpgradesIn(cfg, sh, id, hashes) && ProcIn(cfg, use, p, id, hashes)
    ensures var end := Finish(cfg, sh, p, env, n); StoredIn(end.sh, id, hashes) && UpgradesIn(cfg, end.sh, id, hashes)
    decreases Stage(p), Left(p)
  {
    hide Exec, ShOk, ProcOk, StoredIn, UpgradesIn, ProcIn, TriesInUse, ClosedUnder;
    if !p.Finished? {
      var (t, q) := Advance(cfg, sh, p, env(n));
      var (s, reply) := Exec(cfg, sh, NextOp(p), env(n));
      AdvanceOk(cfg, sh, p, env(n));
      NoneBegins(cfg, p, reply, s.now);
      StepIn(cfg, use, sh, p, env(n), id, hashes);
      FinishIn(cfg, use, t, q, env, n + 1, id, hashes);
    }
  }

  /** It is no password reset, and tries a password in use if it is a login. */
  ghost predicate JobAllowed(use: Use, job: Job) {
    job.Request? ==> !job.call.ResetPassword? && Allowed(use, Start(job.call))
  }

  lemma LaunchIn(cfg: Config, use: Use, sh: Shared, job: Job, id: Id, hashes: Hashes)
    requires ShOk(cfg, sh) && UpgradesIn(cfg, sh, id, hashes) && JobAllowed(use, job)
    ensures var (t, p) := Launch(cfg, sh, job);
            && UpgradesIn(cfg, t, id, hashes) && t.users == sh.users
            && ProcIn(cfg, use, p, id, hashes) && TriesInUse(use, p) && !Resetting(p)
  {
    hide ShOk, ProcIn, TriesInUse, UpgradesIn, Carried, Within;
    var (t, p) := Launch(cfg, sh, job);
    SameUpgrades(cfg, sh, t, id, hashes);
    if job.Request? {
      BeginsIn(cfg, use, job.call, id, hashes);
    } else if job.message in sh.ready && job.message < |sh.accepted| {
      WaitingIsRouted(cfg, sh, job.message);
      WaitingIn(cfg, sh, job.message, id, hashes);
      HandlesIn(cfg, use, job.message, sh.accepted[job.message], id, hashes);
    } else {
      BeginsIn(cfg, use, Tick, id, hashes);
      DoneIn(cfg, use, p, id, hashes);
    }
  }

  lemma DoneIn(cfg: Config, use: Use, p: Proc, id: Id, hashes: Hashes)
    requires p.Finished?
    ensures ProcIn(cfg, use, p, id, hashes) && TriesInUse(use, p)
  {
  }

  lemma {:induction false} JobsIn(cfg: Config, use: Use, sh: Shared, jobs: seq<Job>, env: Env, n: nat, id: Id,
        hashes: Hashes)
    requires ShOk(cfg, sh) && Email.FixesEmails(cfg.normalise) && ClosedUnder(cfg, use, hashes) && SaltsIn(use, env)
    requires StoredIn(sh, id, hashes) && UpgradesIn(cfg, sh, id, hashes)
    requires forall i :: 0 <= i < |jobs| ==> JobAllowed(use, jobs[i])
    ensures var end := DoAll(cfg, sh, jobs, env, n);
            ShOk(cfg, end.sh) && StoredIn(end.sh, id, hashes) && UpgradesIn(cfg, end.sh, id, hashes)
  {
    hide ShOk, ProcOk, UpgradesIn, ProcIn, TriesInUse, ClosedUnder, Finish, Launch, SaltsIn, JobAllowed, Resetting;
    if jobs != [] {
      var init, last := jobs[..|jobs| - 1], jobs[|jobs| - 1];
      JobsIn(cfg, use, sh, init, env, n, id, hashes);
      var before := DoAll(cfg, sh, init, env, n);
      DoOk(cfg, before.sh, last, env, before.n);
      LaunchOk(cfg, before.sh, last);
      LaunchIn(cfg, use, before.sh, last, id, hashes);
      var (t, p) := Launch(cfg, before.sh, last);
      FinishIn(cfg, use, t, p, env, before.n, id, hashes);
    }
  }

  lemma UpgradeFinds(cfg: Config, sh: Shared, m: nat, id: Id, newHash: string, ch: Choice)
    requires ShOk(cfg, sh) && Email.FixesEmails(cfg.normalise)
    ensures var (t, q) := Advance(cfg, sh, Handling(m, Handlers.UpgradeFind(id, newHash)), ch);
            && t.users == sh.users
            && (if q.Settling? then q.result.Failure?
                else
                  && q.Handling? && q.message == m && q.h.UpgradeUpdate?
                  && q.h.user.id == id && id in sh.users && q.h.user.hash == newHash)
  {
    hide Exec, ShOk;
    TableSound(cfg, sh);
    FoundHash(cfg, sh, FindByID(id), ch);
    UsersUnchanged(cfg, sh, FindByID(id), ch);
  }

  lemma UpgradeWrites(cfg: Config, sh: Shared, m: nat, u: UserState, env: Env, n: nat)
    requires u.id in sh.users
    ensures var end := Finish(cfg, sh, Handling(m, Handlers.UpgradeUpdate(u)), env, n);
            end.outcome.Success? ==> u.id in end.sh.users && end.sh.users[u.id].hash == u.hash
  {
    hide Advance;
    var p := Handling(m, Handlers.UpgradeUpdate(u));
    var (t, q) := Advance(cfg, sh, p, env(n));
    UpgradeSettles(cfg, sh, m, u, env(n));
    var (t2, q2) := Advance(cfg, t, q, env(n + 1));
    SettlingKeepsUsers(cfg, t, m, q.result, env(n + 1));
    assert Finish(cfg, sh, p, env, n) == Finish(cfg, t, q, env, n + 1) == Finish(cfg, t2, q2, env, n + 2);
  }

  lemma UpgradeSettles(cfg: Config, sh: Shared, m: nat, u: UserState, ch: Choice)
    requires u.id in sh.users
    ensures var (t, q) := Advance(cfg, sh, Handling(m, Handlers.UpgradeUpdate(u)), ch);
            q.Settling? && q.message == m && (q.result.Success? ==> u.id in t.users && t.users[u.id].hash == u.hash)
  {
  }

  lemma SettlingKeepsUsers(cfg: Config, sh: Shared, m: nat, result: Outcome, ch: Choice)
    ensures var (t, q) := Advance(cfg, sh, Settling(m, result), ch); q == Finished(result) && t.users == sh.users
  {
  }

  /** A queued upgrade of this user. */
  ghost predicate UpgradesUser(cfg: Config, m: Message, id: Id) {
    cfg.topology.JobOf(m.event).Upgrade? && m.payload.Json? && m.payload.userId == id
  }

  lemma DeliveredUpgradeApplies(cfg: Config, sh: Shared, m: nat, env: Env, n: nat, id: Id)
    requires ShOk(cfg, sh) && Email.FixesEmails(cfg.normalise)
    requires m in sh.ready && m < |sh.accepted| && UpgradesUser(cfg, sh.accepted[m], id)
    ensures var end := Do(cfg, sh, Delivery(m), env, n);
            end.outcome.Success? ==>
              sh.accepted[m].payload.newHash != "" && id in end.sh.users
                  && end.sh.users[id].hash == sh.accepted[m].payload.newHash
  {
    hide Advance, ShOk;
    var newHash := sh.accepted[m].payload.newHash;
    var (t, p) := Launch(cfg, sh, Delivery(m));
    LaunchOk(cfg, sh, Delivery(m));
    var (t2, q) := Advance(cfg, t, p, env(n));
    UpgradeFinds(cfg, t, m, id, newHash, env(n));
    EmptyHashFails(cfg, t, m, id, env(n));
    assert Do(cfg, sh, Delivery(m), env, n) == Finish(cfg, t2, q, env, n + 1);
    if q.Settling? {
      var (t3, q3) := Advance(cfg, t2, q, env(n + 1));
      SettlingKeepsUsers(cfg, t2, q.message, q.result, env(n + 1));
      assert Finish(cfg, t2, q, env, n + 1) == Finish(cfg, t3, q3, env, n + 2);
    } else {
      UpgradeWrites(cfg, t2, m, q.h.user, env, n + 1);
    }
  }

  lemma EmptyHashFails(cfg: Config, sh: Shared, m: nat, id: Id, ch: Choice)
    ensures Advance(cfg, sh, Handling(m, Handlers.UpgradeFind(id, "")), ch).1.Settling?
  {
  }

  predicate HandlesUpgrade(p: Proc) {
    p.Settling? || p.Finished? || (p.Handling? && (p.h.UpgradeFind? || p.h.UpgradeUpdate?))
  }

  lemma UpgradeAdvances(cfg: Config, sh: Shared, p: Proc, ch: Choice)
    requires HandlesUpgrade(p) && !p.Finished?
    ensures var (t, q) := Advance(cfg, sh, p, ch); t.outbox == sh.outbox && HandlesUpgrade(q)
  {
    hide Exec;
    OutboxUnchanged(cfg, sh, NextOp(p), ch);
  }

  lemma {:induction false} UpgradeKeepsOutbox(cfg: Config, sh: Shared, p: Proc, env: Env, n: nat)
    requires HandlesUpgrade(p)
    ensures Finish(cfg, sh, p, env, n).sh.outbox == sh.outbox
    decreases Stage(p), Left(p)
  {
    hide Advance;
    if !p.Finished? {
      var (t, q) := Advance(cfg, sh, p, env(n));
      UpgradeAdvances(cfg, sh, p, env(n));
      UpgradeKeepsOutbox(cfg, t, q, env, n + 1);
    }
  }

  lemma DeliveredUpgradeKeepsOthers(cfg: Config, sh: Shared, m: nat, env: Env, n: nat, id: Id, hashes: Hashes)
    requires ShOk(cfg, sh) && m in sh.ready && m < |sh.accepted| && UpgradesUser(cfg, sh.accepted[m], id)
    requires UpgradesIn(cfg, sh, id, hashes)
    ensures UpgradesIn(cfg, Do(cfg, sh, Delivery(m), env, n).sh, id, hashes)
  {
    hide Finish, ShOk, UpgradesIn;
    Parted(cfg, sh);
    DeliverySettles(cfg, sh, m, env, n);
    var (t, p) := Launch(cfg, sh, Delivery(m));
    UpgradeKeepsOutbox(cfg, t, p, env, n);
    SameUpgrades(cfg, sh, Do(cfg, sh, Delivery(m), env, n).sh, id, hashes);
  }

  /** Served one at a time, with any faults and no password reset: of the passwords in use exactly the one of
      which all hashes are that the user has or can be brought keeps matching; and once a delivered upgrade of the
      user is acknowledged, and no other that is still to be handled asks for an upgrade itself, the stored hash
      needs none, and that stays so whatever is done next, further deliveries of the same and of other upgrades
      included. */
  lemma UpgradeConverges(cfg: Config, use: Use, sh: Shared, m: nat, jobs: seq<Job>, env: Env, n: nat, id: Id,
        password: string)
    requires ShOk(cfg, sh) && Email.FixesEmails(cfg.normalise) && SaltsIn(use, env)
    requires NeedIsOfHash(cfg) && TellsApart(cfg, use, password)
    requires var only := Only(cfg, use, password); StoredIn(sh, id, only) && UpgradesIn(cfg, sh, id, only)
    requires m in sh.ready && m < |sh.accepted| && UpgradesUser(cfg, sh.accepted[m], id)
    requires forall i :: 0 <= i < |jobs| ==> JobAllowed(use, jobs[i])
    ensures var applied := Do(cfg, sh, Delivery(m), env, n);
            var end := DoAll(cfg, applied.sh, jobs, env, applied.n).sh;
            && StoredIn(end, id, Only(cfg, use, password))
            && (applied.outcome.Success? && UpgradesIn(cfg, sh, id, Current(cfg, password)) ==>
                StoredIn(end, id, Current(cfg, password)))
  {
    hide Do, DoAll, ShOk, ClosedUnder, UpgradesIn, IsMatch, SaltsIn, TellsApart, NeedIsOfHash, Only, Current, StoredIn;
    var only, current := Only(cfg, use, password), Current(cfg, password);
    var applied := Do(cfg, sh, Delivery(m), env, n);
    OnlyCloses(cfg, use, password);
    CurrentCloses(cfg, use, password);
    DoOk(cfg, sh, Delivery(m), env, n);
    OneJobIn(cfg, use, sh, Delivery(m), env, n, id, only);
    JobsIn(cfg, use, applied.sh, jobs, env, applied.n, id, only);
    if applied.outcome.Success? && UpgradesIn(cfg, sh, id, current) {
      AppliedIn(cfg, sh, m, env, n, id, current);
      DeliveredUpgradeKeepsOthers(cfg, sh, m, env, n, id, current);
      JobsIn(cfg, use, applied.sh, jobs, env, applied.n, id, current);
    }
  }

  lemma OneJobIn(cfg: Config, use: Use, sh: Shared, job: Job, env: Env, n: nat, id: Id, hashes: Hashes)
    requires ShOk(cfg, sh) && Email.FixesEmails(cfg.normalise) && ClosedUnder(cfg, use, hashes) && SaltsIn(use, env)
    requires StoredIn(sh, id, hashes) && UpgradesIn(cfg, sh, id, hashes) && JobAllowed(use, job)
    ensures var end := Do(cfg, sh, job, env, n); StoredIn(end.sh, id, hashes) && UpgradesIn(cfg, end.sh, id, hashes)
  {
    hide Do, ShOk, ClosedUnder, UpgradesIn, SaltsIn, StoredIn, JobAllowed;
    JobsIn(cfg, use, sh, [job], env, n, id, hashes);
    assert [job][..0] == [];
    DoAllSnoc(cfg, sh, [job], env, n);
  }

  lemma AppliedIn(cfg: Config, sh: Shared, m: nat, env: Env, n: nat, id: Id, hashes: Hashes)
    requires ShOk(cfg, sh) && Email.FixesEmails(cfg.normalise) && UpgradesIn(cfg, sh, id, hashes)
    requires m in sh.ready && m < |sh.accepted| && UpgradesUser(cfg, sh.accepted[m], id)
    requires Do(cfg, sh, Delivery(m), env, n).outcome.Success?
    ensures StoredIn(Do(cfg, sh, Delivery(m), env, n).sh, id, hashes)
  {
    hide Do, ShOk;
    DeliveredUpgradeApplies(cfg, sh, m, env, n, id);
    WaitingIsRouted(cfg, sh, m);
    WaitingIn(cfg, sh, m, id, hashes);
  }

  // ---------- The hashing service ----------

  /** The passwords are hashed and compared by a server of these versions. */
  ghost predicate HashedBy(cfg: Config, services: seq<PasswordServer.HashService>) {
    var server := PasswordServer.Registered(services);
    && server.currentVersion in server.services
    && (forall password, salt :: password != "" ==>
        Ok(cfg.hash(password, salt)) == PasswordServer.Hash(server, password, salt))
    && (forall password, h :: cfg.compare(password, h) == Compares(services, password, h))
  }

  ghost function Compares(services: seq<PasswordServer.HashService>, password: string, h: string): CompareReply {
    match PasswordServer.Compare(PasswordServer.Registered(services), password, h)
    case Ok(c) => CompareAnswer(c.matches, c.needsUpgrade)
    case Err(_) => CompareError
  }

  /** Any server whose last registered version behaves well makes current hashes. */
  lemma ServersMakeCurrentHashes(cfg: Config, services: seq<PasswordServer.HashService>)
    requires services != [] && PasswordServer.DistinctVersions(services)
        && PasswordServer.WellBehaved(services[|services| - 1])
    requires HashedBy(cfg, services)
    ensures NewHashesAreCurrent(cfg)
  {
    forall password, salt | password != ""
      ensures cfg.compare(password, cfg.hash(password, salt)) == CompareAnswer(true, false)
    {
      PasswordServer.FreshHashIsCurrent(services, password, salt);
    }
  }

  /** The service that makes new hashes is version 1. */
  ghost predicate HashedByV1(cfg: Config, services: seq<PasswordServer.HashService>, s: V1.Service,
        argon2id: V1.Argon2id) {
    && services != [] && PasswordServer.DistinctVersions(services) && HashedBy(cfg, services)
    && s.Valid() && (forall p, salt :: |s.Digest(argon2id, p, salt)| == s.keyLen)
    && services[|services| - 1] == PasswordServer.ServiceV1(s, argon2id)
  }

  /** Argon2id maps no other password in use to the digest of this one under a salt in use. */
  ghost predicate DigestsDiffer(use: Use, s: V1.Service, argon2id: V1.Argon2id, password: string) {
    forall p, salt ::
      p in use.passwords && salt in use.salts && s.Digest(argon2id, p, salt) == s.Digest(argon2id, password, salt) ==>
        p == password
  }

  /** Under version 1, a password matches a new hash exactly when its digest is the same. */
  lemma V1Matches(cfg: Config, services: seq<PasswordServer.HashService>, s: V1.Service, argon2id: V1.Argon2id,
        password: string, p: string, salt: Salt)
    requires HashedByV1(cfg, services, s, argon2id) && password != ""
    ensures cfg.hash(password, salt) == s.Hash(argon2id, password, salt)
    ensures IsMatch(cfg, p, cfg.hash(password, salt)) <==>
              s.Digest(argon2id, p, salt) == s.Digest(argon2id, password, salt)
  {
    hide PasswordServer.DetectVersion;
    var n := |services| - 1;
    PasswordServer.RegisteredHas(services, n);
    PasswordServer.CurrentIsLast(services);
    PasswordServer.ServiceV1WellBehaved(s, argon2id);
    PasswordServer.VersionOfHash(services[n], password, salt);
    V1.CompareOfHash(s, argon2id, password, salt, p);
  }

  /** Any server says that a hash needs an upgrade by its version alone. */
  lemma ServersNeedOfHash(cfg: Config, services: seq<PasswordServer.HashService>)
    requires HashedBy(cfg, services)
    ensures NeedIsOfHash(cfg)
  {
  }

  /** For any server: when an applied upgrade lasts. */
  lemma ServerUpgradeLastsExactlyWhen(cfg: Config, use: Use, services: seq<PasswordServer.HashService>, s: State,
        pid: Pid, ch: Choice, m: nat, u: UserState, password: string)
    requires HashedBy(cfg, services) && Inv(cfg, s) && Email.FixesEmails(cfg.normalise)
    requires NoneResets(s, u.id) && LoginsInUse(use, s) && exists salt :: salt in use.salts
    requires At(s, pid, Handling(m, Handlers.UpgradeUpdate(u))) && ch.fault != Lost && SecretFits(u)
    ensures var t := Apply(cfg, s, Run(pid, ch));
            StaysIn(cfg, use, t, u.id, Current(cfg, password)) <==> HashesIn(cfg, use, t, u.id, Current(cfg, password))
  {
    hide HashedBy, Inv, Apply, LoginsInUse, NoneResets, NeedIsOfHash, HashesIn, StaysIn;
    ServersNeedOfHash(cfg, services);
    UpgradeLastsExactlyWhen(cfg, use, s, pid, ch, m, u, password);
  }

  /** Under version 1, that no other password in use matches a new hash of this one means exactly that Argon2id
      tells them apart. */
  lemma V1TellsApartExactlyWhen(cfg: Config, use: Use, services: seq<PasswordServer.HashService>, s: V1.Service,
        argon2id: V1.Argon2id, password: string)
    requires HashedByV1(cfg, services, s, argon2id) && password != ""
    ensures TellsApart(cfg, use, password) <==> DigestsDiffer(use, s, argon2id, password)
  {
    hide HashedByV1, IsMatch;
    forall p, salt
      ensures IsMatch(cfg, p, cfg.hash(password, salt)) <==>
                s.Digest(argon2id, p, salt) == s.Digest(argon2id, password, salt)
    {
      V1Matches(cfg, services, s, argon2id, password, p, salt);
    }
    if TellsApart(cfg, use, password) {
      forall p, salt | p in use.passwords && salt in use.salts
                       && s.Digest(argon2id, p, salt) == s.Digest(argon2id, password, salt)
        ensures p == password
      {
        assert MatchesOnly(cfg, use, password, cfg.hash(password, salt));
      }
    }
  }

  /** So for a server whose new hashes are of version 1: when a password keeps matching, */
  lemma V1PasswordKeepsMatching(cfg: Config, use: Use, services: seq<PasswordServer.HashService>, v1: V1.Service,
        argon2id: V1.Argon2id, s: State, id: Id, password: string)
    requires HashedByV1(cfg, services, v1, argon2id) && DigestsDiffer(use, v1, argon2id, password) && password != ""
    requires Inv(cfg, s) && Email.FixesEmails(cfg.normalise) && NoneResets(s, id) && id in s.sh.users
    requires LoginsInUse(use, s) && exists salt :: salt in use.salts
    ensures StaysIn(cfg, use, s, id, Only(cfg, use, password)) <==> HashesIn(cfg, use, s, id, Only(cfg, use, password))
  {
    hide HashedByV1, DigestsDiffer, Inv, NoneResets, LoginsInUse, TellsApart, HashesIn, StaysIn;
    V1TellsApartExactlyWhen(cfg, use, services, v1, argon2id, password);
    PasswordKeepsMatching(cfg, use, s, id, password);
  }

  /** when a reset lasts, */
  lemma V1ResetLastsExactlyWhen(cfg: Config, use: Use, services: seq<PasswordServer.HashService>, v1: V1.Service,
        argon2id: V1.Argon2id, s: State, pid: Pid, ch: Choice, token: string, u: UserState, password: string,
        salt: Salt)
    requires HashedByV1(cfg, services, v1, argon2id) && DigestsDiffer(use, v1, argon2id, password) && password != ""
    requires Inv(cfg, s) && Email.FixesEmails(cfg.normalise)
    requires LoginsInUse(use, s) && forall p :: p in s.procs && p != pid ==> !Resets(s.procs[p], u.id)
    requires At(s, pid, Account(Accounts.ResetUpdate(token, u))) && ch.fault != Lost && SecretFits(u)
    requires salt in use.salts && u.hash == cfg.hash(password, salt)
    ensures var t := Apply(cfg, s, Run(pid, ch));
            && StoredIn(t.sh, u.id, Only(cfg, use, password))
            && (StaysIn(cfg, use, t, u.id, Only(cfg, use, password)) <==>
                UpgradesIn(cfg, t.sh, u.id, Only(cfg, use, password))
                    && ProcsIn(cfg, use, t, u.id, Only(cfg, use, password)))
  {
    hide HashedByV1, DigestsDiffer, Inv, Apply, LoginsInUse, TellsApart, UpgradesIn, ProcsIn, StaysIn, Resets;
    V1TellsApartExactlyWhen(cfg, use, services, v1, argon2id, password);
    ResetLastsExactlyWhen(cfg, use, s, pid, ch, token, u, password, salt);
  }

  /** and that upgrades converge. */
  lemma V1UpgradeConverges(cfg: Config, use: Use, services: seq<PasswordServer.HashService>, v1: V1.Service,
        argon2id: V1.Argon2id, sh: Shared, m: nat, jobs: seq<Job>, env: Env, n: nat, id: Id, password: string)
    requires HashedByV1(cfg, services, v1, argon2id) && DigestsDiffer(use, v1, argon2id, password) && password != ""
    requires ShOk(cfg, sh) && Email.FixesEmails(cfg.normalise) && SaltsIn(use, env)
    requires var only := Only(cfg, use, password); StoredIn(sh, id, only) && UpgradesIn(cfg, sh, id, only)
    requires m in sh.ready && m < |sh.accepted| && UpgradesUser(cfg, sh.accepted[m], id)
    requires forall i :: 0 <= i < |jobs| ==> JobAllowed(use, jobs[i])
    ensures var applied := Do(cfg, sh, Delivery(m), env, n);
            var end := DoAll(cfg, applied.sh, jobs, env, applied.n).sh;
            && StoredIn(end, id, Only(cfg, use, password))
            && (applied.outcome.Success? && UpgradesIn(cfg, sh, id, Current(cfg, password)) ==>
                StoredIn(end, id, Current(cfg, password)))
  {
    hide Do, DoAll, ShOk, HashedByV1, HashedBy, DigestsDiffer, SaltsIn, TellsApart, NeedIsOfHash, UpgradesIn, StoredIn;
    V1TellsApartExactlyWhen(cfg, use, services, v1, argon2id, password);
    V1IsServer(cfg, services, v1, argon2id);
    ServersNeedOfHash(cfg, services);
    UpgradeConverges(cfg, use, sh, m, jobs, env, n, id, password);
  }

  lemma V1IsServer(cfg: Config, services: seq<PasswordServer.HashService>, v1: V1.Service, argon2id: V1.Argon2id)
    requires HashedByV1(cfg, services, v1, argon2id)
    ensures HashedBy(cfg, services)
  {
  }

  function FirstBytes(text: string, n: nat): (bytes: seq<V1.Byte>)
    ensures |bytes| == n
  {
    seq(n, i => if 0 <= i < |text| then text[i] as int % 256 else 0)
  }

  /** There are such servers, for every topology: here is one that tells two passwords apart under every
      salt of 16 bytes. */
  lemma SuchAServerExists(topology: Topology.Topology)
    returns (cfg: Config, use: Use, services: seq<PasswordServer.HashService>, argon2id: V1.Argon2id)
    ensures cfg.topology == topology && Email.FixesEmails(cfg.normalise)
    ensures HashedByV1(cfg, services, V1.DEFAULT, argon2id)
    ensures use.passwords == iset{"right", "wrong"} && forall salt: Salt :: |salt| == 16 ==> salt in use.salts
    ensures DigestsDiffer(use, V1.DEFAULT, argon2id, "right")
  {
    argon2id := (p, salt, time, memory, threads, keyLen) => FirstBytes(p, keyLen);
    var svc := PasswordServer.ServiceV1(V1.DEFAULT, argon2id);
    services := [svc];
    cfg := Config(topology, s => s, svc.hash, (p, h) => Compares(services, p, h),
        (code, secret, at) => false, at => "");
    use := Use(iset{"right", "wrong"}, iset salt: Salt | |salt| == 16);
    assert FirstBytes("right", 32)[0] != FirstBytes("wrong", 32)[0];
    PasswordServer.RegisteredHas(services, 0);
    PasswordServer.CurrentIsLast(services);
  }
}
