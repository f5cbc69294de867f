/** How an applied password upgrade is undone, and how an upgrade undoes a reset: runs that show both. */
module UndoneUpgrades {
  import opened Wrappers
  import opened Users
  import opened Store
  import opened Topology
  import opened Invariant
  import opened Machine
  import opened Safety
  import opened Serial
  import opened History
  import opened MfaTokens
  import opened RelayDrain
  import opened Consumer
  import opened Claims
  import opened Outcomes
  import opened AccountOutcomes
  import opened Hashes
  import opened HashSpread
  import opened Upgrade
  import opened Journey
  import opened Recovery
  import Email
  import Accounts
  import Handlers
  import PasswordServer

  // ---------- The delivery of an upgrade ----------

  /** An upgrade of this user waits in the queue. */
  ghost predicate UpgradeWaits(cfg: Config, sh: Shared, m: nat, id: Id) {
    && m in sh.ready && m < |sh.accepted| && UpgradesUser(cfg, sh.accepted[m], id)
    && id in sh.users && sh.accepted[m].payload.newHash != ""
  }

  lemma UpgradeFindsUser(cfg: Config, sh: Shared, m: nat, id: Id, newHash: string, ch: Choice) returns (u: UserState)
    requires ShOk(cfg, sh) && Email.FixesEmails(cfg.normalise) && id in sh.users && newHash != "" && ch.fault.Fine?
    ensures Advance(cfg, sh, Handling(m, Handlers.UpgradeFind(id, newHash)), ch)
         == (Later(sh, ch), Handling(m, Handlers.UpgradeUpdate(u)))
    ensures u.id == id && u.hash == newHash && SecretFits(u)
  {
    hide ShOk;
    RowsRestorable(cfg, sh, id);
    LoadShowsRow(cfg, sh.users[id], sh.now + ch.delay);
    u := Loaded(cfg, sh.users[id], sh.now + ch.delay).user.UpdatePassword(newHash, sh.now + ch.delay);
  }

  lemma UpgradeStores(cfg: Config, sh: Shared, m: nat, u: UserState, ch: Choice)
    requires u.id in sh.users && SecretFits(u) && ch.fault.Fine?
    ensures var (t, q) := Advance(cfg, sh, Handling(m, Handlers.UpgradeUpdate(u)), ch);
            q == Settling(m, Success(Nothing)) && t.users == sh.users[u.id := Overwritten(sh.users[u.id], u)]
  {
  }

  /** Without faults, the delivery of an upgrade is acknowledged, and the user has the new hash. */
  lemma DeliveredUpgradeSucceeds(cfg: Config, sh: Shared, m: nat, id: Id, env: Env, n: nat)
    requires ShOk(cfg, sh) && Email.FixesEmails(cfg.normalise) && UpgradeWaits(cfg, sh, m, id) && NoFaults(env, n, 3)
    ensures var end := Do(cfg, sh, Delivery(m), env, n);
            && end.outcome == Success(Nothing) && end.n == n + 3 && m in end.sh.acked
            && id in end.sh.users && end.sh.users[id].hash == sh.accepted[m].payload.newHash
            && end.sh.users[id].email == sh.users[id].email
  {
    hide Advance, ShOk;
    var (t, p) := Launch(cfg, sh, Delivery(m));
    LaunchOk(cfg, sh, Delivery(m));
    var u := UpgradeFindsUser(cfg, t, m, id, sh.accepted[m].payload.newHash, env(n));
    var t1, p1 := Later(t, env(n)), Handling(m, Handlers.UpgradeUpdate(u));
    UpgradeStores(cfg, t1, m, u, env(n + 1));
    var (t2, p2) := Advance(cfg, t1, p1, env(n + 1));
    SettlingMoves(cfg, t2, m, Success(Nothing), env(n + 2));
    var (t3, p3) := Advance(cfg, t2, p2, env(n + 2));
    assert Finish(cfg, t, p, env, n) == Finish(cfg, t1, p1, env, n + 1)
        == Finish(cfg, t2, p2, env, n + 2) == Finish(cfg, t3, p3, env, n + 3);
  }

  // ---------- A set-up overtaken by an upgrade ----------

  /** A set-up of the second factor starts and loads its user; */
  ghost function SetupLoaded(cfg: Config, s: State, id: Id, env: Env): State {
    Apply(cfg, Apply(cfg, s, Start(SetupMFA(id))), Run(s.next, env(0)))
  }

  /** then the upgrade is delivered and handled to its end; */
  ghost function UpgradeDone(cfg: Config, s: State, id: Id, m: nat, env: Env): State {
    ApplyAll(cfg, Apply(cfg, SetupLoaded(cfg, s, id, env), Deliver(m)), Runs(s.next + 1, env, 1, 4))
  }

  /** and then the set-up goes on to its own end. */
  ghost function SetupDone(cfg: Config, s: State, id: Id, m: nat, env: Env): State {
    ApplyAll(cfg, UpgradeDone(cfg, s, id, m, env), Runs(s.next, env, 4, 6))
  }

  /** A set-up is past its lookup, and has this hash. */
  predicate LoadedHash(p: Proc, id: Id, hash: string) {
    p.Account? && p.a.SetupSecret? && p.a.user.id == id && p.a.user.hash == hash
  }

  lemma SetupLoads(cfg: Config, s: State, id: Id, env: Env)
    requires Inv(cfg, s) && Email.FixesEmails(cfg.normalise) && id in s.sh.users && NoFaults(env, 0, 1)
    ensures var t := SetupLoaded(cfg, s, id, env);
            && t.sh == Later(s.sh, env(0)) && t.next == s.next + 1 && ShOk(cfg, t.sh)
            && s.next in t.procs && LoadedHash(t.procs[s.next], id, s.sh.users[id].hash)
  {
    hide ShOk, ProcsOk, HoldersOk, Exec;
    SetupFinds(cfg, s.sh, id, env(0));
    LaterOk(cfg, s.sh, env(0));
  }

  lemma DeliverLaunches(cfg: Config, s: State, m: nat)
    requires m in s.sh.ready && m < |s.sh.accepted|
    ensures var (sh, p) := Launch(cfg, s.sh, Delivery(m));
            Apply(cfg, s, Deliver(m)) == s.(sh := sh, procs := s.procs[s.next := p], next := s.next + 1)
  {
  }

  lemma UpgradeIsDone(cfg: Config, s: State, id: Id, m: nat, env: Env)
    requires Inv(cfg, s) && Email.FixesEmails(cfg.normalise) && NoFaults(env, 0, 4) && UpgradeWaits(cfg, s.sh, m, id)
    ensures var t := UpgradeDone(cfg, s, id, m, env);
            && m in t.sh.acked && id in t.sh.users && t.sh.users[id].hash == s.sh.accepted[m].payload.newHash
            && s.next in t.procs && LoadedHash(t.procs[s.next], id, s.sh.users[id].hash)
  {
    hide Inv, ShOk, Finish, Runs, Apply, ApplyAll, SetupLoaded, LoadedHash, Launch;
    var s1 := SetupLoaded(cfg, s, id, env);
    SetupLoads(cfg, s, id, env);
    var s2 := Apply(cfg, s1, Deliver(m));
    DeliverLaunches(cfg, s1, m);
    DeliveredUpgradeSucceeds(cfg, s1.sh, m, id, env, 1);
    FinishIsARun(cfg, s2, s.next + 1, env, 1);
  }

  lemma TwoRuns(pid: Pid, env: Env, n: nat)
    ensures Runs(pid, env, n, n + 2) == [Run(pid, env(n)), Run(pid, env(n + 1))]
  {
    assert Runs(pid, env, n + 1, n + 2) == [Run(pid, env(n + 1))] + Runs(pid, env, n + 2, n + 2);
  }

  lemma SetupWritesBack(cfg: Config, s: State, pid: Pid, id: Id, hash: string, env: Env, n: nat)
    requires pid in s.procs && LoadedHash(s.procs[pid], id, hash) && id in s.sh.users
    requires NoFaults(env, n, 2) && |env(n).random| <= 128
    ensures var t := ApplyAll(cfg, s, Runs(pid, env, n, n + 2)); id in t.sh.users && t.sh.users[id].hash == hash
  {
    hide Apply;
    var t := Apply(cfg, s, Run(pid, env(n)));
    var u := DrawSecret(cfg, s, pid, env(n));
    UpdateStores(cfg, t, pid, u, env(n + 1));
    TwoRuns(pid, env, n);
    TwoActions(cfg, s, Run(pid, env(n)), Run(pid, env(n + 1)));
  }

  /** From any state with the invariant in which an upgrade waits: if a set-up of the second factor loads the
      user before the upgrade is handled, and goes on afterwards, nothing fails, the upgrade is acknowledged -
      and the user ends up with the hash from before it. */
  lemma SetupUndoesUpgrade(cfg: Config, s: State, id: Id, m: nat, env: Env)
    requires Inv(cfg, s) && Email.FixesEmails(cfg.normalise) && UpgradeWaits(cfg, s.sh, m, id)
    requires NoFaults(env, 0, 6) && |env(4).random| <= 128
    ensures var upgraded, over := UpgradeDone(cfg, s, id, m, env), SetupDone(cfg, s, id, m, env);
            && m in upgraded.sh.acked && id in upgraded.sh.users && id in over.sh.users
            && upgraded.sh.users[id].hash == s.sh.accepted[m].payload.newHash
            && over.sh.users[id].hash == s.sh.users[id].hash
  {
    hide Inv, UpgradeDone, ApplyAll, Runs, LoadedHash;
    UpgradeIsDone(cfg, s, id, m, env);
    SetupWritesBack(cfg, UpgradeDone(cfg, s, id, m, env), s.next, id, s.sh.users[id].hash, env, 4);
  }

  // ---------- From the very start ----------

  /** The same program with another hashing service. */
  ghost predicate Redeployed(before: Config, after: Config) {
    after == before.(hash := after.hash, compare := after.compare)
  }

  lemma InvStays(before: Config, after: Config, s: State)
    requires Redeployed(before, after) && Inv(before, s)
    ensures Inv(after, s)
  {
    forall p | p in s.procs
      ensures ProcOk(after, s.sh, s.procs[p])
    {
      assert ProcOk(before, s.sh, s.procs[p]);
    }
    assert Routed(after, s.sh) == Routed(before, s.sh);
  }

  /** The login finds a hash that is not current, and queues the upgrade. */
  lemma LoginQueues(cfg: Config, s: State, id: Id, email: string, address: string, password: string, oldHash: string,
        salt: Salt, n: nat)
    returns (more: seq<Action>)
    requires Inv(cfg, s) && Email.FixesEmails(cfg.normalise) && SoleUser(s.sh, id, address, oldHash)
    requires Email.NewEmail(cfg.normalise, email) == Ok(address) && password != "" && cfg.hash(password, salt) != ""
    requires cfg.compare(password, oldHash) == CompareAnswer(true, true)
    ensures var t := ApplyAll(cfg, s, more);
            && t.sh.users == s.sh.users
            && t.sh.outbox == s.sh.outbox
                 + [OutboxRow(PasswordUpgrade, UpgradePayload(id, cfg.hash(password, salt)), 0, None)]
  {
    hide Do, ShOk, ProcsOk, HoldersOk, ApplyAll;
    var env := Calm(salt, []);
    EmailsUnique(cfg, s.sh);
    FoundRow(s.sh.users, address, id);
    LoginSucceedsExactlyWhen(cfg, s.sh, email, password, env, n);
    more := JobFrom(cfg, s, Request(Login(email, password)), env, n);
  }

  /** Everything from the second row on waits to be published, and was created at the same time. */
  predicate AllButFirst(outbox: seq<OutboxRow>, pick: seq<nat>) {
    && 1 <= |outbox| <= 50 && !Unpublished(outbox, 0)
    && (forall r :: 1 <= r < |outbox| ==> Unpublished(outbox, r) && outbox[r].createdAt == 0)
    && |pick| == |outbox| - 1 && forall i :: 0 <= i < |pick| ==> pick[i] == i + 1
  }

  lemma PicksAll(sh: Shared, ch: Choice)
    requires AllButFirst(sh.outbox, ch.pick) && ch.fault.Fine?
    ensures Selects(sh, ch)
  {
    forall r: nat | r < |sh.outbox| && Unpublished(sh.outbox, r)
      ensures r in ch.pick
    {
      assert ch.pick[r - 1] == r;
    }
  }

  /** The relay takes the upgrade in this row to the queue. */
  lemma RelayQueues(cfg: Config, sh: Shared, salt: Salt, pick: seq<nat>, r: nat, id: Id, newHash: string)
    returns (m: nat)
    requires ShOk(cfg, sh) && Email.FixesEmails(cfg.normalise) && AllButFirst(sh.outbox, pick)
    requires id in sh.users && newHash != "" && 1 <= r < |sh.outbox|
    requires sh.outbox[r] == OutboxRow(PasswordUpgrade, UpgradePayload(id, newHash), 0, None)
    requires cfg.topology.Routes(PasswordUpgrade) && cfg.topology.JobOf(PasswordUpgrade).Upgrade?
    ensures var t := Do(cfg, sh, Request(Tick), Calm(salt, pick), 30).sh;
            && UpgradeWaits(cfg, t, m, id) && t.accepted[m].payload.newHash == newHash && t.accepted[m].row == r
            && t.users == sh.users
  {
    hide Do, ShOk, IsBatch;
    PicksAll(sh, Calm(salt, pick)(30));
    assert pick[r - 1] == r;
    m := TickDelivers(cfg, sh, Calm(salt, pick), 30, r);
  }

  /** A user registers; then the hashing service is redeployed so that the user's hash needs an upgrade; the
      next login has it queued. */
  lemma UpgradeIsQueued(before: Config, cfg: Config, email: string, password: string, oldSalt: Salt, salt: Salt)
    returns (run: seq<Action>, more: seq<Action>)
    requires Redeployed(before, cfg) && Email.FixesEmails(cfg.normalise) && CanRegister(before, START, email, password)
    requires before.hash(password, oldSalt) != "" && cfg.hash(password, salt) != ""
    requires cfg.compare(password, before.hash(password, oldSalt)) == CompareAnswer(true, true)
    ensures var s, id := ApplyAll(cfg, After(before, run), more), Numbered(7);
            && Inv(cfg, s) && SoleUser(s.sh, id, Email.NewEmail(cfg.normalise, email).value,
                before.hash(password, oldSalt))
            && AllButFirst(s.sh.outbox, [1, 2])
            && s.sh.outbox[2] == OutboxRow(PasswordUpgrade, UpgradePayload(id, cfg.hash(password, salt)), 0, None)
  {
    hide After, Inv, ApplyAll;
    run := FirstUser(before, email, password, oldSalt);
    var s := After(before, run);
    Sound(before, run);
    InvStays(before, cfg, s);
    var address, oldHash := Email.NewEmail(cfg.normalise, email).value, before.hash(password, oldSalt);
    more := LoginQueues(cfg, s, Numbered(7), email, address, password, oldHash, salt, 10);
    SoundFrom(cfg, s, more);
  }

  /** Another version is registered after those that there were. */
  ghost predicate VersionAdded(before: Config, cfg: Config, services: seq<PasswordServer.HashService>,
        newer: PasswordServer.HashService) {
    && Redeployed(before, cfg) && HashedBy(before, services) && HashedBy(cfg, services + [newer])
    && services != [] && PasswordServer.DistinctVersions(services + [newer])
    && PasswordServer.WellBehaved(services[|services| - 1]) && PasswordServer.WellBehaved(newer)
  }

  lemma OldHashNeedsUpgrade(before: Config, cfg: Config, services: seq<PasswordServer.HashService>,
        newer: PasswordServer.HashService, password: string, oldSalt: Salt, salt: Salt)
    requires VersionAdded(before, cfg, services, newer) && password != ""
    ensures before.hash(password, oldSalt) != "" && cfg.hash(password, salt) != ""
    ensures cfg.compare(password, before.hash(password, oldSalt)) == CompareAnswer(true, true)
    ensures cfg.compare(password, cfg.hash(password, salt)) == CompareAnswer(true, false)
  {
    hide PasswordServer.Compare;
    var all, last := services + [newer], |services| - 1;
    assert all[..|services|] == services;
    PasswordServer.CurrentIsLast(services);
    PasswordServer.CurrentIsLast(all);
    assert PasswordServer.DistinctVersions(services);
    PasswordServer.RegisteredHas(services, last);
    PasswordServer.RegisteredHas(all, |services|);
    PasswordServer.RoutesToMaker(all, last, password, oldSalt);
    PasswordServer.RoutesToMaker(all, |services|, password, salt);
    assert services[last].version + ":" <= services[last].hash(password, oldSalt);
    assert newer.version + ":" <= newer.hash(password, salt);
  }

  /** From the very start: a user registers, another hash version is added to the server, the next login has
      an upgrade queued, and a set-up of the second factor overlaps its delivery. Nothing fails, the upgrade is
      applied and acknowledged, and in the end the user has the hash of the older version again, which asks
      for an upgrade. */
  lemma UpgradeUndoneFromTheStart(before: Config, cfg: Config, services: seq<PasswordServer.HashService>,
        newer: PasswordServer.HashService, email: string, password: string, oldSalt: Salt, salt: Salt)
    returns (run: seq<Action>, more: seq<Action>, id: Id, m: nat, env: Env)
    requires VersionAdded(before, cfg, services, newer) && Email.FixesEmails(cfg.normalise)
    requires CanRegister(before, START, email, password)
    requires cfg.topology.Routes(PasswordUpgrade) && cfg.topology.JobOf(PasswordUpgrade).Upgrade?
    ensures var s := ApplyAll(cfg, After(before, run), more);
            var upgraded, over := UpgradeDone(cfg, s, id, m, env), SetupDone(cfg, s, id, m, env);
            && m in upgraded.sh.acked && IsCurrent(cfg, upgraded, id, password)
            && id in over.sh.users && cfg.compare(password, over.sh.users[id].hash) == CompareAnswer(true, true)
  {
    hide After, Inv, ApplyAll, VersionAdded, UpgradeDone, SetupDone, UpgradeWaits, CanRegister, Redeployed, Do,
        AllButFirst;
    SameProgram(before, cfg, services, newer, email, password);
    OldHashNeedsUpgrade(before, cfg, services, newer, password, oldSalt, salt);
    var queued;
    run, queued := UpgradeIsQueued(before, cfg, email, password, oldSalt, salt);
    var s := ApplyAll(cfg, After(before, run), queued);
    id, env := Numbered(7), Calm(salt, []);
    InvMeans(cfg, s);
    RowTwo(s.sh, [1, 2]);
    m := RelayQueues(cfg, s.sh, salt, [1, 2], 2, id, cfg.hash(password, salt));
    var relayed := JobFrom(cfg, s, Request(Tick), Calm(salt, [1, 2]), 30);
    SoundFrom(cfg, s, relayed);
    ThenAll(cfg, After(before, run), queued, relayed);
    more := queued + relayed;
    SetupUndoesUpgrade(cfg, ApplyAll(cfg, s, relayed), id, m, env);
  }

  lemma RowTwo(sh: Shared, pick: seq<nat>)
    requires AllButFirst(sh.outbox, pick) && |pick| >= 2
    ensures 2 < |sh.outbox|
  {
  }

  lemma SameProgram(before: Config, cfg: Config, services: seq<PasswordServer.HashService>,
        newer: PasswordServer.HashService, email: string, password: string)
    requires VersionAdded(before, cfg, services, newer) && CanRegister(before, START, email, password)
    ensures Redeployed(before, cfg) && password != ""
  {
  }

  // ---------- An upgrade of an earlier version ----------

  /** Where two upgrades of a user wait: if both are delivered, without a fault, both are acknowledged, and the user
      ends up with the hash of the second, whichever was queued first. */
  lemma LastUpgradeWins(cfg: Config, sh: Shared, id: Id, first: nat, second: nat, env: Env, n: nat)
    requires ShOk(cfg, sh) && Email.FixesEmails(cfg.normalise) && NoFaults(env, n, 6) && first != second
    requires UpgradeWaits(cfg, sh, first, id) && UpgradeWaits(cfg, sh, second, id)
    ensures var one := Do(cfg, sh, Delivery(first), env, n);
            var two := Do(cfg, one.sh, Delivery(second), env, one.n);
            && first in one.sh.acked && id in one.sh.users
                && one.sh.users[id].hash == sh.accepted[first].payload.newHash
            && second in two.sh.acked && id in two.sh.users
                && two.sh.users[id].hash == sh.accepted[second].payload.newHash
  {
    hide Do, ShOk;
    DeliveredUpgradeSucceeds(cfg, sh, first, id, env, n);
    Parted(cfg, sh);
    DeliverySettles(cfg, sh, first, env, n);
    DoOk(cfg, sh, Delivery(first), env, n);
    var one := Do(cfg, sh, Delivery(first), env, n);
    DeliveredUpgradeSucceeds(cfg, one.sh, second, id, env, n + 3);
  }

  /** From the very start: a user registers, a hash version is added, a login has an upgrade queued, and so does one
      after a further version is added; the relay takes both to the queue, and the later one is delivered first.
      Nothing fails and no reset, set-up or confirmation takes place; the later upgrade leaves a current hash,
      and the earlier one then replaces it by one that asks for an upgrade. */
  lemma OlderUpgradeUndoesFromTheStart(before: Config, middle: Config, cfg: Config,
        services: seq<PasswordServer.HashService>, newer: PasswordServer.HashService,
        newest: PasswordServer.HashService, email: string, password: string, salts: seq<Salt>)
    returns (run: seq<Action>, first: seq<Action>, second: seq<Action>, id: Id, m1: nat, m2: nat, env: Env)
    requires |salts| == 3 && Email.FixesEmails(cfg.normalise) && CanRegister(before, START, email, password)
    requires VersionAdded(before, middle, services, newer) && VersionAdded(middle, cfg, services + [newer], newest)
    requires cfg.topology.Routes(PasswordUpgrade) && cfg.topology.JobOf(PasswordUpgrade).Upgrade?
    ensures var s := ApplyAll(cfg, ApplyAll(middle, After(before, run), first), second);
            var one := Do(cfg, s.sh, Delivery(m2), env, 0);
            var two := Do(cfg, one.sh, Delivery(m1), env, one.n);
            && m2 in one.sh.acked && id in one.sh.users
            && cfg.compare(password, one.sh.users[id].hash) == CompareAnswer(true, false)
            && m1 in two.sh.acked && id in two.sh.users
            && cfg.compare(password, two.sh.users[id].hash) == CompareAnswer(true, true)
  {
    hide After, Inv, ApplyAll, VersionAdded, CanRegister, Redeployed, Do, AllButFirst, SoleUser, UpgradeWaits, ShOk;
    id, env := Numbered(7), Calm(salts[2], []);
    var address := Email.NewEmail(cfg.normalise, email);
    SameProgram(before, middle, services, newer, email, password);
    AddressOk(before, middle, cfg, services, newer, newest, email, password);
    OldHashNeedsUpgrade(before, middle, services, newer, password, salts[0], salts[1]);
    OldHashNeedsUpgrade(middle, cfg, services + [newer], newest, password, salts[1], salts[2]);
    OldestNeedsUpgrade(before, middle, cfg, services, newer, newest, password, salts[0]);
    run, first := UpgradeIsQueued(before, middle, email, password, salts[0], salts[1]);
    var s1 := ApplyAll(middle, After(before, run), first);
    InvStays(middle, cfg, s1);
    var again := LoginQueues(cfg, s1, id, email, address.value, password, before.hash(password, salts[0]), salts[2],
        40);
    SoundFrom(cfg, s1, again);
    var s2 := ApplyAll(cfg, s1, again);
    InvMeans(cfg, s2);
    ThreeWait(s1.sh, s2.sh, id, cfg.hash(password, salts[2]), address.value, before.hash(password, salts[0]));
    m1 := RelayQueues(cfg, s2.sh, salts[2], [1, 2, 3], 2, id, middle.hash(password, salts[1]));
    m2 := RelayQueues(cfg, s2.sh, salts[2], [1, 2, 3], 3, id, cfg.hash(password, salts[2]));
    var relayed := JobFrom(cfg, s2, Request(Tick), Calm(salts[2], [1, 2, 3]), 30);
    ThenAll(cfg, s1, again, relayed);
    SoundFrom(cfg, s2, relayed);
    InvMeans(cfg, ApplyAll(cfg, s2, relayed));
    second := again + relayed;
    LastUpgradeWins(cfg, ApplyAll(cfg, s2, relayed).sh, id, m2, m1, env, 0);
  }

  lemma ThreeWait(before: Shared, after: Shared, id: Id, newHash: string, address: string, hash: string)
    requires AllButFirst(before.outbox, [1, 2]) && SoleUser(before, id, address, hash) && after.users == before.users
    requires after.outbox == before.outbox + [OutboxRow(PasswordUpgrade, UpgradePayload(id, newHash), 0, None)]
    ensures AllButFirst(after.outbox, [1, 2, 3]) && |after.outbox| == 4 && id in after.users
    ensures after.outbox[2] == before.outbox[2] && after.outbox[3] == after.outbox[|before.outbox|]
  {
  }

  lemma AddressOk(before: Config, middle: Config, cfg: Config, services: seq<PasswordServer.HashService>,
        newer: PasswordServer.HashService, newest: PasswordServer.HashService, email: string, password: string)
    requires VersionAdded(before, middle, services, newer) && VersionAdded(middle, cfg, services + [newer], newest)
    requires CanRegister(before, START, email, password)
    ensures Email.NewEmail(cfg.normalise, email).Ok? && Redeployed(middle, cfg) && middle.normalise == cfg.normalise
    ensures middle.topology == cfg.topology
  {
  }

  lemma OldestNeedsUpgrade(before: Config, middle: Config, cfg: Config, services: seq<PasswordServer.HashService>,
        newer: PasswordServer.HashService, newest: PasswordServer.HashService, password: string, salt: Salt)
    requires VersionAdded(before, middle, services, newer) && VersionAdded(middle, cfg, services + [newer], newest)
    requires password != ""
    ensures cfg.compare(password, before.hash(password, salt)) == CompareAnswer(true, true)
  {
    hide PasswordServer.Compare;
    var all, last := services + [newer] + [newest], |services| - 1;
    PasswordServer.CurrentIsLast(services);
    assert PasswordServer.DistinctVersions(services) && all[last] == services[last];
    PasswordServer.RegisteredHas(services, last);
    PasswordServer.RoutesToMaker(all, last, password, salt);
  }

  // ---------- An upgrade overtaken by a reset ----------

  lemma KeepsQueue(cfg: Config, sh: Shared, op: Op, ch: Choice)
    requires !op.Publish? && !op.Ack? && !op.Nack?
    ensures var t := Exec(cfg, sh, op, ch).0; t.accepted == sh.accepted && t.ready == sh.ready
  {
  }

  lemma AccountAdvances(cfg: Config, sh: Shared, a: Accounts.Pc, ch: Choice)
    ensures var (t, q) := Advance(cfg, sh, Account(a), ch);
            t.accepted == sh.accepted && t.ready == sh.ready && (q.Account? || q.Finished?)
  {
    hide Exec;
    KeepsQueue(cfg, sh, NextOp(Account(a)), ch);
  }

  lemma {:induction false} AccountsKeepQueue(cfg: Config, sh: Shared, p: Proc, env: Env, n: nat)
    requires p.Account? || p.Finished?
    ensures var t := Finish(cfg, sh, p, env, n).sh; t.accepted == sh.accepted && t.ready == sh.ready
    decreases Stage(p), Left(p)
  {
    hide Advance;
    if p.Account? {
      var (t, q) := Advance(cfg, sh, p, env(n));
      AccountAdvances(cfg, sh, p.a, env(n));
      AccountsKeepQueue(cfg, t, q, env, n + 1);
    }
  }

  lemma ResetKeepsUpgrade(cfg: Config, sh: Shared, m: nat, id: Id, token: string, password: string, env: Env, n: nat)
    requires UpgradeWaits(cfg, sh, m, id) && id in Do(cfg, sh, Request(ResetPassword(token, password)), env, n).sh.users
    ensures var t := Do(cfg, sh, Request(ResetPassword(token, password)), env, n).sh;
            UpgradeWaits(cfg, t, m, id) && t.accepted == sh.accepted
  {
    hide Finish;
    AccountsKeepQueue(cfg, sh, Begin(cfg, ResetPassword(token, password)), env, n);
  }

  lemma AddressKept(cfg: Config, sh: Shared, id: Id)
    requires ShOk(cfg, sh) && Email.FixesEmails(cfg.normalise) && id in sh.users
    ensures Email.NewEmail(cfg.normalise, sh.users[id].email) == Ok(sh.users[id].email)
  {
    hide PublishedOk, TokensOk, ProfilesOk, QueueOk, AcceptedOk;
    RowsRestorable(cfg, sh, id);
  }

  /** An upgrade made of the old password before a reset, and delivered after it, brings the old password back:
      nothing fails, the reset succeeds and the upgrade is acknowledged; then exactly the passwords that match
      the hash of the old one log in. */
  lemma UpgradeUndoesReset(cfg: Config, sh: Shared, m: nat, id: Id, token: string, newPassword: string,
        oldPassword: string, oldSalt: Salt, tried: string, env: Env, n: nat)
    requires ShOk(cfg, sh) && Email.FixesEmails(cfg.normalise) && cfg.topology.TokensFromUserEvents()
    requires AllWorks(cfg, env) && UpgradeWaits(cfg, sh, m, id) && newPassword != "" && oldPassword != ""
    requires sh.accepted[m].payload.newHash == cfg.hash(oldPassword, oldSalt)
    requires var k := Key(Reset, token);
             k in sh.tokens && sh.tokens[k].userId == id && sh.now + env(n).delay < sh.tokens[k].expires
    ensures var reset := Do(cfg, sh, Request(ResetPassword(token, newPassword)), env, n);
            var applied := Do(cfg, reset.sh, Delivery(m), env, reset.n);
            var login := Do(cfg, applied.sh, Request(Login(sh.users[id].email, tried)), env, applied.n);
            && reset.outcome == Success(Nothing) && id in reset.sh.users
            && reset.sh.users[id].hash == cfg.hash(newPassword, env(n + 2).salt)
            && applied.outcome == Success(Nothing) && m in applied.sh.acked
            && (login.outcome.Success? <==> IsMatch(cfg, tried, cfg.hash(oldPassword, oldSalt)))
            && (tried == oldPassword ==> login.outcome.Success?)
  {
    hide Do, ShOk, AllWorks, IsMatch, RowByEmail, LoggedIn, OnlyUpgradeQueued;
    AllWorksMeans(cfg, env, n, 5, newPassword);
    AllWorksMeans(cfg, env, n, 0, oldPassword);
    ResetSucceedsExactlyWhen(cfg, sh, token, newPassword, env, n);
    var reset := Do(cfg, sh, Request(ResetPassword(token, newPassword)), env, n);
    DoOk(cfg, sh, Request(ResetPassword(token, newPassword)), env, n);
    ResetKeepsUpgrade(cfg, sh, m, id, token, newPassword, env, n);
    AllWorksMeans(cfg, env, reset.n, 3, "");
    DeliveredUpgradeSucceeds(cfg, reset.sh, m, id, env, reset.n);
    var applied := Do(cfg, reset.sh, Delivery(m), env, reset.n);
    DoOk(cfg, reset.sh, Delivery(m), env, reset.n);
    AddressKept(cfg, applied.sh, id);
    LoginWithHash(cfg, applied.sh, id, tried, env, applied.n);
  }

  /** Exactly the passwords that match the stored hash log in. */
  lemma LoginWithHash(cfg: Config, sh: Shared, id: Id, tried: string, env: Env, n: nat)
    requires ShOk(cfg, sh) && Email.FixesEmails(cfg.normalise) && AllWorks(cfg, env) && id in sh.users
    requires Email.NewEmail(cfg.normalise, sh.users[id].email) == Ok(sh.users[id].email)
    ensures Do(cfg, sh, Request(Login(sh.users[id].email, tried)), env, n).outcome.Success? <==>
              IsMatch(cfg, tried, sh.users[id].hash)
  {
    hide Do, ShOk, AllWorks, IsMatch, RowByEmail;
    AllWorksMeans(cfg, env, n, 7, "");
    EmailsUnique(cfg, sh);
    FoundRow(sh.users, sh.users[id].email, id);
    LoginSucceedsExactlyWhen(cfg, sh, sh.users[id].email, tried, env, n);
  }
}
