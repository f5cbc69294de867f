/** A registration from end to end: the request, the relay, the worker, and the first login. */
module Journey {
  import opened Wrappers
  import opened Users
  import opened Store
  import opened Topology
  import opened Invariant
  import opened Machine
  import opened Safety
  import opened Serial
  import opened History
  import opened SingleUse
  import opened MfaTokens
  import opened RelayDrain
  import opened Consumer
  import opened Outcomes
  import opened AccountOutcomes
  import opened Upgrade
  import opened Guarantees
  import Email
  import Handlers

  // ---------- The relay ----------

  /** The relay touches only the outbox and the broker. */
  predicate RelayKeeps(a: Shared, b: Shared) {
    a.users == b.users && a.tokens == b.tokens && a.unacked == b.unacked && a.acked == b.acked
  }

  lemma RelayAdvances(cfg: Config, sh: Shared, p: Proc, ch: Choice)
    requires p.Relay?
    ensures var (t, q) := Advance(cfg, sh, p, ch); RelayKeeps(sh, t) && (q.Relay? || q.Finished?)
  {
  }

  lemma {:induction false} RelayFinishes(cfg: Config, sh: Shared, p: Proc, env: Env, n: nat)
    requires p.Relay? || p.Finished?
    ensures RelayKeeps(sh, Finish(cfg, sh, p, env, n).sh)
    decreases Stage(p), Left(p)
  {
    hide Advance;
    if !p.Finished? {
      var (t, q) := Advance(cfg, sh, p, env(n));
      RelayAdvances(cfg, sh, p, env(n));
      RelayFinishes(cfg, t, q, env, n + 1);
    }
  }

  /** A pass without faults whose batch has the row puts its message into the queue. */
  lemma TickDelivers(cfg: Config, sh: Shared, env: Env, n: nat, r: nat) returns (m: nat)
    requires ShOk(cfg, sh) && Email.FixesEmails(cfg.normalise)
    requires Selects(sh, env(n)) && NoFaults(env, n, |env(n).pick| + 2) && r in env(n).pick
    requires r < |sh.outbox| && cfg.topology.Routes(sh.outbox[r].event)
    ensures var end := Do(cfg, sh, Request(Tick), env, n);
            && RelayKeeps(sh, end.sh) && m < |end.sh.accepted| && m in end.sh.ready
            && end.sh.accepted[m] == Message(sh.outbox[r].event, sh.outbox[r].payload, r)
  {
    hide Do, ShOk, IsBatch;
    var end, pick := Do(cfg, sh, Request(Tick), env, n), env(n).pick;
    NoFaultsTick(cfg, sh, env, n);
    TickKeeps(cfg, sh, env, n);
    var i :| 0 <= i < |pick| && pick[i] == r;
    m := |sh.accepted| + i;
    assert end.sh.accepted[m] == MessagesOf(sh.outbox, pick)[i];
    DoOk(cfg, sh, Request(Tick), env, n);
    NewMessageWaits(cfg, sh, end.sh, m);
  }

  lemma TickKeeps(cfg: Config, sh: Shared, env: Env, n: nat)
    ensures RelayKeeps(sh, Do(cfg, sh, Request(Tick), env, n).sh)
  {
    RelayFinishes(cfg, sh, Begin(cfg, Tick), env, n);
  }

  lemma NewMessageWaits(cfg: Config, before: Shared, after: Shared, m: nat)
    requires ShOk(cfg, before) && ShOk(cfg, after) && RelayKeeps(before, after)
    requires |before.accepted| <= m < |after.accepted| && cfg.topology.Routes(after.accepted[m].event)
    ensures m in after.ready
  {
    assert m in Routed(cfg, after);
    assert m !in Routed(cfg, before);
  }

  // ---------- The worker ----------

  /** The event that comes with a new row. */
  function RegisteredRow(id: Id, email: string, at: Time, stamp: Time): OutboxRow {
    OutboxRow(UserRegistered, RegisteredPayload(id, email, at), stamp, None)
  }

  lemma SaveInserts(cfg: Config, sh: Shared, m: nat, email: string, hash: string, ch: Choice)
    requires !EmailTaken(sh.users, email) && ch.fault.Fine? && ch.random !in sh.users && |email| <= 255
    ensures var (t, q) := Advance(cfg, sh, Handling(m, Handlers.RegistrationSave(email, hash)), ch);
            && q == Settling(m, Success(Nothing))
            && t.users == sh.users[ch.random := NewUser(ch.random, email, hash, sh.now + ch.delay)]
            && t.outbox == sh.outbox + [RegisteredRow(ch.random, email, sh.now + ch.delay, ch.stamp)]
  {
  }

  /** From the lookup on, a registration that can be stored is stored, with a hash of its password. */
  lemma HandlerStores(cfg: Config, sh: Shared, m: nat, email: string, password: string, env: Env, n: nat)
    requires ShOk(cfg, sh) && Email.FixesEmails(cfg.normalise) && NoFaults(env, n, 4)
    requires !EmailTaken(sh.users, email) && Storable(email, password)
    requires env(n + 2).random !in sh.users && cfg.hash(password, env(n + 1).salt) != ""
    ensures var end, id := Finish(cfg, sh, Handling(m, Handlers.RegistrationFind(email, password)), env, n),
        env(n + 2).random;
            && end.outcome == Success(Nothing) && end.n == n + 4
            && id in end.sh.users
            && end.sh.users[id].createdAt == sh.now + env(n).delay + env(n + 1).delay + env(n + 2).delay
            && end.sh.users == sh.users[id := NewUser(id, email, cfg.hash(password, env(n + 1).salt),
                end.sh.users[id].createdAt)]
            && end.sh.outbox == sh.outbox + [RegisteredRow(id, email, end.sh.users[id].createdAt, env(n + 2).stamp)]
  {
    hide Advance, ShOk, EmailTaken;
    var hash := cfg.hash(password, env(n + 1).salt);
    var p0, p1, p2 := Handling(m, Handlers.RegistrationFind(email, password)),
        Handling(m, Handlers.RegistrationHash(email, password)),
                      Handling(m, Handlers.RegistrationSave(email, hash));
    RegistrationFinds(cfg, sh, m, email, password, env(n));
    var t1 := Later(sh, env(n));
    RegistrationHashes(cfg, t1, m, email, password, env(n + 1));
    var t2 := Later(t1, env(n + 1));
    SaveInserts(cfg, t2, m, email, hash, env(n + 2));
    var (t3, p3) := Advance(cfg, t2, p2, env(n + 2));
    SettlingMoves(cfg, t3, m, p3.result, env(n + 3));
    var (t4, p4) := Advance(cfg, t3, p3, env(n + 3));
    assert Finish(cfg, sh, p0, env, n) == Finish(cfg, t1, p1, env, n + 1) == Finish(cfg, t2, p2, env, n + 2);
    assert Finish(cfg, t2, p2, env, n + 2) == Finish(cfg, t3, p3, env, n + 3) == Finish(cfg, t4, p4, env, n + 4);
  }

  /** A row that was just registered, at this time, and the event that tells of it. */
  predicate JustRegistered(row: UserState, event: OutboxRow, id: Id, email: string, hash: string, at: Time) {
    && row.id == id && row.email == email && row.hash == hash && row.roles == ["user"]
    && !row.emailVerified && !row.mfaEnabled && row.totpSecret == "" && row.createdAt == at && row.updatedAt == at
    && event.event.UserRegistered? && event.publishedAt == None && event.payload.Json?
    && event.payload.id == id && event.payload.email == email && event.payload.createdAt == at
  }

  lemma DeliveryStores(cfg: Config, sh: Shared, m: nat, email: string, env: Env, n: nat)
    requires ShOk(cfg, sh) && Email.FixesEmails(cfg.normalise) && NoFaults(env, n, 4)
    requires m in sh.ready && m < |sh.accepted|
    requires var d := sh.accepted[m];
             && cfg.topology.JobOf(d.event).Registration? && d.payload.Json?
                 && Email.NewEmail(cfg.normalise, d.payload.email) == Ok(email)
             && Storable(email, d.payload.password) && cfg.hash(d.payload.password, env(n + 1).salt) != ""
    requires !EmailTaken(sh.users, email) && env(n + 2).random !in sh.users
    ensures var end, id := Do(cfg, sh, Delivery(m), env, n), env(n + 2).random;
            && end.outcome == Success(Nothing) && end.n == n + 4
            && id in end.sh.users
            && end.sh.users == sh.users[id := NewUser(id, email,
                cfg.hash(sh.accepted[m].payload.password, env(n + 1).salt), end.sh.users[id].createdAt)]
            && end.sh.outbox == sh.outbox + [RegisteredRow(id, email, end.sh.users[id].createdAt, env(n + 2).stamp)]
            && JustRegistered(end.sh.users[id], end.sh.outbox[|sh.outbox|], id, email,
                              cfg.hash(sh.accepted[m].payload.password, env(n + 1).salt),
                              sh.now + env(n).delay + env(n + 1).delay + env(n + 2).delay)
  {
    hide Finish, ShOk, EmailTaken, Storable;
    var (t, p) := Launch(cfg, sh, Delivery(m));
    LaunchOk(cfg, sh, Delivery(m));
    HandlerStores(cfg, t, m, email, sh.accepted[m].payload.password, env, n);
  }

  // ---------- From the request to the login ----------

  /** What the registration needs: a valid free address that fits its column, a password, and a message
      key that reaches the registration handler. */
  ghost predicate CanRegister(cfg: Config, sh: Shared, email: string, password: string) {
    var address := Email.NewEmail(cfg.normalise, email);
    && address.Ok? && !EmailTaken(sh.users, address.value) && Storable(address.value, password)
    && cfg.topology.Routes(RegisterCommand) && cfg.topology.JobOf(RegisterCommand).Registration?
  }

  /** The dependencies work. */
  ghost predicate AllWorks(cfg: Config, env: Env) {
    SettlesDown(cfg, env, 0) && NewHashesAreCurrent(cfg)
  }

  lemma AllWorksMeans(cfg: Config, env: Env, n: nat, count: nat, password: string)
    requires AllWorks(cfg, env)
    ensures NoFaults(env, n, count) && NoRepeats(env)
    ensures password != "" ==>
              forall salt :: cfg.hash(password, salt) != "" && IsMatch(cfg, password, cfg.hash(password, salt))
  {
  }

  /** The state after a registration request, and after the relay's next pass. */
  ghost function Requested(cfg: Config, sh: Shared, email: string, password: string, env: Env, n: nat): End {
    Do(cfg, sh, Request(Register(email, password)), env, n)
  }

  ghost function Relayed(cfg: Config, sh: Shared, email: string, password: string, env: Env, n: nat): End {
    var end := Requested(cfg, sh, email, password, env, n);
    Do(cfg, end.sh, Request(Tick), env, end.n)
  }

  lemma RequestIsRelayed(cfg: Config, sh: Shared, email: string, password: string, env: Env, n: nat) returns (m: nat)
    requires ShOk(cfg, sh) && Email.FixesEmails(cfg.normalise) && CanRegister(cfg, sh, email, password)
        && AllWorks(cfg, env)
    requires var requested := Requested(cfg, sh, email, password, env, n);
             Selects(requested.sh, env(requested.n)) && |sh.outbox| in env(requested.n).pick
    ensures var relayed := Relayed(cfg, sh, email, password, env, n);
            && ShOk(cfg, relayed.sh) && relayed.sh.users == sh.users
            && m in relayed.sh.ready && m < |relayed.sh.accepted| && relayed.n >= n
            && relayed.sh.accepted[m] == Message(RegisterCommand, RegisterPayload(email, password), |sh.outbox|)
  {
    hide Do, ShOk, EmailTaken, IsBatch, Storable, AllWorks;
    AllWorksMeans(cfg, env, n, 2, password);
    Email.RecogniserIsPattern(cfg.normalise(email));
    RegisterSucceedsExactlyWhen(cfg, sh, email, password, env, n);
    DoOk(cfg, sh, Request(Register(email, password)), env, n);
    var requested := Requested(cfg, sh, email, password, env, n);
    AllWorksMeans(cfg, env, requested.n, |env(requested.n).pick| + 2, password);
    m := TickDelivers(cfg, requested.sh, env, requested.n, |sh.outbox|);
    DoOk(cfg, requested.sh, Request(Tick), env, requested.n);
    TickCounts(cfg, requested.sh, env, requested.n);
  }

  lemma TickCounts(cfg: Config, sh: Shared, env: Env, n: nat)
    ensures Do(cfg, sh, Request(Tick), env, n).n >= n
  {
    FinishCounts(cfg, sh, Begin(cfg, Tick), env, n);
  }

  lemma NewUserLogsIn(cfg: Config, before: UserTable, sh: Shared, id: Id, at: Time, email: string, address: string,
        password: string, salt: Salt, env: Env, n: nat)
    requires ShOk(cfg, sh) && Email.FixesEmails(cfg.normalise) && NoFaults(env, n, 7)
    requires sh.users == before[id := NewUser(id, address, cfg.hash(password, salt), at)]
    requires Email.NewEmail(cfg.normalise, email) == Ok(address) && IsMatch(cfg, password, cfg.hash(password, salt))
    ensures var end := Do(cfg, sh, Request(Login(email, password)), env, n);
            end.outcome.Success? && end.outcome.body.Tokens? && end.outcome.body.user.id == id
  {
    hide Do, IsMatch;
    FoundRow(sh.users, address, id);
    LoginSucceedsExactlyWhen(cfg, sh, email, password, env, n);
  }

  /** Where nothing fails and the registration command reaches its handler: after a request for a free
      address, a pass of the relay that takes it, and the delivery of the message, logging in with the same
      address and password returns a session of the new user, whoever else is registered. */
  lemma RegisteredUserLogsIn(cfg: Config, sh: Shared, email: string, password: string, env: Env, n: nat)
    returns (m: nat)
    requires ShOk(cfg, sh) && Email.FixesEmails(cfg.normalise) && CanRegister(cfg, sh, email, password)
        && AllWorks(cfg, env)
    requires IdsIssued(sh, env, n)
    requires var requested := Requested(cfg, sh, email, password, env, n);
             Selects(requested.sh, env(requested.n)) && |sh.outbox| in env(requested.n).pick
    ensures var relayed := Relayed(cfg, sh, email, password, env, n);
            var delivered := Do(cfg, relayed.sh, Delivery(m), env, relayed.n);
            var login := Do(cfg, delivered.sh, Request(Login(email, password)), env, delivered.n);
            && m in relayed.sh.ready && delivered.outcome == Success(Nothing)
            && login.outcome.Success? && login.outcome.body.Tokens?
            && login.outcome.body.user.id !in sh.users && login.outcome.body.user.id in delivered.sh.users
  {
    hide Do, ShOk, EmailTaken, IsBatch, Storable, AllWorks, Requested, Relayed, IsMatch, IdsIssued;
    m := RequestIsRelayed(cfg, sh, email, password, env, n);
    var relayed := Relayed(cfg, sh, email, password, env, n);
    var k, address := relayed.n, Email.NewEmail(cfg.normalise, email).value;
    AllWorksMeans(cfg, env, k, 4, password);
    NewIdIsFree(sh, env, n, k + 2);
    HasPasswordText(address, password);
    DeliveryStores(cfg, relayed.sh, m, address, env, k);
    DoOk(cfg, relayed.sh, Delivery(m), env, k);
    var delivered, id := Do(cfg, relayed.sh, Delivery(m), env, k), env(k + 2).random;
    AllWorksMeans(cfg, env, delivered.n, 7, password);
    NewUserLogsIn(cfg, sh.users, delivered.sh, id, delivered.sh.users[id].createdAt, email, address, password,
        env(k + 1).salt, env, delivered.n);
  }

  lemma HasPasswordText(email: string, password: string)
    requires Storable(email, password)
    ensures password != ""
  {
  }

  // ---------- The first user ----------

  function Numbered(n: nat): Fresh {
    seq(n + 1, i => 'x')
  }

  /** An environment in which nothing fails or takes time, and batches are these rows. */
  ghost function Calm(salt: Salt, pick: seq<nat>): Env {
    (n: nat) => Choice(Fine, 0, Numbered(n), salt, 0, pick, 0)
  }

  ghost predicate SoleUser(sh: Shared, id: Id, address: string, hash: string) {
    id in sh.users && sh.users == map[id := NewUser(id, address, hash, sh.users[id].createdAt)]
  }

  /** The only user, whose event waits in the outbox. */
  ghost predicate OneUser(sh: Shared, id: Id, address: string, hash: string) {
    && SoleUser(sh, id, address, hash)
    && |sh.outbox| == 2 && !Unpublished(sh.outbox, 0) && sh.outbox[0].event.RegisterCommand?
    && sh.outbox[0].payload.Json? && sh.outbox[0].payload.newHash == ""
    && sh.outbox[1] == RegisteredRow(id, address, sh.users[id].createdAt, 0)
  }

  lemma FirstRequest(cfg: Config, email: string, password: string, salt: Salt) returns (run: seq<Action>)
    requires Email.FixesEmails(cfg.normalise) && CanRegister(cfg, START, email, password)
    ensures var sh := After(cfg, run).sh;
            && sh.outbox == [OutboxRow(RegisterCommand, RegisterPayload(email, password), 0, None)]
            && sh.users == map[]
  {
    hide Do, ShOk;
    var env := Calm(salt, [0]);
    StartsOk(cfg);
    Email.RecogniserIsPattern(cfg.normalise(email));
    RegisterSucceedsExactlyWhen(cfg, START, email, password, env, 0);
    run := JobIsARun(cfg, [], Request(Register(email, password)), env, 0);
    assert [] + run == run;
  }

  lemma FirstTick(cfg: Config, email: string, password: string, salt: Salt) returns (run: seq<Action>, m: nat)
    requires Email.FixesEmails(cfg.normalise) && CanRegister(cfg, START, email, password)
    ensures var sh := After(cfg, run).sh;
            && m in sh.ready && m < |sh.accepted|
            && sh.accepted[m] == Message(RegisterCommand, RegisterPayload(email, password), 0)
            && sh.users == map[] && |sh.outbox| == 1 && !Unpublished(sh.outbox, 0)
            && sh.outbox[0].event.RegisterCommand? && sh.outbox[0].payload == RegisterPayload(email, password)
  {
    hide Do, ShOk, After;
    var env := Calm(salt, [0]);
    run := FirstRequest(cfg, email, password, salt);
    var sh := After(cfg, run).sh;
    Sound(cfg, run);
    assert Selects(sh, env(2));
    m := TickDelivers(cfg, sh, env, 2, 0);
    NoFaultsTick(cfg, sh, env, 2);
    var more := JobIsARun(cfg, run, Request(Tick), env, 2);
    run := run + more;
  }

  /** From the very start, the first user is registered by a request, a pass of the relay and a delivery. */
  lemma FirstUser(cfg: Config, email: string, password: string, salt: Salt) returns (run: seq<Action>)
    requires Email.FixesEmails(cfg.normalise) && CanRegister(cfg, START, email, password)
    requires cfg.hash(password, salt) != ""
    ensures var address := Email.NewEmail(cfg.normalise, email).value;
            OneUser(After(cfg, run).sh, Numbered(7), address, cfg.hash(password, salt))
  {
    hide Do, ShOk, After;
    var env, address := Calm(salt, [0]), Email.NewEmail(cfg.normalise, email).value;
    var m;
    run, m := FirstTick(cfg, email, password, salt);
    var sh := After(cfg, run).sh;
    Sound(cfg, run);
    DeliveryStores(cfg, sh, m, address, env, 5);
    var more := JobIsARun(cfg, run, Delivery(m), env, 5);
    run := run + more;
  }

  lemma ShortAddress(cfg: Config, email: string)
    requires Email.FixesEmails(cfg.normalise) && email == "a@b.cd"
    ensures Email.NewEmail(cfg.normalise, email) == Ok(email) && |email| <= 255
  {
    assert Email.SplitsAt(email, 1, 3);
    Email.RecogniserIsPattern(email);
  }

  /** Users are ever stored exactly under the topologies in which the registration command reaches its
      handler, if the hashing service makes a hash of some password. */
  lemma UsersStoredExactlyWhen(cfg: Config, password: string, salt: Salt)
    requires Email.FixesEmails(cfg.normalise) && password != "" && cfg.hash(password, salt) != ""
    ensures (exists run :: After(cfg, run).sh.users != map[]) <==> RegistersUsers(cfg.topology)
  {
    hide After;
    if RegistersUsers(cfg.topology) {
      var email := "a@b.cd";
      ShortAddress(cfg, email);
      var run := FirstUser(cfg, email, password, salt);
      assert After(cfg, run).sh.users != map[];
    } else {
      forall run
        ensures After(cfg, run).sh.users == map[]
      {
        UnroutedStoresNoUser(cfg, run);
      }
    }
  }
}
