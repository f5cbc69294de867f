/** A change of roles from end to end: the request, the relay, the worker's write, the next login, and the gate. */
module RoleChange {
  import opened Wrappers
  import opened Users
  import opened Store
  import opened Topology
  import opened Invariant
  import opened Machine
  import opened Serial
  import opened History
  import opened MfaTokens
  import opened RelayDrain
  import opened Outcomes
  import opened AccountOutcomes
  import opened Journey
  import Email
  import RoleGate

  ghost function Changed(cfg: Config, sh: Shared, id: Id, roles: seq<string>, env: Env, n: nat): End {
    Do(cfg, sh, Request(ChangeRoles(id, Some(roles))), env, n)
  }

  ghost function PassedOn(cfg: Config, sh: Shared, id: Id, roles: seq<string>, env: Env, n: nat): End {
    var end := Changed(cfg, sh, id, roles, env, n);
    Do(cfg, end.sh, Request(Tick), env, end.n)
  }

  /** The message carries these roles for this user. */
  predicate CommandsRoles(m: Message, id: Id, roles: seq<string>) {
    m.event.RolesCommand? && m.payload.Json? && m.payload.userId == id && m.payload.roles == Some(roles)
  }

  lemma CommandIsPassedOn(cfg: Config, sh: Shared, id: Id, roles: seq<string>, env: Env, n: nat) returns (m: nat)
    requires ShOk(cfg, sh) && Email.FixesEmails(cfg.normalise) && AllWorks(cfg, env) && id in sh.users
    requires cfg.topology.Routes(RolesCommand)
    requires var changed := Changed(cfg, sh, id, roles, env, n);
             Selects(changed.sh, env(changed.n)) && |sh.outbox| in env(changed.n).pick
    ensures var passed := PassedOn(cfg, sh, id, roles, env, n);
            && ShOk(cfg, passed.sh) && passed.sh.users == sh.users
            && m in passed.sh.ready && m < |passed.sh.accepted| && CommandsRoles(passed.sh.accepted[m], id, roles)
  {
    hide Do, ShOk, IsBatch, AllWorks;
    AllWorksMeans(cfg, env, n, 2, "");
    RolesRequestQueues(cfg, sh, id, Some(roles), env, n);
    DoOk(cfg, sh, Request(ChangeRoles(id, Some(roles))), env, n);
    var changed := Changed(cfg, sh, id, roles, env, n);
    AllWorksMeans(cfg, env, changed.n, |env(changed.n).pick| + 2, "");
    m := TickDelivers(cfg, changed.sh, env, changed.n, |sh.outbox|);
    DoOk(cfg, changed.sh, Request(Tick), env, changed.n);
  }

  /** The next login shows the roles that are stored now. */
  lemma LoginShowsRoles(cfg: Config, sh: Shared, id: Id, password: string, allowed: seq<string>, env: Env, n: nat)
    requires ShOk(cfg, sh) && Email.FixesEmails(cfg.normalise) && NoFaults(env, n, 7)
    requires id in sh.users && !sh.users[id].mfaEnabled && IsMatch(cfg, password, sh.users[id].hash)
    ensures var outcome := Do(cfg, sh, Request(Login(sh.users[id].email, password)), env, n).outcome;
            && outcome.Success? && outcome.body.Tokens? && outcome.body.user.id == id
            && (RoleGate.Meets(outcome.body.user.roles, allowed) <==>
                "user" in allowed || exists r <- allowed :: r in sh.users[id].roles)
  {
    hide Do, ShOk, IsMatch;
    Recoverable(cfg, sh, id);
    FoundRow(sh.users, sh.users[id].email, id);
    LoginSucceedsExactlyWhen(cfg, sh, sh.users[id].email, password, env, n);
    var u := Do(cfg, sh, Request(Login(sh.users[id].email, password)), env, n).outcome.body.user;
    if "user" in allowed {
      assert "user" in u.roles;
    }
  }

  lemma Recoverable(cfg: Config, sh: Shared, id: Id)
    requires ShOk(cfg, sh) && Email.FixesEmails(cfg.normalise) && id in sh.users
    ensures Email.NewEmail(cfg.normalise, sh.users[id].email) == Ok(sh.users[id].email) && UniqueEmails(sh.users)
    ensures sh.users[id].id == id
  {
  }

  /** Where nothing fails and the command reaches its handler: after a request to change a user's roles, a pass of the
      relay that takes it, and the delivery of the message, the user's next login passes the gate exactly where
      "user" or one of the new roles is allowed, whatever the roles were before. */
  lemma ChangedRolesReachTheGate(cfg: Config, sh: Shared, id: Id, roles: seq<string>, password: string,
        allowed: seq<string>, env: Env, n: nat)
    returns (m: nat)
    requires ShOk(cfg, sh) && Email.FixesEmails(cfg.normalise) && AllWorks(cfg, env) && id in sh.users
    requires cfg.topology.Routes(RolesCommand) && cfg.topology.JobOf(RolesCommand).RolesUpdate?
    requires !sh.users[id].mfaEnabled && IsMatch(cfg, password, sh.users[id].hash)
    requires var changed := Changed(cfg, sh, id, roles, env, n);
             Selects(changed.sh, env(changed.n)) && |sh.outbox| in env(changed.n).pick
    ensures var passed := PassedOn(cfg, sh, id, roles, env, n);
            var applied := Do(cfg, passed.sh, Delivery(m), env, passed.n);
            var login := Do(cfg, applied.sh, Request(Login(sh.users[id].email, password)), env, applied.n);
            && m in passed.sh.ready && applied.outcome == Success(Nothing)
            && login.outcome.Success? && login.outcome.body.Tokens? && login.outcome.body.user.id == id
            && (RoleGate.Meets(login.outcome.body.user.roles, allowed) <==>
                "user" in allowed || exists r <- allowed :: r in roles)
  {
    hide Do, ShOk, IsBatch, AllWorks, Changed, PassedOn, IsMatch, RoleGate.Meets;
    m := CommandIsPassedOn(cfg, sh, id, roles, env, n);
    var passed := PassedOn(cfg, sh, id, roles, env, n);
    AllWorksMeans(cfg, env, passed.n, 2, "");
    RolesCommandApplies(cfg, passed.sh, m, id, Some(roles), env, passed.n);
    DoOk(cfg, passed.sh, Delivery(m), env, passed.n);
    var applied := Do(cfg, passed.sh, Delivery(m), env, passed.n);
    AllWorksMeans(cfg, env, applied.n, 7, "");
    LoginShowsRoles(cfg, applied.sh, id, password, allowed, env, applied.n);
  }
}
