/** The claims of the sessions that are issued: the user in them, and the roles the gate sees. */
module Claims {
  import opened Wrappers
  import opened Users
  import opened Store
  import opened Invariant
  import opened Machine
  import opened Safety
  import opened History
  import opened Effects
  import Email
  import RoleGate

  /** The roles are "user" and those of the row, and what decides a login is the row's. */
  ghost predicate ShowsRow(u: UserState, row: UserState) {
    && u.id == row.id && u.email == row.email && u.hash == row.hash
    && u.mfaEnabled == row.mfaEnabled && u.totpSecret == row.totpSecret
    && forall r :: r in u.roles <==> r == "user" || r in row.roles
  }

  lemma LoadShowsRow(cfg: Config, row: UserState, now: Time)
    requires Email.FixesEmails(cfg.normalise) && Restorable(row)
    ensures Loaded(cfg, row, now).Found? && ShowsRow(Loaded(cfg, row, now).user, row)
  {
    LoadedUser(cfg.normalise, row, now);
    assert forall r :: r in ["user"] + row.roles <==> r == "user" || r in row.roles;
  }

  lemma FindShowsRow(cfg: Config, sh: Shared, op: Op, ch: Choice)
    requires ShOk(cfg, sh) && Email.FixesEmails(cfg.normalise) && (op.FindByEmail? || op.FindByID?)
    ensures var reply := Exec(cfg, sh, op, ch).1;
            reply.Found? ==> reply.user.id in sh.users && ShowsRow(reply.user, sh.users[reply.user.id])
  {
    hide ShOk, ShowsRow, Loaded;
    if op.FindByEmail? {
      var row := RowByEmail(sh.users, op.email);
      if row.Some? {
        var id :| id in sh.users && sh.users[id] == row.value;
        RowKnown(cfg, sh, id);
        LoadShowsRow(cfg, row.value, sh.now + ch.delay);
        SameId(Loaded(cfg, row.value, sh.now + ch.delay).user, row.value);
      }
    } else if op.id in sh.users {
      RowKnown(cfg, sh, op.id);
      LoadShowsRow(cfg, sh.users[op.id], sh.now + ch.delay);
      SameId(Loaded(cfg, sh.users[op.id], sh.now + ch.delay).user, sh.users[op.id]);
    }
  }

  lemma SameId(u: UserState, row: UserState)
    requires ShowsRow(u, row)
    ensures u.id == row.id
  {
  }

  /** The state at the j-th event of a run: the one in which it took place. */
  ghost predicate StateAt(cfg: Config, run: seq<Action>, j: nat, r: nat) {
    j < |After(cfg, run).log| && r < |run| && After(cfg, run[..r]).log == After(cfg, run).log[..j]
  }

  ghost predicate FoundInTable(cfg: Config, run: seq<Action>, j: nat, r: nat, u: UserState) {
    StateAt(cfg, run, j, r)
    && var users := After(cfg, run[..r]).sh.users;
       u.id in users && ShowsRow(u, users[u.id])
  }

  lemma FoundNow(cfg: Config, s: State, pid: Pid, ch: Choice, u: UserState)
    requires Inv(cfg, s) && Email.FixesEmails(cfg.normalise) && pid in s.procs && !s.procs[pid].Finished?
    requires Finds(StepEvent(cfg, s, pid, ch), u)
    ensures u.id in s.sh.users && ShowsRow(u, s.sh.users[u.id])
  {
    hide Exec, ShOk, ProcsOk, HoldersOk;
    FindShowsRow(cfg, s.sh, NextOp(s.procs[pid]), ch);
  }

  lemma LogGrowsBy(cfg: Config, s: State, a: Action)
    ensures var t := Apply(cfg, s, a);
            t.log == if a.Run? && a.pid in s.procs && !s.procs[a.pid].Finished?
                     then s.log + [StepEvent(cfg, s, a.pid, a.choice)] else s.log
  {
    hide Exec;
  }

  /** A user that a lookup answered came from the table: it shows the row of its identifier as that was when
      the lookup took place. */
  lemma {:induction false} LookupsShowTheTable(cfg: Config, run: seq<Action>, j: nat, u: UserState) returns (r: nat)
    requires Email.FixesEmails(cfg.normalise) && j < |After(cfg, run).log| && Finds(After(cfg, run).log[j], u)
    ensures FoundInTable(cfg, run, j, r, u)
  {
    hide Apply, Inv, ShowsRow, Finds;
    var init, a := run[..|run| - 1], run[|run| - 1];
    var s := After(cfg, init);
    LogGrowsBy(cfg, s, a);
    if j < |s.log| {
      r := LookupsShowTheTable(cfg, init, j, u);
      assert run[..r] == init[..r];
    } else {
      r := |run| - 1;
      Sound(cfg, init);
      FoundNow(cfg, s, a.pid, a.choice, u);
    }
  }

  // ---------- The gate ----------

  /** The event signs an access token whose claims are this user's. */
  predicate SignsClaims(e: Event, u: UserState) {
    e.pc.Session? && NextOp(e.pc) == Sign(u)
  }

  /** The roles that pass the gate at the j-th event: "user", and those of the last write before it. */
  predicate MayPass(log: Log, j: nat, id: Id, allowed: seq<string>)
    requires j <= |log|
  {
    "user" in allowed || exists r <- allowed :: r in LastRoles(log[..j], id)
  }

  lemma EventsKnow(cfg: Config, run: seq<Action>, i: nat)
    requires Email.FixesEmails(cfg.normalise) && i < |After(cfg, run).log|
    ensures var log := After(cfg, run).log; Knows(cfg, log[..i], log[i].pid, log[i].pc)
    decreases |run|
  {
    hide Apply, Knows, OriginsOk;
    var init, a := run[..|run| - 1], run[|run| - 1];
    var s := After(cfg, init);
    LogGrowsBy(cfg, s, a);
    if i < |s.log| {
      EventsKnow(cfg, init, i);
      assert After(cfg, run).log[..i] == s.log[..i];
    } else {
      Origins(cfg, init);
      ProcKnows(cfg, s, a.pid);
      assert After(cfg, run).log[..i] == s.log;
    }
  }

  lemma ProcKnows(cfg: Config, s: State, pid: Pid)
    requires OriginsOk(cfg, s) && pid in s.procs
    ensures Knows(cfg, s.log, pid, s.procs[pid])
  {
  }

  /** In every run, the claims of every access token that is signed are those of a lookup of its own: the user is
      as its row showed it then, and its roles pass the gate exactly when the allowed list has "user" or a
      role of the last roles write before that lookup. */
  lemma SessionsCarryLastRoles(cfg: Config, run: seq<Action>, i: nat, u: UserState, allowed: seq<string>)
    returns (j: nat, r: nat)
    requires Email.FixesEmails(cfg.normalise) && i < |After(cfg, run).log| && SignsClaims(After(cfg, run).log[i], u)
    ensures var log := After(cfg, run).log;
            && j < i && log[j].pid == log[i].pid && Finds(log[j], u) && FoundInTable(cfg, run, j, r, u)
            && (RoleGate.Meets(u.roles, allowed) <==> MayPass(log, j, u.id, allowed))
  {
    hide After, Finds, PassedChecks;
    var log := After(cfg, run).log;
    EventsKnow(cfg, run, i);
    j :| 0 <= j < i && log[..i][j].pid == log[i].pid && Finds(log[..i][j], u);
    assert log[..i][j] == log[j];
    r := LookupsShowTheTable(cfg, run, j, u);
    RoleWritesNeverLost(cfg, run[..r], u.id);
    GateOnRow(u, After(cfg, run[..r]).sh.users[u.id], log, j, allowed);
  }

  lemma GateOnRow(u: UserState, row: UserState, log: Log, j: nat, allowed: seq<string>)
    requires ShowsRow(u, row) && j <= |log| && row.roles == LastRoles(log[..j], u.id)
    ensures RoleGate.Meets(u.roles, allowed) <==> MayPass(log, j, u.id, allowed)
  {
    if "user" in allowed {
      assert "user" in u.roles;
    }
  }

  /** The role check on the claims of an issued session. */
  method CheckIssued(ghost cfg: Config, ghost run: seq<Action>, ghost i: nat, u: UserState, allowed: seq<string>)
    returns (verdict: RoleGate.Verdict, ghost j: nat)
    requires Email.FixesEmails(cfg.normalise) && i < |After(cfg, run).log| && SignsClaims(After(cfg, run).log[i], u)
    ensures j < i && After(cfg, run).log[j].pid == After(cfg, run).log[i].pid && Finds(After(cfg, run).log[j], u)
    ensures verdict == (if MayPass(After(cfg, run).log, j, u.id, allowed) then RoleGate.Allowed else RoleGate.Forbidden)
  {
    ghost var r;
    j, r := SessionsCarryLastRoles(cfg, run, i, u, allowed);
    verdict := RoleGate.RequireRoles(Some(u.roles), allowed);
  }
}
