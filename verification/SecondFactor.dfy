/** Whether a second factor that is on stays on: the update writes the flag and the secret of the copy it is
    given, so whatever loaded the user before the set-up and writes it back afterwards turns it off again. */
module SecondFactor {
  import opened Wrappers
  import opened Users
  import opened Store
  import Topology
  import opened Invariant
  import opened Machine
  import opened Safety
  import opened History
  import opened Serial
  import opened MfaTokens
  import opened Claims
  import opened AccountOutcomes
  import opened Hashes
  import opened HashSpread
  import opened UndoneUpgrades
  import Email
  import Accounts
  import Handlers
  import Sessions

  predicate IsOn(sh: Shared, id: Id) {
    id in sh.users && sh.users[id].mfaEnabled
  }

  /** Some hash can be made of the password. */
  ghost predicate CanHash(cfg: Config, password: string) {
    password != "" && exists salt :: cfg.hash(password, salt) != ""
  }

  /** The user that a process may come to write back to the table as it has loaded it. */
  ghost function WritesRow(cfg: Config, p: Proc): Option<UserState> {
    match p
    case Account(a) =>
      (match a
       case ConfirmUpdate(_, u) => Some(u)
       case ResetHash(_, password, u) => if CanHash(cfg, password) then Some(u) else None
       case ResetUpdate(_, u) => Some(u)
       case SetupUpdate(u) => Some(u)
       case _ => None)
    case Handling(_, h) => if h.UpgradeUpdate? then Some(h.user) else None
    case _ => None
  }

  /** The process has loaded this user with the second factor off, and may write that back. */
  ghost predicate HasOffCopy(cfg: Config, p: Proc, id: Id) {
    var u := WritesRow(cfg, p);
    u.Some? && u.value.id == id && !u.value.mfaEnabled && SecretFits(u.value)
  }

  ghost predicate NoOffCopies(cfg: Config, s: State, id: Id) {
    forall p :: p in s.procs ==> !HasOffCopy(cfg, s.procs[p], id)
  }

  /** However it goes on. */
  ghost predicate StaysOn(cfg: Config, s: State, id: Id) {
    forall more :: IsOn(ApplyAll(cfg, s, more).sh, id)
  }

  // ---------- Without an old copy it stays on ----------

  predicate TurnsOff(op: Op, id: Id) {
    op.Update? && op.user.id == id && !op.user.mfaEnabled && SecretFits(op.user)
  }

  lemma OnAfter(cfg: Config, sh: Shared, op: Op, ch: Choice, id: Id)
    requires IsOn(sh, id) && !TurnsOff(op, id)
    ensures IsOn(Exec(cfg, sh, op, ch).0, id)
  {
    if !op.Save? && !op.Update? && !op.UpdateRoles? {
      hide Exec;
      UsersUnchanged(cfg, sh, op, ch);
    }
  }

  lemma NoneTurnsOff(cfg: Config, p: Proc, id: Id)
    requires !p.Finished? && !HasOffCopy(cfg, p, id)
    ensures !TurnsOff(NextOp(p), id)
  {
  }

  /** What an answer tells about the flag, and about hashing. */
  ghost predicate ReplyOn(cfg: Config, op: Op, reply: Reply, id: Id) {
    && (op.FindByID? && reply.Found? && reply.user.id == id ==> reply.user.mfaEnabled)
    && (op.Hash? && reply.Hashed? ==> CanHash(cfg, op.plainText))
  }

  lemma AnswersOn(cfg: Config, sh: Shared, op: Op, ch: Choice, id: Id)
    requires ShOk(cfg, sh) && Email.FixesEmails(cfg.normalise) && IsOn(sh, id)
    ensures ReplyOn(cfg, op, Exec(cfg, sh, op, ch).1, id)
  {
    hide ShOk, Exec;
    if op.FindByID? {
      FindShowsRow(cfg, sh, op, ch);
    } else if op.Hash? {
      HashedMeans(cfg, sh, op.plainText, ch);
    }
  }

  lemma HashedMeans(cfg: Config, sh: Shared, password: string, ch: Choice)
    ensures Exec(cfg, sh, Hash(password), ch).1.Hashed? ==> CanHash(cfg, password)
  {
  }

  lemma ResumesOn(cfg: Config, p: Proc, reply: Reply, now: Time, id: Id)
    requires !p.Finished? && !HasOffCopy(cfg, p, id) && ReplyOn(cfg, NextOp(p), reply, id)
    ensures !HasOffCopy(cfg, Resume(cfg, p, reply, now), id)
  {
    hide CanHash;
  }

  lemma NewHasNoCopy(cfg: Config, call: Call, m: nat, message: Message, id: Id)
    ensures !HasOffCopy(cfg, Begin(cfg, call), id)
    ensures !HasOffCopy(cfg, OfHandler(m, Handlers.Handle(cfg, message)), id)
  {
    hide CanHash;
  }

  lemma StepStaysOn(cfg: Config, s: State, a: Action, id: Id)
    requires Inv(cfg, s) && Email.FixesEmails(cfg.normalise) && IsOn(s.sh, id) && NoOffCopies(cfg, s, id)
    ensures var t := Apply(cfg, s, a); IsOn(t.sh, id) && NoOffCopies(cfg, t, id)
  {
    hide Exec, ShOk, ProcsOk, HoldersOk, HasOffCopy, IsOn;
    match a
    case Start(call) => NewHasNoCopy(cfg, call, 0, Message(Topology.PasswordUpgrade, Malformed, 0), id);
    case Deliver(m) =>
      SameTable(s.sh, Apply(cfg, s, a).sh, id);
      if m < |s.sh.accepted| {
        NewHasNoCopy(cfg, Tick, m, s.sh.accepted[m], id);
      }
    case Run(pid, ch) =>
      if pid in s.procs && !s.procs[pid].Finished? {
        var p := s.procs[pid];
        var (sh, reply) := Exec(cfg, s.sh, NextOp(p), ch);
        NoneTurnsOff(cfg, p, id);
        OnAfter(cfg, s.sh, NextOp(p), ch, id);
        AnswersOn(cfg, s.sh, NextOp(p), ch, id);
        ResumesOn(cfg, p, reply, sh.now, id);
      }
    case Crash(_) => SameTable(s.sh, Apply(cfg, s, a).sh, id);
  }

  lemma SameTable(a: Shared, b: Shared, id: Id)
    requires IsOn(a, id) && b.users == a.users
    ensures IsOn(b, id)
  {
  }

  lemma {:induction false} RunStaysOn(cfg: Config, s: State, more: seq<Action>, id: Id)
    requires Inv(cfg, s) && Email.FixesEmails(cfg.normalise) && IsOn(s.sh, id) && NoOffCopies(cfg, s, id)
    ensures IsOn(ApplyAll(cfg, s, more).sh, id)
    decreases |more|
  {
    hide Inv, Apply, NoOffCopies, IsOn;
    if more != [] {
      ApplyKeeps(cfg, s, more[0]);
      StepStaysOn(cfg, s, more[0], id);
      RunStaysOn(cfg, Apply(cfg, s, more[0]), more[1..], id);
    }
  }

  // ---------- With one it need not ----------

  lemma UpdateTurnsOff(cfg: Config, s: State, pid: Pid, u: UserState, ch: Choice)
    requires pid in s.procs && AtUpdate(s.procs[pid], u) && u.id in s.sh.users
    requires !u.mfaEnabled && SecretFits(u) && ch.fault != Lost
    ensures var t := Apply(cfg, s, Run(pid, ch)); !IsOn(t.sh, u.id) && TokensWait(s.sh, t.sh, ch)
  {
    hide Exec, NextOp;
    UpdateStores(cfg, s, pid, u, ch);
    TokensAfter(cfg, s.sh, Update(u), ch);
  }

  /** No token has changed, and only the delay has passed. */
  predicate TokensWait(before: Shared, after: Shared, ch: Choice) {
    after.tokens == before.tokens && after.now == before.now + ch.delay
  }

  /** A reset hashes its password and comes to its update. */
  lemma ResetGoesOn(cfg: Config, s: State, pid: Pid, token: string, password: string, u: UserState, ch: Choice)
    requires At(s, pid, Account(Accounts.ResetHash(token, password, u)))
    requires ch.fault.Fine? && password != "" && cfg.hash(password, ch.salt) != ""
    ensures var t := Apply(cfg, s, Run(pid, ch));
            t.sh.users == s.sh.users && pid in t.procs && TokensWait(s.sh, t.sh, ch)
            && AtUpdate(t.procs[pid], u.UpdatePassword(cfg.hash(password, ch.salt), t.sh.now))
  {
  }

  lemma OffCopyTurnsOff(cfg: Config, s: State, pid: Pid, id: Id) returns (more: seq<Action>)
    requires pid in s.procs && HasOffCopy(cfg, s.procs[pid], id) && id in s.sh.users
    ensures var t := ApplyAll(cfg, s, more);
            !IsOn(t.sh, id) && t.sh.tokens == s.sh.tokens && t.sh.now == s.sh.now
  {
    hide Apply;
    var p, u := s.procs[pid], WritesRow(cfg, s.procs[pid]).value;
    if p.Account? && p.a.ResetHash? {
      var salt :| cfg.hash(p.a.password, salt) != "";
      var step := Run(pid, Plain(salt));
      var t := Apply(cfg, s, step);
      ResetGoesOn(cfg, s, pid, p.a.token, p.a.password, u, Plain(salt));
      UpdateTurnsOff(cfg, t, pid, u.UpdatePassword(cfg.hash(p.a.password, salt), t.sh.now), Plain(salt));
      TwoActions(cfg, s, step, step);
      more := [step, step];
    } else {
      var step := Run(pid, Plain([]));
      UpdateTurnsOff(cfg, s, pid, u, Plain([]));
      OneAction(cfg, s, step);
      more := [step];
    }
  }

  /** In every interleaving: a second factor that is on stays on, however the run goes on, exactly when no
      confirmation, reset, set-up or upgrade under way has loaded the user with it off and can write that
      back. */
  lemma StaysOnExactlyWhen(cfg: Config, s: State, id: Id)
    requires Inv(cfg, s) && Email.FixesEmails(cfg.normalise) && IsOn(s.sh, id)
    ensures StaysOn(cfg, s, id) <==> NoOffCopies(cfg, s, id)
  {
    hide Inv, ApplyAll, HasOffCopy, IsOn;
    if NoOffCopies(cfg, s, id) {
      forall more
        ensures IsOn(ApplyAll(cfg, s, more).sh, id)
      {
        RunStaysOn(cfg, s, more, id);
      }
    } else {
      var pid :| pid in s.procs && HasOffCopy(cfg, s.procs[pid], id);
      OnIsStored(s.sh, id);
      var more := OffCopyTurnsOff(cfg, s, pid, id);
    }
  }

  lemma OnIsStored(sh: Shared, id: Id)
    requires IsOn(sh, id)
    ensures id in sh.users
  {
  }

  // ---------- The secret that a verification checks ----------

  /** In every run: the secret against which a verification checks its code is empty exactly when the second
      factor of its user was off at the verification's own lookup - whether or not it was on when the login
      issued the token, since nothing looks at the flag again. */
  lemma ChecksSecretExactlyWhen(cfg: Config, run: seq<Action>, i: nat, token: string, code: string, u: UserState)
    returns (j: nat, r: nat)
    requires Email.FixesEmails(cfg.normalise) && i < |After(cfg, run).log|
    requires After(cfg, run).log[i].pc == Session(Sessions.VerifyCheck(token, code, u))
    ensures var log := After(cfg, run).log;
            && j < i && log[j].pid == log[i].pid && Finds(log[j], u) && FoundInTable(cfg, run, j, r, u)
            && (u.totpSecret != "" <==> IsOn(After(cfg, run[..r]).sh, u.id))
  {
    hide After, Finds, PassedChecks;
    var log := After(cfg, run).log;
    EventsKnow(cfg, run, i);
    j :| 0 <= j < i && log[..i][j].pid == log[i].pid && Finds(log[..i][j], u);
    assert log[..i][j] == log[j];
    r := LookupsShowTheTable(cfg, run, j, u);
    Sound(cfg, run[..r]);
    SecretOfRow(cfg, After(cfg, run[..r]), u);
  }

  lemma SecretOfRow(cfg: Config, s: State, u: UserState)
    requires Inv(cfg, s) && u.id in s.sh.users && ShowsRow(u, s.sh.users[u.id])
    ensures u.totpSecret != "" <==> IsOn(s.sh, u.id)
  {
    hide ShOk, ProcsOk, HoldersOk;
    RowKnown(cfg, s.sh, u.id);
  }

  /** A verification of this user's token is about to check its code against no secret. */
  predicate ChecksEmpty(p: Proc, id: Id) {
    p.Session? && p.s.VerifyCheck? && p.s.user.id == id && p.s.user.totpSecret == ""
  }

  ghost predicate NoneChecksEmpty(s: State, id: Id) {
    forall p :: p in s.procs ==> !ChecksEmpty(s.procs[p], id)
  }

  lemma LooksUp(cfg: Config, s: State, pid: Pid, ch: Choice, id: Id)
    requires Inv(cfg, s) && Email.FixesEmails(cfg.normalise) && IsOn(s.sh, id) && pid in s.procs
        && !s.procs[pid].Finished?
    requires !ChecksEmpty(s.procs[pid], id)
    ensures !ChecksEmpty(RunProc(cfg, s, pid, ch).procs[pid], id)
  {
    hide Exec, Inv, ShowsRow, IsOn;
    var p := s.procs[pid];
    var (sh, reply) := Exec(cfg, s.sh, NextOp(p), ch);
    if p.Session? && p.s.VerifyFind? && reply.Found? {
      InvMeans(cfg, s);
      FindShowsRow(cfg, s.sh, NextOp(p), ch);
      SecretOfRow(cfg, s, reply.user);
    }
  }

  lemma StepChecksSecret(cfg: Config, s: State, a: Action, id: Id)
    requires Inv(cfg, s) && Email.FixesEmails(cfg.normalise) && IsOn(s.sh, id) && NoneChecksEmpty(s, id)
    ensures NoneChecksEmpty(Apply(cfg, s, a), id)
  {
    hide Exec, Inv, IsOn;
    if a.Run? && a.pid in s.procs && !s.procs[a.pid].Finished? {
      LooksUp(cfg, s, a.pid, a.choice, id);
    }
  }

  lemma {:induction false} RunChecksSecret(cfg: Config, s: State, more: seq<Action>, id: Id)
    requires Inv(cfg, s) && Email.FixesEmails(cfg.normalise) && IsOn(s.sh, id) && NoOffCopies(cfg, s, id)
    requires NoneChecksEmpty(s, id)
    ensures NoneChecksEmpty(ApplyAll(cfg, s, more), id)
    decreases |more|
  {
    hide Inv, Apply, NoOffCopies, IsOn, NoneChecksEmpty;
    if more != [] {
      ApplyKeeps(cfg, s, more[0]);
      StepStaysOn(cfg, s, more[0], id);
      StepChecksSecret(cfg, s, more[0], id);
      RunChecksSecret(cfg, Apply(cfg, s, more[0]), more[1..], id);
    }
  }

  lemma RunAdvances(cfg: Config, s: State, pid: Pid, ch: Choice)
    requires pid in s.procs && !s.procs[pid].Finished?
    ensures var (sh, q) := Advance(cfg, s.sh, s.procs[pid], ch);
            var t := Apply(cfg, s, Run(pid, ch)); t.sh == sh && t.procs == s.procs[pid := q]
  {
  }

  /** A verification that starts now reads the token, looks its user up, and has no secret to check against. */
  lemma VerifierChecksEmpty(cfg: Config, s: State, id: Id, token: string) returns (more: seq<Action>)
    requires Inv(cfg, s) && Email.FixesEmails(cfg.normalise) && id in s.sh.users && !IsOn(s.sh, id)
    requires Live(s.sh, Key(Mfa, token)) && s.sh.tokens[Key(Mfa, token)].userId == id
    ensures !NoneChecksEmpty(ApplyAll(cfg, s, more), id)
  {
    hide Inv, ShOk, Apply, Advance;
    var start, step, pid := Start(VerifyMFA(token, "")), Run(s.next, Plain([])), s.next;
    InvMeans(cfg, s);
    StartBegins(cfg, s, VerifyMFA(token, ""));
    var s1 := Apply(cfg, s, start);
    VerifyReads(cfg, s1.sh, Plain([]), token, "");
    RunAdvances(cfg, s1, pid, Plain([]));
    var s2 := Apply(cfg, s1, step);
    LaterOk(cfg, s.sh, Plain([]));
    var t, u := VerifyFinds(cfg, s2.sh, id, Plain([]), token, "");
    RunAdvances(cfg, s2, pid, Plain([]));
    SecretOff(cfg, s.sh, u, id);
    assert ChecksEmpty(Apply(cfg, s2, step).procs[pid], id);
    TwoActions(cfg, s1, step, step);
    more := [start] + [step, step];
    assert more[1..] == [step, step];
  }

  lemma SecretOff(cfg: Config, sh: Shared, u: UserState, id: Id)
    requires ShOk(cfg, sh) && id in sh.users && !IsOn(sh, id) && ShowsRow(u, sh.users[id])
    ensures u.id == id && u.totpSecret == ""
  {
    hide ShOk;
    RowKnown(cfg, sh, id);
  }

  /** No verification ever comes to check against no secret, however it goes on. */
  ghost predicate NeverChecksEmpty(cfg: Config, s: State, id: Id) {
    forall more :: NoneChecksEmpty(ApplyAll(cfg, s, more), id)
  }

  /** So from a state in which an MFA token of a user is live and the second factor on: every verification checks
      its code against a secret, however the run goes on, exactly when nothing under way can write back a copy of
      the user with the second factor off. */
  lemma AlwaysChecksSecretExactlyWhen(cfg: Config, s: State, id: Id, token: string)
    requires Inv(cfg, s) && Email.FixesEmails(cfg.normalise) && IsOn(s.sh, id) && NoneChecksEmpty(s, id)
    requires Live(s.sh, Key(Mfa, token)) && s.sh.tokens[Key(Mfa, token)].userId == id
    ensures NeverChecksEmpty(cfg, s, id) <==> NoOffCopies(cfg, s, id)
  {
    hide Inv, ApplyAll, HasOffCopy, IsOn, NoneChecksEmpty;
    if NoOffCopies(cfg, s, id) {
      forall more
        ensures NoneChecksEmpty(ApplyAll(cfg, s, more), id)
      {
        RunChecksSecret(cfg, s, more, id);
      }
    } else {
      var pid :| pid in s.procs && HasOffCopy(cfg, s.procs[pid], id);
      OnIsStored(s.sh, id);
      var off := OffCopyTurnsOff(cfg, s, pid, id);
      StillStored(cfg, s, off, id);
      var rest := VerifierChecksEmpty(cfg, ApplyAll(cfg, s, off), id, token);
      ThenAll(cfg, s, off, rest);
      assert !NoneChecksEmpty(ApplyAll(cfg, s, off + rest), id);
    }
  }

  lemma {:induction false} StillStored(cfg: Config, s: State, more: seq<Action>, id: Id)
    requires Inv(cfg, s) && Email.FixesEmails(cfg.normalise) && id in s.sh.users
    ensures Inv(cfg, ApplyAll(cfg, s, more)) && id in ApplyAll(cfg, s, more).sh.users
    decreases |more|
  {
    hide Inv, Apply, OutboxGrows;
    if more != [] {
      ApplyKeeps(cfg, s, more[0]);
      StillStored(cfg, Apply(cfg, s, more[0]), more[1..], id);
    }
  }

  // ---------- An upgrade overtaken by a set-up ----------

  /** An upgrade is delivered and loads its user; */
  ghost function UpgradeLoaded(cfg: Config, s: State, m: nat, env: Env): State {
    Apply(cfg, Apply(cfg, s, Deliver(m)), Run(s.next, env(0)))
  }

  /** a set-up of the second factor runs from its start to its end; */
  ghost function SetupOver(cfg: Config, s: State, id: Id, m: nat, env: Env): State {
    ApplyAll(cfg, Apply(cfg, UpgradeLoaded(cfg, s, m, env), Start(SetupMFA(id))), Runs(s.next + 1, env, 1, 4))
  }

  /** and the upgrade goes on to its update. */
  ghost function UpgradeOver(cfg: Config, s: State, id: Id, m: nat, env: Env): State {
    Apply(cfg, SetupOver(cfg, s, id, m, env), Run(s.next, env(4)))
  }

  /** An upgrade is past its lookup, and has a copy of the user with the second factor off. */
  predicate LoadedOff(p: Proc, id: Id) {
    p.Handling? && p.h.UpgradeUpdate? && p.h.user.id == id && !p.h.user.mfaEnabled && SecretFits(p.h.user)
  }

  lemma UpgradeLoadsOff(cfg: Config, s: State, id: Id, m: nat, env: Env)
    requires Inv(cfg, s) && Email.FixesEmails(cfg.normalise) && UpgradeWaits(cfg, s.sh, m, id)
    requires !s.sh.users[id].mfaEnabled && NoFaults(env, 0, 1)
    ensures var t := UpgradeLoaded(cfg, s, m, env);
            && t.sh.users == s.sh.users && t.next == s.next + 1 && Inv(cfg, t)
            && s.next in t.procs && LoadedOff(t.procs[s.next], id)
  {
    hide Inv, ShOk, Apply;
    var s1 := Apply(cfg, s, Deliver(m));
    InvMeans(cfg, s);
    DeliverLaunches(cfg, s, m);
    ApplyKeeps(cfg, s, Deliver(m));
    InvMeans(cfg, s1);
    var u := UpgradeLoads(cfg, s1, s.next, m, id, s.sh.accepted[m].payload.newHash, env(0));
    assert UpgradeLoaded(cfg, s, m, env).procs[s.next] == Handling(m, Handlers.UpgradeUpdate(u));
    ApplyKeeps(cfg, s1, Run(s.next, env(0)));
  }

  lemma StartBegins(cfg: Config, s: State, call: Call)
    ensures Apply(cfg, s, Start(call)) == s.(procs := s.procs[s.next := Begin(cfg, call)], next := s.next + 1)
  {
  }

  lemma SetupTurnsOn(cfg: Config, s: State, id: Id, pid: Pid, env: Env)
    requires Inv(cfg, s) && Email.FixesEmails(cfg.normalise) && id in s.sh.users && NoFaults(env, 1, 3)
    requires |env(2).random| <= 128 && pid in s.procs && LoadedOff(s.procs[pid], id)
    ensures var t := ApplyAll(cfg, Apply(cfg, s, Start(SetupMFA(id))), Runs(s.next, env, 1, 4));
            && IsOn(t.sh, id) && pid in t.procs && LoadedOff(t.procs[pid], id)
            && At(t, s.next, Finished(Success(Secret(env(2).random))))
  {
    hide Inv, ShOk, Apply, ApplyAll, Runs, Finish, LoadedOff;
    InvMeans(cfg, s);
    StartBegins(cfg, s, SetupMFA(id));
    SetupSucceedsExactlyWhen(cfg, s.sh, id, env, 1);
    FinishIsARun(cfg, Apply(cfg, s, Start(SetupMFA(id))), s.next, env, 1);
  }

  lemma UpgradeTurnsOff(cfg: Config, s: State, pid: Pid, id: Id, ch: Choice)
    requires pid in s.procs && LoadedOff(s.procs[pid], id) && id in s.sh.users && ch.fault.Fine?
    ensures var t := Apply(cfg, s, Run(pid, ch)); !IsOn(t.sh, id) && pid in t.procs
  {
    UpdateTurnsOff(cfg, s, pid, s.procs[pid].h.user, ch);
  }

  /** From any state with the invariant in which an upgrade waits for a user without a second factor: if it
      loads the user, then a set-up runs from its start to its end, and then the upgrade goes on, nothing fails,
      the set-up answers its secret and the second factor is on - and then off again. */
  lemma UpgradeUndoesSetup(cfg: Config, s: State, id: Id, m: nat, env: Env)
    requires Inv(cfg, s) && Email.FixesEmails(cfg.normalise) && UpgradeWaits(cfg, s.sh, m, id)
    requires !s.sh.users[id].mfaEnabled && NoFaults(env, 0, 5) && |env(2).random| <= 128
    ensures var setUp, over := SetupOver(cfg, s, id, m, env), UpgradeOver(cfg, s, id, m, env);
            && s.next + 1 in setUp.procs && setUp.procs[s.next + 1] == Finished(Success(Secret(env(2).random)))
            && IsOn(setUp.sh, id) && !IsOn(over.sh, id)
  {
    hide Inv, Apply, ApplyAll, Runs, UpgradeLoaded, LoadedOff, IsOn;
    UpgradeLoadsOff(cfg, s, id, m, env);
    SetupTurnsOn(cfg, UpgradeLoaded(cfg, s, m, env), id, s.next, env);
    OnIsStored(SetupOver(cfg, s, id, m, env).sh, id);
    UpgradeTurnsOff(cfg, SetupOver(cfg, s, id, m, env), s.next, id, env(4));
  }
}
