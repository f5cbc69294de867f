/** The consumer's loop: which registration messages it ever gets done with, and that it drains a queue
    of them once the failures of its dependencies have come to an end. */
module Consumer {
  import opened Wrappers
  import opened Store
  import opened Invariant
  import opened Machine
  import opened Safety
  import opened Serial
  import opened SingleUse
  import opened MfaTokens
  import opened Effects
  import B = Backend
  import Email
  import Handlers
  import Worker

  // ---------- Where a delivered message ends up ----------

  predicate SameQueue(a: Shared, b: Shared) {
    a.accepted == b.accepted && a.ready == b.ready && a.unacked == b.unacked && a.acked == b.acked
  }

  lemma HandlingKeepsQueue(cfg: Config, sh: Shared, m: nat, h: Handlers.Pc, ch: Choice)
    ensures var (t, q) := Advance(cfg, sh, Handling(m, h), ch); SameQueue(sh, t) && Holds(q) == Some(m)
  {
  }

  lemma SettlingMoves(cfg: Config, sh: Shared, m: nat, result: Outcome, ch: Choice)
    ensures var (t, q) := Advance(cfg, sh, Settling(m, result), ch);
            && q == Finished(result) && t.accepted == sh.accepted && t.unacked == sh.unacked - {m}
            && t.outbox == sh.outbox
            && (if result.Success? then t.acked == sh.acked + {m} && t.ready == sh.ready
                else t.ready == sh.ready + {m} && t.acked == sh.acked)
            && t.users == sh.users
  {
  }

  predicate Moved(before: Shared, after: Shared, m: nat, result: Outcome) {
    && after.accepted == before.accepted && after.unacked == before.unacked - {m}
    && (if result.Success? then after.acked == before.acked + {m} && after.ready == before.ready
        else after.ready == before.ready + {m} && after.acked == before.acked)
  }

  lemma {:induction false} HolderSettles(cfg: Config, sh: Shared, m: nat, p: Proc, env: Env, n: nat)
    requires Holds(p) == Some(m)
    ensures var end := Finish(cfg, sh, p, env, n); Moved(sh, end.sh, m, end.outcome) && end.n > n
    decreases Stage(p), Left(p)
  {
    hide Advance;
    var (t, q) := Advance(cfg, sh, p, env(n));
    if p.Settling? {
      SettlingMoves(cfg, sh, m, p.result, env(n));
    } else {
      HandlingKeepsQueue(cfg, sh, m, p.h, env(n));
      HolderSettles(cfg, t, m, q, env, n + 1);
    }
  }

  /** However its handler goes, a delivered message is done if the handler returned without error, and
      back in the queue otherwise; no other message moves. */
  lemma DeliverySettles(cfg: Config, sh: Shared, m: nat, env: Env, n: nat)
    requires m in sh.ready && m < |sh.accepted| && sh.ready !! sh.unacked
    ensures var end := Do(cfg, sh, Delivery(m), env, n);
            && end.sh.accepted == sh.accepted && end.sh.unacked == sh.unacked && end.n > n
            && (if end.outcome.Success? then end.sh.acked == sh.acked + {m} && end.sh.ready == sh.ready - {m}
                else end.sh.ready == sh.ready && end.sh.acked == sh.acked)
  {
    hide Finish;
    var (t, p) := Launch(cfg, sh, Delivery(m));
    HolderSettles(cfg, t, m, p, env, n);
    assert sh.ready - {m} + {m} == sh.ready && sh.unacked + {m} - {m} == sh.unacked;
  }

  /** A message with an unknown key is dropped, and one whose text does not decode comes back; neither
      changes a user. */
  lemma NotHandled(cfg: Config, sh: Shared, m: nat, env: Env, n: nat)
    requires m in sh.ready && m < |sh.accepted| && sh.ready !! sh.unacked && m !in sh.acked
    requires cfg.topology.JobOf(sh.accepted[m].event).Unknown? || sh.accepted[m].payload.Malformed?
    ensures var end := Do(cfg, sh, Delivery(m), env, n);
            && (m in end.sh.acked <==> cfg.topology.JobOf(sh.accepted[m].event).Unknown?)
            && (m in end.sh.ready <==> !cfg.topology.JobOf(sh.accepted[m].event).Unknown?)
            && end.sh.users == sh.users
  {
    hide Advance;
    var (t, p) := Launch(cfg, sh, Delivery(m));
    SettlingMoves(cfg, t, m, p.result, env(n));
    var (t1, q1) := Advance(cfg, t, p, env(n));
    assert Do(cfg, sh, Delivery(m), env, n) == Finish(cfg, t, p, env, n) == Finish(cfg, t1, q1, env, n + 1);
  }

  lemma Parted(cfg: Config, sh: Shared)
    requires ShOk(cfg, sh)
    ensures sh.ready !! sh.unacked !! sh.acked
    ensures forall m :: m in sh.ready ==> m < |sh.accepted|
  {
    assert forall m :: m in sh.ready ==> m in Routed(cfg, sh);
  }

  // ---------- Registration messages ----------

  /** The address and password of a registration that can be stored. */
  predicate Storable(email: string, password: string) {
    password != "" && |email| <= 255
  }

  lemma RegistrationFinds(cfg: Config, sh: Shared, m: nat, email: string, password: string, ch: Choice)
    requires ShOk(cfg, sh) && Email.FixesEmails(cfg.normalise)
    ensures var (t, q) := Advance(cfg, sh, Handling(m, Handlers.RegistrationFind(email, password)), ch);
            t == Later(sh, ch)
            && (q == Settling(m, Success(Nothing)) || q == Settling(m, Failure(Dependency))
                || q == Handling(m, Handlers.RegistrationHash(email, password)))
            && (!EmailTaken(sh.users, email) ==> q != Settling(m, Success(Nothing)))
            && (ch.fault.Fine? ==> if EmailTaken(sh.users, email) then q == Settling(m, Success(Nothing))
                                   else q == Handling(m, Handlers.RegistrationHash(email, password)))
  {
    hide ShOk;
    LaterOk(cfg, sh, ch);
    FindOk(cfg, Later(sh, ch), FindByEmail(email), ch);
  }

  lemma RegistrationHashes(cfg: Config, sh: Shared, m: nat, email: string, password: string, ch: Choice)
    ensures var (t, q) := Advance(cfg, sh, Handling(m, Handlers.RegistrationHash(email, password)), ch);
            var hash := cfg.hash(password, ch.salt);
            t == Later(sh, ch)
            && (q == Settling(m, Failure(Dependency))
                || (q == Handling(m, Handlers.RegistrationSave(email, hash)) && password != ""))
            && (ch.fault.Fine? && password != "" && hash != "" ==>
                q == Handling(m, Handlers.RegistrationSave(email, hash)))
  {
  }

  lemma RegistrationSaves(cfg: Config, sh: Shared, m: nat, email: string, hash: string, ch: Choice)
    requires !EmailTaken(sh.users, email)
    ensures var (t, q) := Advance(cfg, sh, Handling(m, Handlers.RegistrationSave(email, hash)), ch);
            && (q == Settling(m, Success(Nothing)) || q == Settling(m, Failure(Dependency)))
            && (q == Settling(m, Success(Nothing)) ==> |email| <= 255)
            && (ch.fault.Fine? && ch.random !in sh.users && |email| <= 255 ==>
                q == Settling(m, Success(Nothing)))
  {
  }

  lemma SettlesWith(cfg: Config, sh: Shared, m: nat, result: Outcome, env: Env, n: nat)
    ensures Finish(cfg, sh, Settling(m, result), env, n).outcome == result
  {
    hide Advance;
    var (t, q) := Advance(cfg, sh, Settling(m, result), env(n));
    SettlingMoves(cfg, sh, m, result, env(n));
    assert Finish(cfg, sh, Settling(m, result), env, n) == Finish(cfg, t, q, env, n + 1);
  }

  lemma SaveOutcome(cfg: Config, sh: Shared, m: nat, email: string, hash: string, env: Env, n: nat)
    requires !EmailTaken(sh.users, email)
    ensures var end := Finish(cfg, sh, Handling(m, Handlers.RegistrationSave(email, hash)), env, n);
            && (end.outcome.Success? ==> |email| <= 255)
            && (env(n).fault.Fine? && env(n).random !in sh.users && |email| <= 255 ==> end.outcome.Success?)
  {
    hide Advance;
    var p := Handling(m, Handlers.RegistrationSave(email, hash));
    var (t, q) := Advance(cfg, sh, p, env(n));
    RegistrationSaves(cfg, sh, m, email, hash, env(n));
    assert Finish(cfg, sh, p, env, n) == Finish(cfg, t, q, env, n + 1);
    SettlesWith(cfg, t, m, q.result, env, n + 1);
  }

  lemma HashOutcome(cfg: Config, sh: Shared, m: nat, email: string, password: string, env: Env, n: nat)
    requires !EmailTaken(sh.users, email)
    ensures var end := Finish(cfg, sh, Handling(m, Handlers.RegistrationHash(email, password)), env, n);
            && (end.outcome.Success? ==> Storable(email, password))
            && (NoFaults(env, n, 2) && cfg.hash(password, env(n).salt) != "" && env(n + 1).random !in sh.users ==>
                  Storable(email, password) ==> end.outcome.Success?)
  {
    hide Advance;
    var p := Handling(m, Handlers.RegistrationHash(email, password));
    var (t, q) := Advance(cfg, sh, p, env(n));
    RegistrationHashes(cfg, sh, m, email, password, env(n));
    assert Finish(cfg, sh, p, env, n) == Finish(cfg, t, q, env, n + 1);
    if q.Settling? {
      SettlesWith(cfg, t, m, q.result, env, n + 1);
    } else {
      SaveOutcome(cfg, t, m, email, q.h.hash, env, n + 1);
    }
  }

  lemma FindOutcome(cfg: Config, sh: Shared, m: nat, email: string, password: string, env: Env, n: nat)
    requires ShOk(cfg, sh) && Email.FixesEmails(cfg.normalise)
    ensures var end := Finish(cfg, sh, Handling(m, Handlers.RegistrationFind(email, password)), env, n);
            && (end.outcome.Success? ==> EmailTaken(sh.users, email) || Storable(email, password))
            && (NoFaults(env, n, 3) && cfg.hash(password, env(n + 1).salt) != "" && env(n + 2).random !in sh.users ==>
                  EmailTaken(sh.users, email) || Storable(email, password) ==> end.outcome.Success?)
  {
    hide Advance, ShOk, EmailTaken, Storable;
    var p := Handling(m, Handlers.RegistrationFind(email, password));
    var (t, q) := Advance(cfg, sh, p, env(n));
    RegistrationFinds(cfg, sh, m, email, password, env(n));
    assert Finish(cfg, sh, p, env, n) == Finish(cfg, t, q, env, n + 1);
    if q.Settling? {
      SettlesWith(cfg, t, m, q.result, env, n + 1);
    } else if !EmailTaken(sh.users, email) {
      HashOutcome(cfg, t, m, email, password, env, n + 1);
    } else {
      assert !env(n).fault.Fine?;
    }
  }

  /** A registration that its handler can get done with: the address is not valid and is dropped, it is
      registered already, or the row can be stored. */
  ghost predicate CanBeDone(cfg: Config, sh: Shared, m: Message) {
    m.payload.Json?
    && match AddressOf(cfg, m)
       case Err(_) => true
       case Ok(email) => EmailTaken(sh.users, email) || Storable(email, m.payload.password)
  }

  /** A message whose text does not decode, or that asks for a new user with an empty password or too
      long an address, is never done with, whatever happens: every delivery puts it back. */
  lemma OthersComeBack(cfg: Config, sh: Shared, m: nat, env: Env, n: nat)
    requires ShOk(cfg, sh) && Email.FixesEmails(cfg.normalise)
    requires m in sh.ready && m < |sh.accepted| && cfg.topology.JobOf(sh.accepted[m].event).Registration?
    requires !CanBeDone(cfg, sh, sh.accepted[m])
    ensures var end := Do(cfg, sh, Delivery(m), env, n);
            end.outcome.Failure? && m in end.sh.ready && m !in end.sh.acked
  {
    hide Finish, ShOk;
    var d := sh.accepted[m];
    var (t, p) := Launch(cfg, sh, Delivery(m));
    Parted(cfg, sh);
    MoveOk(cfg, sh, t);
    DeliverySettles(cfg, sh, m, env, n);
    if d.payload.Json? && AddressOf(cfg, d).Ok? {
      FindOutcome(cfg, t, m, AddressOf(cfg, d).value, d.payload.password, env, n);
    } else {
      SettlesWith(cfg, t, m, p.result, env, n);
    }
  }

  lemma DeliveryOutcome(cfg: Config, sh: Shared, m: nat, env: Env, n: nat)
    requires ShOk(cfg, sh) && Email.FixesEmails(cfg.normalise)
    requires m in sh.ready && m < |sh.accepted| && cfg.topology.JobOf(sh.accepted[m].event).Registration?
    requires CanBeDone(cfg, sh, sh.accepted[m])
    requires NoFaults(env, n, 3) && env(n + 2).random !in sh.users
    requires cfg.hash(sh.accepted[m].payload.password, env(n + 1).salt) != ""
    ensures Do(cfg, sh, Delivery(m), env, n).outcome.Success?
  {
    hide Finish, ShOk;
    var d := sh.accepted[m];
    var (t, p) := Launch(cfg, sh, Delivery(m));
    Parted(cfg, sh);
    MoveOk(cfg, sh, t);
    if AddressOf(cfg, d).Ok? {
      FindOutcome(cfg, t, m, AddressOf(cfg, d).value, d.payload.password, env, n);
    } else {
      SettlesWith(cfg, t, m, p.result, env, n);
    }
  }

  /** Without faults, the delivery of a registration message is acknowledged exactly when its text decodes
      and its address is invalid, or registered, or can be stored with its password. */
  lemma AcknowledgedExactlyWhen(cfg: Config, sh: Shared, m: nat, env: Env, n: nat)
    requires ShOk(cfg, sh) && Email.FixesEmails(cfg.normalise)
    requires m in sh.ready && m < |sh.accepted| && cfg.topology.JobOf(sh.accepted[m].event).Registration?
    requires NoFaults(env, n, 3) && env(n + 2).random !in sh.users
    requires sh.accepted[m].payload.Json? ==> cfg.hash(sh.accepted[m].payload.password, env(n + 1).salt) != ""
    ensures m in Do(cfg, sh, Delivery(m), env, n).sh.acked <==> CanBeDone(cfg, sh, sh.accepted[m])
  {
    hide Do, ShOk, CanBeDone;
    Parted(cfg, sh);
    DeliverySettles(cfg, sh, m, env, n);
    if CanBeDone(cfg, sh, sh.accepted[m]) {
      assert sh.accepted[m].payload.Json? by { DoneDecodes(cfg, sh, sh.accepted[m]); }
      DeliveryOutcome(cfg, sh, m, env, n);
    } else {
      OthersComeBack(cfg, sh, m, env, n);
    }
  }

  lemma DoneDecodes(cfg: Config, sh: Shared, m: Message)
    requires CanBeDone(cfg, sh, m)
    ensures m.payload.Json?
  {
  }

  // ---------- Draining the queue ----------

  /** Every stored user was given an identifier generated earlier. */
  ghost predicate IdsIssued(sh: Shared, env: Env, n: nat) {
    forall id :: id in sh.users ==> GeneratedBefore(env, n, id)
  }

  ghost function AllIdsIssued(env: Env): Property {
    (sh: Shared, n: nat) => IdsIssued(sh, env, n)
  }

  lemma UsersAfter(cfg: Config, sh: Shared, op: Op, ch: Choice)
    ensures forall id :: id in Exec(cfg, sh, op, ch).0.users ==> id in sh.users || id == ch.random
  {
    if !op.Save? && !op.Update? && !op.UpdateRoles? {
      hide Exec;
      UsersUnchanged(cfg, sh, op, ch);
    }
  }

  lemma IdsStay(cfg: Config, sh: Shared, p: Proc, env: Env, n: nat)
    requires !p.Finished? && IdsIssued(sh, env, n)
    ensures IdsIssued(Advance(cfg, sh, p, env(n)).0, env, n + 1)
  {
    hide Exec;
    var t := Advance(cfg, sh, p, env(n)).0;
    UsersAfter(cfg, sh, NextOp(p), env(n));
    forall id | id in t.users
      ensures GeneratedBefore(env, n + 1, id)
    {
      if id in sh.users {
        GeneratedLater(env, n, n + 1, id);
      }
    }
  }

  lemma LaunchKeepsUsers(cfg: Config, sh: Shared, job: Job)
    ensures Launch(cfg, sh, job).0.users == sh.users
  {
  }

  lemma DoKeepsIds(cfg: Config, sh: Shared, job: Job, env: Env, n: nat)
    requires IdsIssued(sh, env, n)
    ensures var end := Do(cfg, sh, job, env, n); IdsIssued(end.sh, env, end.n)
  {
    hide Advance, Finish, Launch;
    forall sh: Shared, p: Proc, m: nat | !p.Finished? && IdsIssued(sh, env, m)
      ensures IdsIssued(Advance(cfg, sh, p, env(m)).0, env, m + 1)
    {
      IdsStay(cfg, sh, p, env, m);
    }
    forall sh: Shared, job: Job
      ensures Launch(cfg, sh, job).0.users == sh.users
    {
      LaunchKeepsUsers(cfg, sh, job);
    }
    var (t, p) := Launch(cfg, sh, job);
    FinishKeeps(cfg, t, p, env, n, AllIdsIssued(env));
  }

  /** What the queue has to hold so that it can be drained: registrations that the handler can get done
      with whoever else is registered. */
  ghost predicate Drainable(cfg: Config, m: Message) {
    IsRegistration(cfg, m) && (AddressOf(cfg, m).Ok? ==> Storable(AddressOf(cfg, m).value, m.payload.password))
  }

  /** The dependencies fail no more from the operation `quiet` on, generated identifiers do not repeat,
      and the hashing service answers a password with a hash. */
  ghost predicate SettlesDown(cfg: Config, env: Env, quiet: nat) {
    && NoRepeats(env)
    && (forall i :: quiet <= i ==> env(i).fault.Fine?)
    && (forall password, salt :: password != "" ==> cfg.hash(password, salt) != "")
  }

  ghost predicate Draining(cfg: Config, sh: Shared, env: Env, n: nat) {
    && ShOk(cfg, sh) && Email.FixesEmails(cfg.normalise) && IdsIssued(sh, env, n)
    && forall m :: m in sh.ready ==> m < |sh.accepted| && Drainable(cfg, sh.accepted[m])
  }

  lemma NewIdIsFree(sh: Shared, env: Env, n: nat, i: nat)
    requires NoRepeats(env) && IdsIssued(sh, env, n) && i >= n
    ensures env(i).random !in sh.users
  {
    if env(i).random in sh.users {
      NeverBefore(env, n, i);
    }
  }

  lemma NeverBefore(env: Env, n: nat, i: nat)
    requires NoRepeats(env) && i >= n
    ensures !GeneratedBefore(env, n, env(i).random)
  {
    forall j: nat | j < n
      ensures env(j).random != env(i).random
    {
      assert Differ(env, j, i);
    }
  }

  /** Once the failures are over, a delivery gets its message done. */
  lemma QuietDelivery(cfg: Config, sh: Shared, env: Env, n: nat, m: nat, quiet: nat)
    requires Draining(cfg, sh, env, n) && SettlesDown(cfg, env, quiet) && n >= quiet && m in sh.ready
    ensures Do(cfg, sh, Delivery(m), env, n).outcome.Success?
  {
    hide Do, ShOk, IdsIssued, EmailTaken;
    NewIdIsFree(sh, env, n, n + 2);
    var d := sh.accepted[m];
    if d.payload.password == "" {
      Dropped(cfg, sh, m, env, n);
    } else {
      DeliveryOutcome(cfg, sh, m, env, n);
    }
  }

  lemma Dropped(cfg: Config, sh: Shared, m: nat, env: Env, n: nat)
    requires m in sh.ready && m < |sh.accepted| && IsRegistration(cfg, sh.accepted[m])
        && AddressOf(cfg, sh.accepted[m]).Err?
    ensures Do(cfg, sh, Delivery(m), env, n).outcome.Success?
  {
    hide Finish;
    var (t, p) := Launch(cfg, sh, Delivery(m));
    SettlesWith(cfg, t, m, p.result, env, n);
  }

  lemma DeliveryKeepsDraining(cfg: Config, sh: Shared, env: Env, n: nat, m: nat)
    requires Draining(cfg, sh, env, n) && m in sh.ready
    ensures var end := Do(cfg, sh, Delivery(m), env, n);
            Draining(cfg, end.sh, env, end.n) && Grows(sh, end.sh)
  {
    hide Do, ShOk, IdsIssued, Drainable;
    DoOk(cfg, sh, Delivery(m), env, n);
    DoKeepsIds(cfg, sh, Delivery(m), env, n);
    Parted(cfg, sh);
    DeliverySettles(cfg, sh, m, env, n);
  }

  // ---------- What a drained queue leaves ----------

  predicate OnEmail(h: Handlers.Pc, email: string) {
    (h.RegistrationFind? || h.RegistrationHash? || h.RegistrationSave?) && h.email == email
  }

  lemma HandlingRegisters(cfg: Config, sh: Shared, m: nat, h: Handlers.Pc, ch: Choice, email: string)
    requires OnEmail(h, email)
    ensures var (t, q) := Advance(cfg, sh, Handling(m, h), ch);
            && (q.Settling? && q.result.Success? ==> EmailTaken(t.users, email))
            && (q.Handling? ==> OnEmail(q.h, email))
  {
    hide Exec, EmailTaken;
    SuccessMeansTaken(cfg, sh, Handlers.NextOp(h), ch);
  }

  lemma {:induction false} FinishRegisters(cfg: Config, sh: Shared, m: nat, p: Proc, env: Env, n: nat, email: string)
    requires Holds(p) == Some(m)
    requires if p.Handling? then OnEmail(p.h, email) else p.result.Success? ==> EmailTaken(sh.users, email)
    ensures var end := Finish(cfg, sh, p, env, n); end.outcome.Success? ==> EmailTaken(end.sh.users, email)
    decreases Stage(p), Left(p)
  {
    hide Advance, EmailTaken;
    var (t, q) := Advance(cfg, sh, p, env(n));
    if p.Settling? {
      SettlingMoves(cfg, sh, m, p.result, env(n));
    } else {
      HandlingKeepsQueue(cfg, sh, m, p.h, env(n));
      HandlingRegisters(cfg, sh, m, p.h, env(n), email);
      FinishRegisters(cfg, t, m, q, env, n + 1, email);
    }
  }

  lemma DeliveryRegisters(cfg: Config, sh: Shared, m: nat, env: Env, n: nat)
    requires m in sh.ready && m < |sh.accepted|
    ensures var end := Do(cfg, sh, Delivery(m), env, n);
            end.outcome.Success? ==> RegistrationDone(cfg, end.sh, sh.accepted[m])
  {
    hide Finish, EmailTaken;
    var d := sh.accepted[m];
    if IsRegistration(cfg, d) && AddressOf(cfg, d).Ok? {
      var (t, p) := Launch(cfg, sh, Delivery(m));
      FinishRegisters(cfg, t, m, p, env, n, AddressOf(cfg, d).value);
    }
  }

  ghost predicate AllDone(cfg: Config, sh: Shared, messages: set<nat>) {
    forall m :: m in messages ==> m < |sh.accepted| && RegistrationDone(cfg, sh, sh.accepted[m])
  }

  lemma AllStayDone(cfg: Config, a: Shared, b: Shared, messages: set<nat>)
    requires Grows(a, b) && AllDone(cfg, a, messages)
    ensures AllDone(cfg, b, messages)
  {
    hide RegistrationDone;
    forall m | m in messages
      ensures RegistrationDone(cfg, b, b.accepted[m])
    {
      DoneStays(cfg, a, b, a.accepted[m]);
    }
  }

  /** One more message done. */
  lemma DoneByDelivery(cfg: Config, sh: Shared, m: nat, env: Env, n: nat, all: set<nat>)
    requires m in sh.ready && m < |sh.accepted| && sh.ready !! sh.unacked && AllDone(cfg, sh, all - sh.ready)
    requires Grows(sh, Do(cfg, sh, Delivery(m), env, n).sh)
    ensures var end := Do(cfg, sh, Delivery(m), env, n); AllDone(cfg, end.sh, all - end.sh.ready)
  {
    hide Do, RegistrationDone;
    DeliverySettles(cfg, sh, m, env, n);
    DeliveryRegisters(cfg, sh, m, env, n);
    AllStayDone(cfg, sh, Do(cfg, sh, Delivery(m), env, n).sh, all - sh.ready);
  }

  /** The consumer's loop on a queue that nothing is added to. It ends: each round either uses up some of
      the operations that may fail, or gets a message done. Then exactly the messages that waited have
      been acknowledged, and each valid address among them is that of a stored user. */
  method Consume(b: B.Backend, ghost quiet: nat)
    requires b.Valid() && Draining(b.cfg, b.View(), b.env, b.n) && SettlesDown(b.cfg, b.env, quiet)
    modifies b
    ensures b.Valid() && Draining(b.cfg, b.View(), b.env, b.n)
    ensures b.ready == {} && b.acked == old(b.acked + b.ready) && b.unacked == old(b.unacked)
    ensures b.accepted == old(b.accepted) && Grows(old(b.View()), b.View())
    ensures AllDone(b.cfg, b.View(), old(b.ready))
  {
    hide Do, Draining, SettlesDown, AllDone;
    NoneYet(b.cfg, b.View());
    GrowsItself(b.View());
    while b.ready != {}
      invariant b.Valid() && Draining(b.cfg, b.View(), b.env, b.n)
      invariant b.acked + b.ready == old(b.acked + b.ready) && b.unacked == old(b.unacked)
      invariant b.accepted == old(b.accepted) && Grows(old(b.View()), b.View())
      invariant AllDone(b.cfg, b.View(), old(b.ready) - b.ready)
      decreases if b.n < quiet then quiet - b.n else 0, |b.ready|
    {
      ghost var before, n := b.View(), b.n;
      var m :| m in b.ready;
      DrainingQueue(b.cfg, before, b.env, n, m);
      DeliverySettles(b.cfg, before, m, b.env, n);
      DeliveryKeepsDraining(b.cfg, before, b.env, n, m);
      DoneByDelivery(b.cfg, before, m, b.env, n, old(b.ready));
      if n >= quiet {
        QuietDelivery(b.cfg, before, b.env, n, m, quiet);
      }
      var out := Worker.Deliver(b, m);
      GrowsTransitive(old(b.View()), before, b.View());
    }
    assert old(b.ready) - b.ready == old(b.ready);
  }

  lemma NoneYet(cfg: Config, sh: Shared)
    ensures AllDone(cfg, sh, sh.ready - sh.ready)
  {
  }

  lemma GrowsItself(sh: Shared)
    ensures Grows(sh, sh)
  {
  }

  lemma DrainingQueue(cfg: Config, sh: Shared, env: Env, n: nat, m: nat)
    requires Draining(cfg, sh, env, n) && m in sh.ready
    ensures m < |sh.accepted| && sh.ready !! sh.unacked !! sh.acked
  {
    hide ShOk;
    Parted(cfg, sh);
  }
}
