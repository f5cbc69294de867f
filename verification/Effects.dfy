/** What is left in the tables and the queue by whole runs: the roles column, and the registration
    messages that were acknowledged or lost a race. */
module Effects {
  import opened Wrappers
  import opened Users
  import opened Store
  import opened Invariant
  import opened Machine
  import opened Safety
  import opened History
  import Email
  import Handlers

  // ---------- The roles column ----------

  /** The event wrote the roles of a user. */
  predicate WritesRoles(e: Event, id: Id) {
    TookEffect(e) && e.pc.Handling? && e.pc.h.RolesWrite? && e.pc.h.userId == id && e.pc.h.roles.Some?
  }

  /** The roles that the last write of the log left, or the column's default. */
  function LastRoles(log: Log, id: Id): seq<string> {
    if log == [] then ["user"]
    else
      var e := log[|log| - 1];
      if WritesRoles(e, id) then e.pc.h.roles.value else LastRoles(log[..|log| - 1], id)
  }

  ghost function RolesColumn(users: UserTable, id: Id): seq<string> {
    if id in users then users[id].roles else ["user"]
  }

  ghost predicate RolesOk(s: State) {
    forall id :: RolesColumn(s.sh.users, id) == LastRoles(s.log, id)
  }

  /** Of all operations, only `UpdateRoles` changes the column: in particular `Update`, which may write
      back a user loaded long before, does not. */
  lemma RolesAfter(cfg: Config, sh: Shared, op: Op, ch: Choice, id: Id)
    requires op.UpdateRoles? ==> op.id in sh.users
    ensures var t := Exec(cfg, sh, op, ch).0;
            RolesColumn(t.users, id)
              == (if op.UpdateRoles? && op.id == id && op.roles.Some? && ch.fault != Lost then op.roles.value
                  else RolesColumn(sh.users, id))
  {
    if !op.Save? && !op.Update? && !op.UpdateRoles? {
      hide Exec;
      UsersUnchanged(cfg, sh, op, ch);
    }
  }

  lemma RolesStep(cfg: Config, s: State, pid: Pid, ch: Choice)
    requires RolesOk(s) && pid in s.procs && !s.procs[pid].Finished? && ProcOk(cfg, s.sh, s.procs[pid])
    ensures RolesOk(RunProc(cfg, s, pid, ch))
  {
    var t := RunProc(cfg, s, pid, ch);
    var p, e := s.procs[pid], StepEvent(cfg, s, pid, ch);
    assert t.log == s.log + [e] && t.log[..|s.log|] == s.log;
    assert NextOp(p).UpdateRoles? <==> p.Handling? && p.h.RolesWrite?;
    forall id
      ensures RolesColumn(t.sh.users, id) == LastRoles(t.log, id)
    {
      RolesAfter(cfg, s.sh, NextOp(p), ch, id);
    }
  }

  lemma {:induction false} RolesAlwaysOk(cfg: Config, run: seq<Action>)
    requires Email.FixesEmails(cfg.normalise)
    ensures RolesOk(After(cfg, run))
  {
    if run != [] {
      var s, a := After(cfg, run[..|run| - 1]), run[|run| - 1];
      RolesAlwaysOk(cfg, run[..|run| - 1]);
      if a.Run? && a.pid in s.procs && !s.procs[a.pid].Finished? {
        Sound(cfg, run[..|run| - 1]);
        RolesStep(cfg, s, a.pid, a.choice);
      }
    }
  }

  /** In every run, however stale loads and later writes interleave, each stored user's roles are those
      of the last roles write for it, or the default. */
  lemma RoleWritesNeverLost(cfg: Config, run: seq<Action>, id: Id)
    requires Email.FixesEmails(cfg.normalise) && id in After(cfg, run).sh.users
    ensures After(cfg, run).sh.users[id].roles == LastRoles(After(cfg, run).log, id)
  {
    RolesAlwaysOk(cfg, run);
    assert RolesColumn(After(cfg, run).sh.users, id) == LastRoles(After(cfg, run).log, id);
  }

  // ---------- Acknowledgements ----------

  /** The log shows the message settled after its handler succeeded. */
  ghost predicate Acknowledged(log: Log, m: nat) {
    exists j :: 0 <= j < |log| && log[j].pc.Settling? && log[j].pc.message == m && log[j].pc.result.Success?
  }

  ghost predicate AcksOk(s: State) {
    forall m :: m in s.sh.acked <==> Acknowledged(s.log, m)
  }

  lemma AckedAfter(cfg: Config, sh: Shared, op: Op, ch: Choice)
    ensures Exec(cfg, sh, op, ch).0.acked == if op.Ack? then sh.acked + {op.message} else sh.acked
  {
  }

  lemma AcksStep(cfg: Config, s: State, pid: Pid, ch: Choice)
    requires AcksOk(s) && pid in s.procs && !s.procs[pid].Finished?
    ensures AcksOk(RunProc(cfg, s, pid, ch))
  {
    var t := RunProc(cfg, s, pid, ch);
    var p, e := s.procs[pid], StepEvent(cfg, s, pid, ch);
    AckedAfter(cfg, s.sh, NextOp(p), ch);
    assert NextOp(p).Ack? <==> p.Settling? && p.result.Success?;
    assert t.log == s.log + [e] && t.log[|s.log|] == e;
    forall m
      ensures m in t.sh.acked <==> Acknowledged(t.log, m)
    {
      if Acknowledged(s.log, m) {
        var j :| 0 <= j < |s.log| && s.log[j].pc.Settling? && s.log[j].pc.message == m && s.log[j].pc.result.Success?;
        assert t.log[j] == s.log[j];
      }
    }
  }

  lemma {:induction false} AcksLogged(cfg: Config, run: seq<Action>)
    ensures AcksOk(After(cfg, run))
  {
    if run != [] {
      var s, a := After(cfg, run[..|run| - 1]), run[|run| - 1];
      AcksLogged(cfg, run[..|run| - 1]);
      if a.Run? && a.pid in s.procs && !s.procs[a.pid].Finished? {
        AcksStep(cfg, s, a.pid, a.choice);
      }
    }
  }

  /** The event is the last operation of a handler of the message, which returns this result. */
  predicate ReturnsAt(e: Event, m: nat, result: Outcome) {
    e.pc.Handling? && e.pc.message == m && Handlers.Resume(e.pc.h, e.reply, e.at) == Return(result)
  }

  /** A handler of the message returned this result in this process: at once when it was dispatched, or after
      an operation that the log shows. */
  ghost predicate HandlerReturned(cfg: Config, sh: Shared, log: Log, pid: Pid, m: nat, result: Outcome) {
    && m < |sh.accepted|
    && (|| Handlers.Handle(cfg, sh.accepted[m]) == Return(result)
        || exists i :: 0 <= i < |log| && log[i].pid == pid && ReturnsAt(log[i], m, result))
  }

  ghost predicate SettlerOk(cfg: Config, sh: Shared, log: Log, pid: Pid, p: Proc) {
    p.Settling? ==> HandlerReturned(cfg, sh, log, pid, p.message, p.result)
  }

  /** Every process that settles a message, now or earlier in the log, had its handler's result. */
  ghost predicate SettlersOk(cfg: Config, s: State) {
    && (forall p :: p in s.procs ==> SettlerOk(cfg, s.sh, s.log, p, s.procs[p]))
    && (forall j :: 0 <= j < |s.log| ==> SettlerOk(cfg, s.sh, s.log[..j], s.log[j].pid, s.log[j].pc))
  }

  lemma SettlerStays(cfg: Config, a: Shared, b: Shared, log: Log, more: Log, pid: Pid, p: Proc)
    requires SettlerOk(cfg, a, log, pid, p) && a.accepted <= b.accepted
    ensures SettlerOk(cfg, b, log + more, pid, p)
  {
    if p.Settling? && Handlers.Handle(cfg, a.accepted[p.message]) != Return(p.result) {
      var i :| 0 <= i < |log| && log[i].pid == pid && ReturnsAt(log[i], p.message, p.result);
      assert (log + more)[i] == log[i];
    }
  }

  lemma RunnerSettles(cfg: Config, s: State, pid: Pid, ch: Choice)
    requires pid in s.procs && !s.procs[pid].Finished?
    requires s.procs[pid].Handling? ==> s.procs[pid].message < |s.sh.accepted|
    requires s.sh.accepted <= RunProc(cfg, s, pid, ch).sh.accepted
    ensures var t := RunProc(cfg, s, pid, ch); SettlerOk(cfg, t.sh, t.log, pid, t.procs[pid])
  {
    hide Exec;
    var p, e, t := s.procs[pid], StepEvent(cfg, s, pid, ch), RunProc(cfg, s, pid, ch);
    assert t.log[|s.log|] == e;
    if p.Handling? {
      assert t.procs[pid].Settling? ==> ReturnsAt(t.log[|s.log|], p.message, t.procs[pid].result);
    } else if !p.Settling? {
      HoldsNothingNew(cfg, p, e.reply, e.at);
    }
  }

  lemma SettlersStep(cfg: Config, s: State, pid: Pid, ch: Choice)
    requires SettlersOk(cfg, s) && pid in s.procs && !s.procs[pid].Finished?
    requires s.procs[pid].Handling? ==> s.procs[pid].message < |s.sh.accepted|
    requires s.sh.accepted <= RunProc(cfg, s, pid, ch).sh.accepted
    ensures SettlersOk(cfg, RunProc(cfg, s, pid, ch))
  {
    hide Exec, SettlerOk;
    var t, e := RunProc(cfg, s, pid, ch), StepEvent(cfg, s, pid, ch);
    RunnerSettles(cfg, s, pid, ch);
    assert t.log == s.log + [e];
    forall p | p in t.procs && p != pid
      ensures SettlerOk(cfg, t.sh, t.log, p, t.procs[p])
    {
      SettlerStays(cfg, s.sh, t.sh, s.log, [e], p, s.procs[p]);
    }
    forall j | 0 <= j < |t.log|
      ensures SettlerOk(cfg, t.sh, t.log[..j], t.log[j].pid, t.log[j].pc)
    {
      var before := if j < |s.log| then s.log[..j] else s.log;
      SettlerStays(cfg, s.sh, t.sh, before, [], t.log[j].pid, t.log[j].pc);
      assert t.log[..j] == before + [];
    }
  }

  lemma SettlersOther(cfg: Config, s: State, a: Action)
    requires SettlersOk(cfg, s) && !a.Run?
    ensures SettlersOk(cfg, Apply(cfg, s, a))
  {
    hide HandlerReturned;
    var t := Apply(cfg, s, a);
    assert t.sh.accepted == s.sh.accepted && t.log == s.log;
    forall p, q: Proc, log: Log | SettlerOk(cfg, s.sh, log, p, q)
      ensures SettlerOk(cfg, t.sh, log, p, q)
    {
      SettlerStays(cfg, s.sh, t.sh, log, [], p, q);
      assert log + [] == log;
    }
    if a.Start? {
      BeginOk(cfg, s.sh, a.call);
    } else if a.Deliver? && a.message in s.sh.ready && a.message < |s.sh.accepted| {
      DispatchSettles(cfg, t.sh, t.log, s.next, a.message);
    }
  }

  lemma DispatchSettles(cfg: Config, sh: Shared, log: Log, pid: Pid, m: nat)
    requires m < |sh.accepted|
    ensures SettlerOk(cfg, sh, log, pid, OfHandler(m, Handlers.Handle(cfg, sh.accepted[m])))
  {
  }

  lemma {:induction false} SettlersAlwaysOk(cfg: Config, run: seq<Action>)
    requires Email.FixesEmails(cfg.normalise)
    ensures SettlersOk(cfg, After(cfg, run))
  {
    hide SettlersOk, Inv;
    if run == [] {
      NobodySettles(cfg);
    } else {
      var init, a := run[..|run| - 1], run[|run| - 1];
      var s := After(cfg, init);
      SettlersAlwaysOk(cfg, init);
      if !a.Run? {
        SettlersOther(cfg, s, a);
      } else if a.pid in s.procs && !s.procs[a.pid].Finished? {
        RegistrationsAlwaysOk(cfg, init);
        Sound(cfg, init);
        ApplyKeeps(cfg, s, a);
        SettlersStep(cfg, s, a.pid, a.choice);
      }
    }
  }

  lemma NobodySettles(cfg: Config)
    ensures SettlersOk(cfg, INIT)
  {
  }

  /** The log shows the message acknowledged by a process whose handler of it had returned without error. */
  ghost predicate DoneByHandler(cfg: Config, sh: Shared, log: Log, m: nat) {
    exists j :: 0 <= j < |log| && log[j].pc.Settling? && log[j].pc.message == m && log[j].pc.result.Success?
                && HandlerReturned(cfg, sh, log[..j], log[j].pid, m, log[j].pc.result)
  }

  /** In every run, a message is done exactly when some process's handler of it returned without error and
      that process then acknowledged it. */
  lemma AckedExactlyOnSuccess(cfg: Config, run: seq<Action>, m: nat)
    requires Email.FixesEmails(cfg.normalise)
    ensures m in After(cfg, run).sh.acked <==> DoneByHandler(cfg, After(cfg, run).sh, After(cfg, run).log, m)
  {
    hide After, HandlerReturned;
    var s := After(cfg, run);
    AcksLogged(cfg, run);
    SettlersAlwaysOk(cfg, run);
    if m in s.sh.acked {
      var j :| 0 <= j < |s.log| && s.log[j].pc.Settling? && s.log[j].pc.message == m && s.log[j].pc.result.Success?;
      assert SettlerOk(cfg, s.sh, s.log[..j], s.log[j].pid, s.log[j].pc);
    }
  }

  /** A process that dies after its handler returned, and before it acknowledged, leaves the message waiting. */
  lemma ReturnedButCrashed(cfg: Config, s: State, pid: Pid)
    requires pid in s.procs && s.procs[pid].Settling?
    ensures var t, m := Apply(cfg, s, Crash(pid)), s.procs[pid].message;
            m in t.sh.ready && m !in t.sh.unacked && t.sh.acked == s.sh.acked && SameTables(s.sh, t.sh)
  {
  }

  // ---------- Registration messages ----------

  predicate IsRegistration(cfg: Config, m: Message) {
    cfg.topology.JobOf(m.event).Registration? && m.payload.Json?
  }

  function AddressOf(cfg: Config, m: Message): Result<string, Email.Error>
    requires m.payload.Json?
  {
    Email.NewEmail(cfg.normalise, m.payload.email)
  }

  /** There is nothing left to do: the address is invalid, or is that of a stored user. */
  ghost predicate RegistrationDone(cfg: Config, sh: Shared, m: Message) {
    IsRegistration(cfg, m) ==> AddressOf(cfg, m).Err? || EmailTaken(sh.users, AddressOf(cfg, m).value)
  }

  /** A handler of a registration message works on the message's address. */
  ghost predicate OnAddress(cfg: Config, m: Message, h: Handlers.Pc) {
    IsRegistration(cfg, m) ==>
      && AddressOf(cfg, m).Ok?
      && (h.RegistrationFind? || h.RegistrationHash? || h.RegistrationSave?)
      && h.email == AddressOf(cfg, m).value
  }

  ghost predicate HandlerKnows(cfg: Config, sh: Shared, p: Proc) {
    match p
    case Handling(m, h) => m < |sh.accepted| && OnAddress(cfg, sh.accepted[m], h)
    case Settling(m, result) => m < |sh.accepted| && (result.Success? ==> RegistrationDone(cfg, sh, sh.accepted[m]))
    case _ => true
  }

  ghost predicate RegistrationsOk(cfg: Config, s: State) {
    && (forall m :: m in s.sh.acked ==> m < |s.sh.accepted| && RegistrationDone(cfg, s.sh, s.sh.accepted[m]))
    && (forall p :: p in s.procs ==> HandlerKnows(cfg, s.sh, s.procs[p]))
  }

  lemma TakenStays(a: UserTable, b: UserTable, email: string)
    requires TableGrows(a, b) && EmailTaken(a, email)
    ensures EmailTaken(b, email)
  {
    var id :| id in a && a[id].email == email;
    assert b[id].email == email;
  }

  lemma DoneStays(cfg: Config, a: Shared, b: Shared, m: Message)
    requires Grows(a, b) && RegistrationDone(cfg, a, m)
    ensures RegistrationDone(cfg, b, m)
  {
    if IsRegistration(cfg, m) && AddressOf(cfg, m).Ok? {
      TakenStays(a.users, b.users, AddressOf(cfg, m).value);
    }
  }

  lemma HandlerKnowsStays(cfg: Config, a: Shared, b: Shared, p: Proc)
    requires Grows(a, b) && HandlerKnows(cfg, a, p)
    ensures HandlerKnows(cfg, b, p)
  {
    if p.Settling? && p.result.Success? {
      DoneStays(cfg, a, b, a.accepted[p.message]);
    }
  }

  /** Answers that end a registration handler with success leave a user with that address. */
  lemma SuccessMeansTaken(cfg: Config, sh: Shared, op: Op, ch: Choice)
    ensures var (t, reply) := Exec(cfg, sh, op, ch);
            (op.FindByEmail? && reply.Found? ==> EmailTaken(t.users, op.email))
            && (op.Save? && reply.Done? ==> EmailTaken(t.users, op.email))
  {
    var (t, reply) := Exec(cfg, sh, op, ch);
    if op.Save? && reply.Done? {
      assert t.users[ch.random].email == op.email;
    }
  }

  lemma RunnerHandles(cfg: Config, s: State, pid: Pid, ch: Choice)
    requires pid in s.procs && !s.procs[pid].Finished? && HandlerKnows(cfg, s.sh, s.procs[pid])
    requires Grows(s.sh, RunProc(cfg, s, pid, ch).sh)
    ensures var t := RunProc(cfg, s, pid, ch); HandlerKnows(cfg, t.sh, t.procs[pid])
  {
    var p := s.procs[pid];
    if p.Handling? {
      SuccessMeansTaken(cfg, s.sh, NextOp(p), ch);
    } else if !p.Settling? {
      var e := StepEvent(cfg, s, pid, ch);
      HoldsNothingNew(cfg, p, e.reply, e.at);
    }
  }

  lemma HoldsNothingNew(cfg: Config, p: Proc, reply: Reply, now: Time)
    requires !p.Finished? && !p.Handling? && !p.Settling?
    ensures !Resume(cfg, p, reply, now).Handling? && !Resume(cfg, p, reply, now).Settling?
  {
  }

  lemma RegistrationsStep(cfg: Config, s: State, pid: Pid, ch: Choice)
    requires RegistrationsOk(cfg, s) && pid in s.procs && !s.procs[pid].Finished?
    requires Grows(s.sh, RunProc(cfg, s, pid, ch).sh)
    ensures RegistrationsOk(cfg, RunProc(cfg, s, pid, ch))
  {
    var t, p := RunProc(cfg, s, pid, ch), s.procs[pid];
    RunnerHandles(cfg, s, pid, ch);
    AckedAfter(cfg, s.sh, NextOp(p), ch);
    assert NextOp(p).Ack? ==> p.Settling? && p.result.Success? && NextOp(p).message == p.message;
    forall m | m in t.sh.acked
      ensures m < |t.sh.accepted| && RegistrationDone(cfg, t.sh, t.sh.accepted[m])
    {
      assert RegistrationDone(cfg, s.sh, s.sh.accepted[m]);
      DoneStays(cfg, s.sh, t.sh, s.sh.accepted[m]);
    }
    forall q | q in t.procs && q != pid
      ensures HandlerKnows(cfg, t.sh, t.procs[q])
    {
      HandlerKnowsStays(cfg, s.sh, t.sh, s.procs[q]);
    }
  }

  lemma NewProcessHandles(cfg: Config, sh: Shared, a: Action)
    requires a.Start? || (a.Deliver? && a.message < |sh.accepted|)
    ensures HandlerKnows(cfg, sh, if a.Start? then Begin(cfg, a.call)
                                  else OfHandler(a.message, Handlers.Handle(cfg, sh.accepted[a.message])))
  {
  }

  lemma RegistrationsOther(cfg: Config, s: State, a: Action)
    requires RegistrationsOk(cfg, s) && !a.Run? && Grows(s.sh, Apply(cfg, s, a).sh)
    ensures RegistrationsOk(cfg, Apply(cfg, s, a))
  {
    var t := Apply(cfg, s, a);
    if a.Start? || (a.Deliver? && a.message < |s.sh.accepted|) {
      NewProcessHandles(cfg, t.sh, a);
    }
    assert t.sh.accepted == s.sh.accepted && t.sh.users == s.sh.users && t.sh.acked == s.sh.acked;
    forall q | q in t.procs && q in s.procs && t.procs[q] == s.procs[q]
      ensures HandlerKnows(cfg, t.sh, t.procs[q])
    {
      HandlerKnowsStays(cfg, s.sh, t.sh, s.procs[q]);
    }
  }

  lemma {:induction false} RegistrationsAlwaysOk(cfg: Config, run: seq<Action>)
    requires Email.FixesEmails(cfg.normalise)
    ensures RegistrationsOk(cfg, After(cfg, run))
  {
    if run != [] {
      var s, a := After(cfg, run[..|run| - 1]), run[|run| - 1];
      RegistrationsAlwaysOk(cfg, run[..|run| - 1]);
      GrowsByOne(cfg, run[..|run| - 1], a);
      assert run[..|run| - 1] + [a] == run;
      if !a.Run? {
        RegistrationsOther(cfg, s, a);
      } else if a.pid in s.procs && !s.procs[a.pid].Finished? {
        RegistrationsStep(cfg, s, a.pid, a.choice);
      }
    }
  }

  /** No registration is lost: in every run, a registration message that is done had an invalid address,
      or a user with its address is stored. One with an empty password is therefore never done unless
      some other message registers the address. */
  lemma AckedMeansRegistered(cfg: Config, run: seq<Action>, m: nat)
    requires Email.FixesEmails(cfg.normalise) && m in After(cfg, run).sh.acked
    ensures var sh := After(cfg, run).sh; m < |sh.accepted| && RegistrationDone(cfg, sh, sh.accepted[m])
  {
    RegistrationsAlwaysOk(cfg, run);
  }

  // ---------- The race between workers ----------

  /** The tables a registration could change. */
  predicate SameTables(a: Shared, b: Shared) {
    a.users == b.users && a.outbox == b.outbox
  }

  /** Settling a message moves it and nothing else. */
  lemma Settled(cfg: Config, s: State, pid: Pid, ch: Choice)
    requires pid in s.procs && s.procs[pid].Settling?
    ensures var t, m := Apply(cfg, s, Run(pid, ch)), s.procs[pid].message;
            && SameTables(s.sh, t.sh) && m !in t.sh.unacked
            && (if s.procs[pid].result.Success? then m in t.sh.acked else m in t.sh.ready && t.sh.acked == s.sh.acked)
  {
  }

  /** A worker that reaches the insert after another has registered the address changes nothing, and
      its message goes back to the queue. */
  lemma LoserRequeues(cfg: Config, s: State, pid: Pid, m: nat, email: string, hash: string, ch1: Choice, ch2: Choice)
    requires At(s, pid, Handling(m, Handlers.RegistrationSave(email, hash)))
    requires EmailTaken(s.sh.users, email)
    ensures var t := Apply(cfg, Apply(cfg, s, Run(pid, ch1)), Run(pid, ch2));
            SameTables(s.sh, t.sh) && m in t.sh.ready && m !in t.sh.unacked && t.sh.acked == s.sh.acked
  {
    var s1 := Apply(cfg, s, Run(pid, ch1));
    assert s1.procs[pid] == Settling(m, Failure(Dependency)) && SameTables(s.sh, s1.sh) && s1.sh.acked == s.sh.acked;
    Settled(cfg, s1, pid, ch2);
  }

  lemma DuplicateFound(cfg: Config, s: State, pid: Pid, m: nat, email: string, password: string, ch: Choice)
    requires ShOk(cfg, s.sh) && Email.FixesEmails(cfg.normalise)
    requires At(s, pid, Handling(m, Handlers.RegistrationFind(email, password)))
    requires EmailTaken(s.sh.users, email) && ch.fault.Fine?
    ensures var t := Apply(cfg, s, Run(pid, ch));
            SameTables(s.sh, t.sh) && At(t, pid, Settling(m, Success(Nothing)))
  {
    hide ShOk, UserOk, Loaded;
    LaterOk(cfg, s.sh, ch);
    FindOk(cfg, Later(s.sh, ch), FindByEmail(email), ch);
  }

  /** A delivery of a registration message whose address is registered is acknowledged, and changes
      nothing, as soon as its lookup works. */
  lemma DuplicateAcked(cfg: Config, s: State, pid: Pid, m: nat, email: string, password: string, ch1: Choice,
        ch2: Choice)
    requires ShOk(cfg, s.sh) && Email.FixesEmails(cfg.normalise)
    requires At(s, pid, Handling(m, Handlers.RegistrationFind(email, password)))
    requires EmailTaken(s.sh.users, email) && ch1.fault.Fine?
    ensures var t := Apply(cfg, Apply(cfg, s, Run(pid, ch1)), Run(pid, ch2));
            SameTables(s.sh, t.sh) && m in t.sh.acked && m !in t.sh.unacked
  {
    DuplicateFound(cfg, s, pid, m, email, password, ch1);
    Settled(cfg, Apply(cfg, s, Run(pid, ch1)), pid, ch2);
  }

  lemma RedeliveredAcked(cfg: Config, s: State, m: nat, email: string, ch3: Choice, ch4: Choice)
    requires Inv(cfg, s) && Email.FixesEmails(cfg.normalise) && EmailTaken(s.sh.users, email) && ch3.fault.Fine?
    requires m in s.sh.ready && m < |s.sh.accepted| && IsRegistration(cfg, s.sh.accepted[m])
    requires AddressOf(cfg, s.sh.accepted[m]) == Ok(email)
    ensures var t := Apply(cfg, Apply(cfg, Apply(cfg, s, Deliver(m)), Run(s.next, ch3)), Run(s.next, ch4));
            SameTables(s.sh, t.sh) && m in t.sh.acked
  {
    hide Inv, ShOk, RowByEmail;
    var d := Apply(cfg, s, Deliver(m));
    DeliverKeeps(cfg, s, m);
    assert d.procs[s.next] == Handling(m, Handlers.RegistrationFind(email, s.sh.accepted[m].payload.password));
    DuplicateAcked(cfg, d, s.next, m, email, s.sh.accepted[m].payload.password, ch3, ch4);
  }

  /** What a handler at its insert knows of its message is still so after any continuation. */
  lemma StillTaken(cfg: Config, run: seq<Action>, pid: Pid, m: nat, email: string, hash: string, more: seq<Action>)
    requires Email.FixesEmails(cfg.normalise)
    requires var s := After(cfg, run);
             At(s, pid, Handling(m, Handlers.RegistrationSave(email, hash)))
                 && EmailTaken(s.sh.users, email)
             && m < |s.sh.accepted| && IsRegistration(cfg, s.sh.accepted[m])
    ensures var t := After(cfg, run + more);
            EmailTaken(t.sh.users, email) && m < |t.sh.accepted| && IsRegistration(cfg, t.sh.accepted[m])
            && AddressOf(cfg, t.sh.accepted[m]) == Ok(email)
  {
    var s := After(cfg, run);
    RegistrationsAlwaysOk(cfg, run);
    assert HandlerKnows(cfg, s.sh, s.procs[pid]);
    Growth(cfg, run, more);
    TakenStays(s.sh.users, After(cfg, run + more).sh.users, email);
  }

  /** After a worker has lost the insert race, whatever happens next: when its message is delivered
      again, it is acknowledged without any change to the tables if the lookup works. */
  lemma LoserThenAcked(cfg: Config, run: seq<Action>, pid: Pid, m: nat, email: string, hash: string,
                       more: seq<Action>, ch1: Choice, ch2: Choice)
    requires Email.FixesEmails(cfg.normalise)
    requires var s := After(cfg, run);
             At(s, pid, Handling(m, Handlers.RegistrationSave(email, hash)))
                 && EmailTaken(s.sh.users, email)
             && m < |s.sh.accepted| && IsRegistration(cfg, s.sh.accepted[m])
    requires m in After(cfg, run + more).sh.ready && ch1.fault.Fine?
    ensures var again := After(cfg, run + more);
            var t := Apply(cfg, Apply(cfg, Apply(cfg, again, Deliver(m)), Run(again.next, ch1)), Run(again.next, ch2));
            SameTables(again.sh, t.sh) && m in t.sh.acked
  {
    StillTaken(cfg, run, pid, m, email, hash, more);
    Sound(cfg, run + more);
    RedeliveredAcked(cfg, After(cfg, run + more), m, email, ch1, ch2);
  }
}
