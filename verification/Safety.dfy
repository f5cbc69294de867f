/** The invariant over every run of the system: each process only asks for operations that keep the
    shared state sound, whatever the others do in between. */
module Safety {
  import opened Wrappers
  import opened Users
  import opened Store
  import opened Invariant
  import opened Machine
  import Email
  import Sessions
  import Accounts
  import Handlers

  // ---------- What each process knows ----------

  ghost predicate SessionOk(cfg: Config, sh: Shared, pc: Sessions.Pc) {
    match pc
    case LoginFind(_, _) => true
    case LoginCompare(u, _) => UserOk(sh, u)
    case LoginRehash(u, _) => UserOk(sh, u)
    case LoginQueueUpgrade(u, _) => UserOk(sh, u)
    case LoginMintMfa(u) => UserOk(sh, u)
    case LoginSign(u) => UserOk(sh, u)
    case LoginMintRefresh(u) => UserOk(sh, u)
    case VerifyGet(_, _) => true
    case VerifyFind(_, _, id) => KnownUser(cfg, sh, id)
    case VerifyCheck(_, _, u) => UserOk(sh, u)
    case VerifyDel(_, u) => UserOk(sh, u)
    case VerifySign(_, u) => UserOk(sh, u)
    case VerifyMintRefresh(_, u) => UserOk(sh, u)
    case RefreshGet(_) => true
    case RefreshFind(_, id) => KnownUser(cfg, sh, id)
    case RefreshSign(_, u) => UserOk(sh, u)
    case RefreshMint(_, u) => UserOk(sh, u)
    case RefreshDel(_, u, _) => UserOk(sh, u)
    case LogoutDel(_) => true
  }

  ghost predicate AccountOk(cfg: Config, sh: Shared, pc: Accounts.Pc) {
    match pc
    case RegisterFind(_, command) => command.Json? && command.newHash == ""
    case RegisterQueue(command) => command.Json? && command.newHash == ""
    case RolesFind(_, _) => true
    case RolesQueue(id, _) => id in sh.users
    case ForgotFind(_) => true
    case ForgotQueue(u) => UserOk(sh, u)
    case ResetGet(_, _) => true
    case ResetFind(_, _, id) => KnownUser(cfg, sh, id)
    case ResetHash(_, _, u) => UserOk(sh, u)
    case ResetUpdate(_, u) => UserOk(sh, u)
    case ResetDel(_) => true
    case ConfirmGet(_) => true
    case ConfirmFind(_, id) => KnownUser(cfg, sh, id)
    case ConfirmUpdate(_, u) => UserOk(sh, u)
    case ConfirmDel(_) => true
    case SetupFind(_) => true
    case SetupSecret(u) => UserOk(sh, u)
    case SetupUpdate(u) => UserOk(sh, u)
    case ProfileGet(_) => true
    case ProfileFind(_) => true
    case ProfileFill(p) => ProfileOk(cfg, sh.users, p)
  }

  ghost predicate HandlerOk(cfg: Config, sh: Shared, pc: Handlers.Pc) {
    match pc
    case RegistrationFind(email, _) => Email.IsEmail(email)
    case RegistrationHash(email, _) => Email.IsEmail(email)
    case RegistrationSave(email, hash) => Email.IsEmail(email) && hash != ""
    case RolesFind(_, _) => true
    case RolesWrite(id, _) => id in sh.users
    case ConfirmationMint(id) => KnownUser(cfg, sh, id)
    case ResetMint(id) => KnownUser(cfg, sh, id)
    case UpgradeFind(_, _) => true
    case UpgradeUpdate(u) => UserOk(sh, u)
  }

  ghost predicate RelayOk(sh: Shared, pc: RelayPc) {
    match pc
    case Select => true
    case Publishing(batch, toMark) =>
      (forall i :: 0 <= i < |batch| ==> ItemOk(sh, batch[i]))
          && (forall i :: 0 <= i < |toMark| ==> WasAccepted(sh, toMark[i]))
    case Marking(toMark) => forall i :: 0 <= i < |toMark| ==> WasAccepted(sh, toMark[i])
  }

  ghost predicate ProcOk(cfg: Config, sh: Shared, p: Proc) {
    match p
    case Session(s) => SessionOk(cfg, sh, s)
    case Account(a) => AccountOk(cfg, sh, a)
    case Handling(m, h) => m in sh.unacked && HandlerOk(cfg, sh, h)
    case Settling(m, _) => m in sh.unacked
    case Relay(r) => RelayOk(sh, r)
    case Finished(_) => true
  }

  // ---------- One process ----------

  lemma NextOpOk(cfg: Config, sh: Shared, p: Proc)
    requires !p.Finished? && ProcOk(cfg, sh, p)
    ensures OpOk(cfg, sh, NextOp(p))
  {
  }

  lemma UserStays(cfg: Config, a: Shared, b: Shared)
    requires Grows(a, b)
    ensures forall u :: UserOk(a, u) ==> UserOk(b, u)
    ensures forall id :: KnownUser(cfg, a, id) ==> KnownUser(cfg, b, id)
  {
    hide OutboxGrows, Restorable;
  }

  /** What is known of the tables stays true as they grow. */
  lemma SessionStays(cfg: Config, a: Shared, b: Shared, pc: Sessions.Pc)
    requires Grows(a, b) && SessionOk(cfg, a, pc)
    ensures SessionOk(cfg, b, pc)
  {
    hide OutboxGrows, Restorable, UserOk, KnownUser;
    UserStays(cfg, a, b);
  }

  lemma AccountStays(cfg: Config, a: Shared, b: Shared, pc: Accounts.Pc)
    requires Grows(a, b) && AccountOk(cfg, a, pc)
    ensures AccountOk(cfg, b, pc)
  {
    hide OutboxGrows, Restorable, UserOk, KnownUser;
    UserStays(cfg, a, b);
  }

  lemma HandlerStays(cfg: Config, a: Shared, b: Shared, pc: Handlers.Pc)
    requires Grows(a, b) && HandlerOk(cfg, a, pc)
    ensures HandlerOk(cfg, b, pc)
  {
  }

  lemma RelayStays(a: Shared, b: Shared, pc: RelayPc)
    requires Grows(a, b) && RelayOk(a, pc)
    ensures RelayOk(b, pc)
  {
    forall row | WasAccepted(a, row)
      ensures WasAccepted(b, row)
    {
      AcceptedStays(a, b, row);
    }
    forall item | ItemOk(a, item)
      ensures ItemOk(b, item)
    {
      assert RowKept(a.outbox[item.row], b.outbox[item.row]);
    }
  }

  lemma ProcStays(cfg: Config, a: Shared, b: Shared, p: Proc)
    requires Grows(a, b) && ProcOk(cfg, a, p)
    requires Holds(p).Some? ==> Holds(p).value in b.unacked
    ensures ProcOk(cfg, b, p)
  {
    match p
    case Session(s) => SessionStays(cfg, a, b, s);
    case Account(pc) => AccountStays(cfg, a, b, pc);
    case Handling(_, h) => HandlerStays(cfg, a, b, h);
    case Settling(_, _) =>
    case Relay(r) => RelayStays(a, b, r);
    case Finished(_) =>
  }

  lemma SessionResumes(cfg: Config, sh: Shared, pc: Sessions.Pc, reply: Reply)
    requires SessionOk(cfg, sh, pc) && ReplyOk(cfg, sh, Sessions.NextOp(pc), reply)
    ensures var n := Sessions.Resume(pc, reply); n.Go? ==> SessionOk(cfg, sh, n.pc)
  {
  }

  lemma AccountResumes(cfg: Config, sh: Shared, pc: Accounts.Pc, reply: Reply, now: Time)
    requires AccountOk(cfg, sh, pc) && ReplyOk(cfg, sh, Accounts.NextOp(pc), reply)
    ensures var n := Accounts.Resume(cfg, pc, reply, now); n.Go? ==> AccountOk(cfg, sh, n.pc)
  {
  }

  lemma HandlerResumes(cfg: Config, sh: Shared, pc: Handlers.Pc, reply: Reply, now: Time)
    requires HandlerOk(cfg, sh, pc) && ReplyOk(cfg, sh, Handlers.NextOp(pc), reply)
    ensures var n := Handlers.Resume(pc, reply, now); n.Go? ==> HandlerOk(cfg, sh, n.pc)
  {
  }

  lemma RelayResumes(cfg: Config, sh: Shared, pc: RelayPc, reply: Reply)
    requires RelayOk(sh, pc) && ReplyOk(cfg, sh, RelayOp(pc), reply)
    ensures ProcOk(cfg, sh, RelayResume(pc, reply))
  {
  }

  lemma ProcResumes(cfg: Config, sh: Shared, p: Proc, reply: Reply, now: Time)
    requires !p.Finished? && ProcOk(cfg, sh, p) && ReplyOk(cfg, sh, NextOp(p), reply)
    ensures ProcOk(cfg, sh, Resume(cfg, p, reply, now))
  {
    match p
    case Session(s) => SessionResumes(cfg, sh, s, reply);
    case Account(a) => AccountResumes(cfg, sh, a, reply, now);
    case Handling(_, h) => HandlerResumes(cfg, sh, h, reply, now);
    case Settling(_, _) =>
    case Relay(r) => RelayResumes(cfg, sh, r, reply);
  }

  // ---------- The whole system ----------

  predicate HoldSame(s: State, p: Pid, q: Pid) {
    p in s.procs && q in s.procs && Holds(s.procs[p]).Some? && Holds(s.procs[p]) == Holds(s.procs[q])
  }

  /** Every held message has exactly one holder. */
  ghost predicate HoldersOk(s: State) {
    && (forall p, q :: HoldSame(s, p, q) ==> p == q)
    && (forall m :: m in s.sh.unacked ==> HasHolder(s, m))
  }

  ghost predicate HasHolder(s: State, m: nat) {
    exists p :: p in s.procs && Holds(s.procs[p]) == Some(m)
  }

  ghost predicate ProcsOk(cfg: Config, s: State) {
    forall p :: p in s.procs ==> p < s.next && ProcOk(cfg, s.sh, s.procs[p])
  }

  ghost predicate Inv(cfg: Config, s: State) {
    ShOk(cfg, s.sh) && ProcsOk(cfg, s) && HoldersOk(s)
  }

  lemma BeginOk(cfg: Config, sh: Shared, call: Call)
    ensures ProcOk(cfg, sh, Begin(cfg, call)) && Holds(Begin(cfg, call)).None?
  {
  }

  lemma HeldMessageOk(cfg: Config, sh: Shared, m: nat)
    requires ShOk(cfg, sh) && m < |sh.accepted| && m in sh.unacked
    ensures cfg.topology.Routes(sh.accepted[m].event)
    ensures PayloadOk(sh.users, sh.accepted[m].event, sh.accepted[m].payload)
  {
    hide TableOk, UniqueEmails, VersionsOk, RegisteredOnce, PublishedOk, TokensOk, ProfilesOk;
    assert m in Routed(cfg, sh);
    assert CopiesRow(sh.outbox, sh.accepted[m]);
  }

  lemma HandleOk(cfg: Config, sh: Shared, m: nat)
    requires ShOk(cfg, sh) && m < |sh.accepted| && m in sh.unacked
    ensures var p := OfHandler(m, Handlers.Handle(cfg, sh.accepted[m]));
            ProcOk(cfg, sh, p) && Holds(p) == Some(m)
  {
    hide ShOk;
    HeldMessageOk(cfg, sh, m);
  }

  /** Moving a message between the queue and a holder. */
  lemma MoveOk(cfg: Config, sh: Shared, t: Shared)
    requires ShOk(cfg, sh) && t == sh.(ready := t.ready, unacked := t.unacked)
    requires t.ready + t.unacked == sh.ready + sh.unacked && t.ready !! t.unacked
    ensures ShOk(cfg, t) && Grows(sh, t)
  {
    QueueChangeOk(cfg, sh, t);
  }

  lemma OthersOf(s: State, pid: Pid)
    requires HoldersOk(s) && pid in s.procs && Holds(s.procs[pid]).Some?
    ensures forall q :: q in s.procs && q != pid ==> Holds(s.procs[q]) != Holds(s.procs[pid])
  {
    forall q | q in s.procs && q != pid
      ensures Holds(s.procs[q]) != Holds(s.procs[pid])
    {
      assert !HoldSame(s, pid, q);
    }
  }

  lemma OthersStay(cfg: Config, s: State, t: Shared, p: Pid)
    requires ProcsOk(cfg, s) && HoldersOk(s) && Grows(s.sh, t)
    requires forall m :: m in s.sh.unacked && (p in s.procs ==> Holds(s.procs[p]) != Some(m)) ==> m in t.unacked
    ensures forall q :: q in s.procs && q != p ==> ProcOk(cfg, t, s.procs[q])
  {
    if p in s.procs && Holds(s.procs[p]).Some? {
      OthersOf(s, p);
    }
    forall q | q in s.procs && q != p
      ensures ProcOk(cfg, t, s.procs[q])
    {
      ProcStays(cfg, s.sh, t, s.procs[q]);
    }
  }

  lemma SameHolders(s: State, t: State)
    requires HoldersOk(s)
    requires forall p :: p in t.procs && Holds(t.procs[p]).Some? ==>
        p in s.procs && Holds(s.procs[p]) == Holds(t.procs[p])
    ensures forall p, q :: HoldSame(t, p, q) ==> p == q
  {
    forall p, q | HoldSame(t, p, q)
      ensures p == q
    {
      assert HoldSame(s, p, q);
    }
  }

  lemma StartKeeps(cfg: Config, s: State, call: Call)
    requires Inv(cfg, s)
    ensures Inv(cfg, Apply(cfg, s, Start(call)))
  {
    var t := Apply(cfg, s, Start(call));
    BeginOk(cfg, s.sh, call);
    SameHolders(s, t);
    forall m | m in t.sh.unacked
      ensures HasHolder(t, m)
    {
      var p :| p in s.procs && Holds(s.procs[p]) == Some(m);
      assert t.procs[p] == s.procs[p];
    }
  }

  ghost predicate HoldOnlyUnacked(s: State) {
    forall q :: q in s.procs && Holds(s.procs[q]).Some? ==> Holds(s.procs[q]).value in s.sh.unacked
  }

  lemma ProcsHoldUnacked(cfg: Config, s: State)
    requires ProcsOk(cfg, s)
    ensures HoldOnlyUnacked(s)
  {
    forall q | q in s.procs && Holds(s.procs[q]).Some?
      ensures Holds(s.procs[q]).value in s.sh.unacked
    {
      assert ProcOk(cfg, s.sh, s.procs[q]);
    }
  }

  /** The message goes to a new process, its only holder. */
  lemma DeliverHolders(cfg: Config, s: State, m: nat)
    requires HoldOnlyUnacked(s) && HoldersOk(s) && s.next !in s.procs
    requires m in s.sh.ready && m !in s.sh.unacked && m < |s.sh.accepted|
    ensures HoldersOk(Apply(cfg, s, Deliver(m)))
  {
    var t := Apply(cfg, s, Deliver(m));
    assert Holds(t.procs[s.next]) == Some(m);
    forall a, b | HoldSame(t, a, b)
      ensures a == b
    {
      assert a in s.procs && b in s.procs ==> HoldSame(s, a, b);
    }
    forall k | k in t.sh.unacked
      ensures HasHolder(t, k)
    {
      if k != m {
        var q :| q in s.procs && Holds(s.procs[q]) == Some(k);
        assert t.procs[q] == s.procs[q];
      }
    }
  }

  lemma DeliverProcs(cfg: Config, s: State, m: nat, t: State, p: Proc)
    requires Inv(cfg, s) && m in s.sh.ready
    requires t == Spawn(s.(sh := s.sh.(ready := s.sh.ready - {m}, unacked := s.sh.unacked + {m})), p)
    requires ProcOk(cfg, t.sh, p)
    ensures ProcsOk(cfg, t)
  {
    MoveOk(cfg, s.sh, t.sh);
    OthersStay(cfg, s, t.sh, s.next);
  }

  lemma DeliverKeeps(cfg: Config, s: State, m: nat)
    requires Inv(cfg, s)
    ensures Inv(cfg, Apply(cfg, s, Deliver(m))) && Grows(s.sh, Apply(cfg, s, Deliver(m)).sh)
  {
    if m in s.sh.ready && m < |s.sh.accepted| {
      var t := Apply(cfg, s, Deliver(m));
      MoveOk(cfg, s.sh, t.sh);
      HandleOk(cfg, t.sh, m);
      DeliverProcs(cfg, s, m, t, OfHandler(m, Handlers.Handle(cfg, s.sh.accepted[m])));
      ProcsHoldUnacked(cfg, s);
      DeliverHolders(cfg, s, m);
    }
  }

  lemma CrashKeeps(cfg: Config, s: State, pid: Pid)
    requires Inv(cfg, s)
    ensures Inv(cfg, Apply(cfg, s, Crash(pid))) && Grows(s.sh, Apply(cfg, s, Crash(pid)).sh)
  {
    hide UsersOk, AcceptedOk, PublishedOk, TokensOk, ProfilesOk;
    var t := Apply(cfg, s, Crash(pid));
    if pid in s.procs {
      var m := Holds(s.procs[pid]);
      assert m.Some? ==> m.value in s.sh.unacked;
      MoveOk(cfg, s.sh, t.sh);
      if m.Some? {
        OthersOf(s, pid);
      }
      OthersStay(cfg, s, t.sh, pid);
      SameHolders(s, t);
      forall k | k in t.sh.unacked
        ensures HasHolder(t, k)
      {
        var p :| p in s.procs && Holds(s.procs[p]) == Some(k);
        assert t.procs[p] == s.procs[p];
      }
    }
  }

  /** Which messages an operation lets go of. */
  lemma ReleasesOnlyItsOwn(cfg: Config, sh: Shared, op: Op, ch: Choice)
    ensures var t := Exec(cfg, sh, op, ch).0;
            t.unacked == if op.Ack? || op.Nack? then sh.unacked - {op.message} else sh.unacked
  {
  }

  lemma SettlesItsOwn(p: Proc)
    requires !p.Finished?
    ensures var op := NextOp(p);
            op.Ack? || op.Nack? <==> p.Settling?
    ensures p.Settling? ==> NextOp(p).message == p.message
  {
  }

  lemma RunKeepsProcs(cfg: Config, s: State, pid: Pid, ch: Choice)
    requires Inv(cfg, s) && Email.FixesEmails(cfg.normalise)
    requires pid in s.procs && !s.procs[pid].Finished?
    ensures var t := RunProc(cfg, s, pid, ch);
            ShOk(cfg, t.sh) && ProcsOk(cfg, t) && Grows(s.sh, t.sh)
  {
    hide Exec, ShOk;
    var p := s.procs[pid];
    var (sh, reply) := Exec(cfg, s.sh, NextOp(p), ch);
    NextOpOk(cfg, s.sh, p);
    ExecOk(cfg, s.sh, NextOp(p), ch);
    ReleasesOnlyItsOwn(cfg, s.sh, NextOp(p), ch);
    SettlesItsOwn(p);
    OthersStay(cfg, s, sh, pid);
    if !p.Settling? {
      ProcStays(cfg, s.sh, sh, p);
      ProcResumes(cfg, sh, p, reply, sh.now);
    }
  }

  /** A process keeps what it holds until it settles it. */
  lemma ResumeHolds(cfg: Config, p: Proc, reply: Reply, now: Time)
    requires !p.Finished?
    ensures Holds(Resume(cfg, p, reply, now)) == if p.Settling? then None else Holds(p)
  {
  }

  lemma RunKeeps(cfg: Config, s: State, pid: Pid, ch: Choice)
    requires Inv(cfg, s) && Email.FixesEmails(cfg.normalise)
    requires pid in s.procs && !s.procs[pid].Finished?
    ensures Inv(cfg, RunProc(cfg, s, pid, ch)) && Grows(s.sh, RunProc(cfg, s, pid, ch).sh)
  {
    var t := RunProc(cfg, s, pid, ch);
    var p := s.procs[pid];
    RunKeepsProcs(cfg, s, pid, ch);
    ReleasesOnlyItsOwn(cfg, s.sh, NextOp(p), ch);
    SettlesItsOwn(p);
    var (sh, reply) := Exec(cfg, s.sh, NextOp(p), ch);
    ResumeHolds(cfg, p, reply, sh.now);
    HoldersMove(s, t, pid);
  }

  lemma HoldersMove(s: State, t: State, pid: Pid)
    requires HoldersOk(s) && pid in s.procs && pid in t.procs && t.procs == s.procs[pid := t.procs[pid]]
    requires Holds(t.procs[pid]) == if s.procs[pid].Settling? then None else Holds(s.procs[pid])
    requires t.sh.unacked == if s.procs[pid].Settling? then s.sh.unacked - {s.procs[pid].message} else s.sh.unacked
    ensures HoldersOk(t)
  {
    SameHolders(s, t);
    if s.procs[pid].Settling? {
      OthersOf(s, pid);
    }
    forall m | m in t.sh.unacked
      ensures HasHolder(t, m)
    {
      var p :| p in s.procs && Holds(s.procs[p]) == Some(m);
      assert Holds(t.procs[p]) == Some(m);
    }
  }

  /** One action. */
  lemma ApplyKeeps(cfg: Config, s: State, a: Action)
    requires Inv(cfg, s) && Email.FixesEmails(cfg.normalise)
    ensures Inv(cfg, Apply(cfg, s, a)) && Grows(s.sh, Apply(cfg, s, a).sh)
  {
    match a
    case Start(call) => StartKeeps(cfg, s, call);
    case Deliver(m) => DeliverKeeps(cfg, s, m);
    case Run(pid, ch) =>
      if pid in s.procs && !s.procs[pid].Finished? {
        RunKeeps(cfg, s, pid, ch);
      }
    case Crash(pid) => CrashKeeps(cfg, s, pid);
  }

  lemma StartsOk(cfg: Config)
    ensures Inv(cfg, INIT)
  {
    assert Routed(cfg, START) == {};
  }

  /** The invariant holds in every state that any run of the system reaches. */
  lemma {:induction false} Sound(cfg: Config, run: seq<Action>)
    requires Email.FixesEmails(cfg.normalise)
    ensures Inv(cfg, After(cfg, run))
  {
    if run == [] {
      StartsOk(cfg);
    } else {
      Sound(cfg, run[..|run| - 1]);
      ApplyKeeps(cfg, After(cfg, run[..|run| - 1]), run[|run| - 1]);
    }
  }

  lemma GrowsByOne(cfg: Config, run: seq<Action>, a: Action)
    requires Email.FixesEmails(cfg.normalise)
    ensures Grows(After(cfg, run).sh, After(cfg, run + [a]).sh)
  {
    Sound(cfg, run);
    ApplyKeeps(cfg, After(cfg, run), a);
    assert (run + [a])[..|run|] == run;
  }

  /** Continuing a run only adds to what is stored for good. */
  lemma {:induction false} Growth(cfg: Config, run: seq<Action>, more: seq<Action>)
    requires Email.FixesEmails(cfg.normalise)
    ensures Grows(After(cfg, run).sh, After(cfg, run + more).sh)
  {
    if more == [] {
      assert run + more == run;
    } else {
      var init, last := more[..|more| - 1], more[|more| - 1];
      Growth(cfg, run, init);
      GrowsByOne(cfg, run + init, last);
      assert run + init + [last] == run + more;
      GrowsTransitive(After(cfg, run).sh, After(cfg, run + init).sh, After(cfg, run + more).sh);
    }
  }
}
