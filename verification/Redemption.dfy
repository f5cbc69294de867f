/** How often a token can be redeemed, in every interleaving: exactly which reads of a token are answered, and so
    exactly which refreshes, verifications, password resets and confirmations of the same token succeed. */
module Redemption {
  import opened Wrappers
  import opened Users
  import opened Store
  import opened Invariant
  import opened Machine
  import opened Safety
  import opened History
  import opened Claims
  import Email
  import Accounts
  import Sessions

  // ---------- The token store, replayed from the log ----------

  predicate Deletes(e: Event, k: Key) {
    TookEffect(e) && NextOp(e.pc) == Del(k)
  }

  predicate Stores(e: Event, k: Key) {
    TookEffect(e) && NextOp(e.pc).Mint? && NextOp(e.pc).kind == k.kind && e.choice.random == k.token
  }

  function Entered(e: Event, k: Key): Entry
    requires Stores(e, k)
  {
    Entry(NextOp(e.pc).userId, e.at + Ttl(k.kind))
  }

  /** What the log says is stored under the key. */
  function EntryAt(log: Log, k: Key): Option<Entry> {
    if log == [] then None
    else
      var e := log[|log| - 1];
      if Stores(e, k) then Some(Entered(e, k))
      else if Deletes(e, k) then None
      else EntryAt(log[..|log| - 1], k)
  }

  function Under(sh: Shared, k: Key): Option<Entry> {
    if k in sh.tokens then Some(sh.tokens[k]) else None
  }

  lemma EntryStep(cfg: Config, s: State, pid: Pid, ch: Choice, k: Key)
    requires pid in s.procs && !s.procs[pid].Finished? && Under(s.sh, k) == EntryAt(s.log, k)
    ensures var t := RunProc(cfg, s, pid, ch); Under(t.sh, k) == EntryAt(t.log, k)
  {
    hide Exec;
    var t, e := RunProc(cfg, s, pid, ch), StepEvent(cfg, s, pid, ch);
    TokensAfter(cfg, s.sh, NextOp(s.procs[pid]), ch);
    assert t.log == s.log + [e] && t.log[..|s.log|] == s.log;
  }

  /** In every run the store holds exactly what the log says. */
  lemma {:induction false} TokensReplay(cfg: Config, run: seq<Action>, k: Key)
    ensures Under(After(cfg, run).sh, k) == EntryAt(After(cfg, run).log, k)
  {
    hide EntryAt, Exec;
    if run == [] {
      NothingLogged(k);
    } else {
      var s, a := After(cfg, run[..|run| - 1]), run[|run| - 1];
      TokensReplay(cfg, run[..|run| - 1], k);
      if a.Run? && a.pid in s.procs && !s.procs[a.pid].Finished? {
        EntryStep(cfg, s, a.pid, a.choice, k);
      }
    }
  }

  lemma NothingLogged(k: Key)
    ensures EntryAt([], k) == None
  {
  }

  /** What a read is answered. */
  function GetReply(fault: Fault, entry: Option<Entry>, at: Time): Reply {
    if !fault.Fine? then Failed
    else if entry.Some? && at < entry.value.expires then Got(entry.value.userId)
    else Absent
  }

  lemma GetsNow(cfg: Config, sh: Shared, k: Key, ch: Choice)
    ensures var (t, reply) := Exec(cfg, sh, Get(k), ch); reply == GetReply(ch.fault, Under(sh, k), t.now)
  {
  }

  predicate IsGet(e: Event, k: Key) {
    !e.pc.Finished? && NextOp(e.pc) == Get(k)
  }

  /** In every run, every read is answered from what the log before it says is stored. */
  lemma {:induction false} GetsReplay(cfg: Config, run: seq<Action>, i: nat, k: Key)
    requires i < |After(cfg, run).log| && IsGet(After(cfg, run).log[i], k)
    ensures var log := After(cfg, run).log;
            log[i].reply == GetReply(log[i].choice.fault, EntryAt(log[..i], k), log[i].at)
  {
    hide Apply, EntryAt, Exec, GetReply;
    var init, a := run[..|run| - 1], run[|run| - 1];
    var s := After(cfg, init);
    LogGrowsBy(cfg, s, a);
    if i < |s.log| {
      GetsReplay(cfg, init, i, k);
      assert After(cfg, run).log[..i] == s.log[..i];
    } else {
      TokensReplay(cfg, init, k);
      GetsNow(cfg, s.sh, k, a.choice);
      assert After(cfg, run).log[..i] == s.log;
    }
  }

  // ---------- With generated values that do not repeat ----------

  predicate Apart(log: Log, i: nat, j: nat) {
    i < |log| && j < |log| && log[i].choice.random == log[j].choice.random ==> i == j
  }

  ghost predicate FreshRandoms(log: Log) {
    forall i, j :: Apart(log, i, j)
  }

  lemma FreshPrefix(log: Log, n: nat)
    requires FreshRandoms(log) && n <= |log|
    ensures FreshRandoms(log[..n])
  {
    forall i, j
      ensures Apart(log[..n], i, j)
    {
      assert Apart(log, i, j);
    }
  }

  /** A token that was generated before one of its deletions took effect is not stored afterwards. */
  lemma {:induction false} DeletedStaysAway(log: Log, k: Key, j: nat, d: nat)
    requires FreshRandoms(log) && j <= d < |log| && log[j].choice.random == k.token && Deletes(log[d], k)
    ensures EntryAt(log, k) == None
  {
    var n := |log| - 1;
    if d < n {
      FreshPrefix(log, n);
      DeletedStaysAway(log[..n], k, j, d);
      assert Apart(log, j, n);
    }
  }

  /** No effective deletion after the m-th event. */
  ghost predicate KeptSince(log: Log, k: Key, m: nat) {
    forall d :: m < d < |log| ==> !Deletes(log[d], k)
  }

  lemma {:induction false} KeptIsStored(log: Log, k: Key, m: nat)
    requires FreshRandoms(log) && m < |log| && Stores(log[m], k) && KeptSince(log, k, m)
    ensures EntryAt(log, k) == Some(Entered(log[m], k))
  {
    var n := |log| - 1;
    if m < n {
      FreshPrefix(log, n);
      KeptIsStored(log[..n], k, m);
      assert Apart(log, m, n);
    }
  }

  lemma {:induction false} StoredFrom(log: Log, k: Key) returns (m: nat)
    requires EntryAt(log, k).Some?
    ensures m < |log| && Stores(log[m], k) && EntryAt(log, k) == Some(Entered(log[m], k)) && KeptSince(log, k, m)
  {
    var n := |log| - 1;
    if Stores(log[n], k) {
      m := n;
    } else {
      m := StoredFrom(log[..n], k);
      assert log[..n][m] == log[m];
      forall d | m < d < |log|
        ensures !Deletes(log[d], k)
      {
        assert d < n ==> log[..n][d] == log[d];
      }
    }
  }

  /** In every run: once a deletion of a token that was generated before took effect, the token is not stored
      again, and no later read of it is answered. */
  lemma DeletedNeverRead(cfg: Config, run: seq<Action>, k: Key, j: nat, d: nat)
    requires var log := After(cfg, run).log;
             FreshRandoms(log) && j <= d < |log| && log[j].choice.random == k.token && Deletes(log[d], k)
    ensures k !in After(cfg, run).sh.tokens
    ensures var log := After(cfg, run).log; forall i, id :: d < i < |log| ==> !Reads(log[i], k, id)
  {
    hide After, EntryAt;
    var log := After(cfg, run).log;
    TokensReplay(cfg, run, k);
    DeletedStaysAway(log, k, j, d);
    forall i, id | d < i < |log|
      ensures !Reads(log[i], k, id)
    {
      if IsGet(log[i], k) {
        GetsReplay(cfg, run, i, k);
        FreshPrefix(log, i);
        DeletedStaysAway(log[..i], k, j, d);
      }
    }
  }

  lemma KeptInPrefix(log: Log, k: Key, m: nat, i: nat)
    requires i <= |log|
    ensures KeptSince(log[..i], k, m) <==> forall d :: m < d < i ==> !Deletes(log[d], k)
  {
    if KeptSince(log[..i], k, m) {
      forall d | m < d < i
        ensures !Deletes(log[d], k)
      {
        assert log[..i][d] == log[d];
      }
    }
  }

  /** At the i-th event the token is stored, by the m-th, is not deleted since, and has not expired. */
  ghost predicate LiveSince(log: Log, k: Key, m: nat, i: nat)
    requires i < |log|
  {
    m < i && Stores(log[m], k) && UsedInTime(k.kind, log[i].at - log[m].at) && KeptSince(log[..i], k, m)
  }

  ghost predicate LiveAt(log: Log, k: Key, i: nat)
    requires i < |log|
  {
    exists m: nat :: LiveSince(log, k, m, i)
  }

  /** In every run, a read without a fault is answered exactly when the token was stored within its lifetime
      and no deletion of it took effect in between. */
  lemma AnsweredExactlyWhen(cfg: Config, run: seq<Action>, i: nat, k: Key)
    requires var log := After(cfg, run).log;
             FreshRandoms(log) && i < |log| && IsGet(log[i], k) && log[i].choice.fault.Fine?
    ensures var log := After(cfg, run).log; log[i].reply.Got? <==> LiveAt(log, k, i)
  {
    hide After, EntryAt;
    var log := After(cfg, run).log;
    GetsReplay(cfg, run, i, k);
    FreshPrefix(log, i);
    if log[i].reply.Got? {
      var m := StoredFrom(log[..i], k);
      assert log[..i][m] == log[m];
      assert LiveSince(log, k, m, i);
    }
    if LiveAt(log, k, i) {
      var m: nat :| LiveSince(log, k, m, i);
      assert log[..i][m] == log[m];
      KeptIsStored(log[..i], k, m);
    }
  }

  // ---------- What follows a read, in one process ----------

  /** None of the process's operations had a fault. */
  ghost predicate OwnFine(log: Log, pid: Pid) {
    forall i :: 0 <= i < |log| && log[i].pid == pid ==> log[i].choice.fault.Fine?
  }

  /** The answer to the last code the process checked. */
  function CodeCheck(log: Log, pid: Pid): Option<bool> {
    if log == [] then None
    else
      var e := log[|log| - 1];
      if e.pid == pid && e.pc.Session? && e.pc.s.VerifyCheck? then Some(e.reply == Checked(true))
      else CodeCheck(log[..|log| - 1], pid)
  }

  /** The process begins with a read of its token. */
  predicate StartsWith(p: Proc) {
    match p
    case Session(s) => s.RefreshGet? || s.VerifyGet?
    case Account(a) => a.ResetGet? || a.ConfirmGet?
    case _ => false
  }

  /** Where a refresh of this token is after its read was answered with this user: it only goes on, and
      succeeds at the end. */
  predicate Refreshes(p: Proc, token: string, id: Id) {
    match p
    case Session(s) =>
      (match s
       case RefreshFind(t, i) => t == token && i == id
       case RefreshSign(t, u) => t == token && u.id == id
       case RefreshMint(t, u) => t == token && u.id == id
       case RefreshDel(t, u, minted) => t == token && u.id == id && minted.Some?
       case _ => false)
    case Finished(outcome) => outcome.Success? && outcome.body.Tokens? && outcome.body.user.id == id
    case _ => false
  }

  /** Where a verification of this token is after its read was answered with this user: what becomes of it
      depends on the code. */
  predicate Verifies(p: Proc, token: string, id: Id, check: Option<bool>) {
    match p
    case Session(s) =>
      (match s
       case VerifyFind(t, _, i) => t == token && i == id && check == None
       case VerifyCheck(t, _, u) => t == token && u.id == id && check == None
       case VerifyDel(t, u) => t == token && u.id == id && check == Some(true)
       case VerifySign(t, u) => t == token && u.id == id && check == Some(true)
       case VerifyMintRefresh(t, u) => t == token && u.id == id && check == Some(true)
       case _ => false)
    case Finished(outcome) =>
      if check == Some(true) then outcome.Success? && outcome.body.Tokens? && outcome.body.user.id == id
      else check == Some(false) && outcome.Failure?
    case _ => false
  }

  predicate Fits(u: UserState, id: Id) {
    u.id == id && |u.totpSecret| <= 128
  }

  /** Where a password reset with this token is after its read was answered with this user. */
  predicate Replaces(p: Proc, token: string, password: string, id: Id) {
    match p
    case Account(a) =>
      (match a
       case ResetFind(t, pw, i) => t == token && pw == password && i == id
       case ResetHash(t, pw, u) => t == token && pw == password && Fits(u, id)
       case ResetUpdate(t, u) => t == token && Fits(u, id)
       case ResetDel(t) => t == token
       case _ => false)
    case Finished(outcome) => outcome.Success?
    case _ => false
  }

  /** Where a confirmation with this token is after its read was answered with this user. */
  predicate Confirms(p: Proc, token: string, id: Id) {
    match p
    case Account(a) =>
      (match a
       case ConfirmFind(t, i) => t == token && i == id
       case ConfirmUpdate(t, u) => t == token && Fits(u, id)
       case ConfirmDel(t) => t == token
       case _ => false)
    case Finished(outcome) => outcome.Success?
    case _ => false
  }

  /** The hashing service makes a hash of the password, whatever the salt. */
  ghost predicate Hashable(cfg: Config, password: string) {
    password != "" && forall salt :: cfg.hash(password, salt) != ""
  }

  /** What the read decides of its process. */
  ghost predicate Progressed(cfg: Config, log: Log, e: Event, p: Proc)
    requires StartsWith(e.pc)
  {
    if !e.reply.Got? then p.Finished? && p.outcome.Failure?
    else
      match e.pc
      case Session(s) =>
        if s.RefreshGet? then Refreshes(p, s.token, e.reply.userId)
        else Verifies(p, s.token, e.reply.userId, CodeCheck(log, e.pid))
      case Account(a) =>
        if a.ResetGet? then Hashable(cfg, a.password) ==> Replaces(p, a.token, a.password, e.reply.userId)
        else Confirms(p, a.token, e.reply.userId)
  }

  ghost predicate ProgressOk(cfg: Config, s: State) {
    forall i :: 0 <= i < |s.log| && StartsWith(s.log[i].pc)
                && s.log[i].pid in s.procs && OwnFine(s.log, s.log[i].pid) ==>
      Progressed(cfg, s.log, s.log[i], s.procs[s.log[i].pid])
  }

  /** A process that has not read yet has done nothing; and no process has the number of a later one. */
  ghost predicate FirstOps(s: State) {
    && (forall i :: 0 <= i < |s.log| ==> s.log[i].pid < s.next)
    && (forall i :: 0 <= i < |s.log| && s.log[i].pid in s.procs ==> !StartsWith(s.procs[s.log[i].pid]))
  }

  lemma FindsAnswer(cfg: Config, sh: Shared, id: Id, ch: Choice)
    requires ShOk(cfg, sh) && Email.FixesEmails(cfg.normalise) && id in sh.users && ch.fault.Fine?
    ensures var reply := Exec(cfg, sh, FindByID(id), ch).1; reply.Found? && Fits(reply.user, id)
  {
    hide ShOk;
    RowKnown(cfg, sh, id);
    LoadShowsRow(cfg, sh.users[id], sh.now + ch.delay);
    SameId(Loaded(cfg, sh.users[id], sh.now + ch.delay).user, sh.users[id]);
  }

  lemma OthersAnswer(cfg: Config, sh: Shared, op: Op, ch: Choice)
    requires ch.fault.Fine?
    ensures var reply := Exec(cfg, sh, op, ch).1;
            && (op.Sign? || op.Del? ==> reply.Done?)
            && (op.Mint? ==> reply.Minted?) && (op.CheckTotp? ==> reply.Checked?)
            && (op.Update? && op.user.id in sh.users && |op.user.totpSecret| <= 128 ==> reply.Done?)
            && (op.Hash? && Hashable(cfg, op.plainText) ==> reply.Hashed? && reply.hash != "")
  {
  }

  lemma RefreshGoesOn(cfg: Config, sh: Shared, p: Proc, ch: Choice, token: string, id: Id)
    requires ShOk(cfg, sh) && Email.FixesEmails(cfg.normalise) && ch.fault.Fine?
    requires !p.Finished? && Refreshes(p, token, id) && (p.s.RefreshFind? ==> id in sh.users)
    ensures var (t, reply) := Exec(cfg, sh, NextOp(p), ch); Refreshes(Resume(cfg, p, reply, t.now), token, id)
  {
    hide Exec, ShOk;
    OthersAnswer(cfg, sh, NextOp(p), ch);
    if p.s.RefreshFind? {
      FindsAnswer(cfg, sh, id, ch);
    }
  }

  /** What an event adds to the check. */
  function CheckAfter(check: Option<bool>, p: Proc, reply: Reply): Option<bool> {
    if p.Session? && p.s.VerifyCheck? then Some(reply == Checked(true)) else check
  }

  lemma VerifyGoesOn(cfg: Config, sh: Shared, p: Proc, ch: Choice, token: string, id: Id, check: Option<bool>)
    requires ShOk(cfg, sh) && Email.FixesEmails(cfg.normalise) && ch.fault.Fine?
    requires !p.Finished? && Verifies(p, token, id, check) && (p.s.VerifyFind? ==> id in sh.users)
    ensures var (t, reply) := Exec(cfg, sh, NextOp(p), ch);
            Verifies(Resume(cfg, p, reply, t.now), token, id, CheckAfter(check, p, reply))
  {
    hide Exec, ShOk;
    OthersAnswer(cfg, sh, NextOp(p), ch);
    if p.s.VerifyFind? {
      FindsAnswer(cfg, sh, id, ch);
    }
  }

  lemma ReplaceGoesOn(cfg: Config, sh: Shared, p: Proc, ch: Choice, token: string, password: string, id: Id)
    requires ShOk(cfg, sh) && Email.FixesEmails(cfg.normalise) && ch.fault.Fine? && id in sh.users
    requires !p.Finished? && Replaces(p, token, password, id) && Hashable(cfg, password)
    ensures var (t, reply) := Exec(cfg, sh, NextOp(p), ch); Replaces(Resume(cfg, p, reply, t.now), token, password, id)
  {
    hide Exec, ShOk, Hashable;
    OthersAnswer(cfg, sh, NextOp(p), ch);
    if p.a.ResetFind? {
      FindsAnswer(cfg, sh, id, ch);
    }
  }

  lemma ConfirmGoesOn(cfg: Config, sh: Shared, p: Proc, ch: Choice, token: string, id: Id)
    requires ShOk(cfg, sh) && Email.FixesEmails(cfg.normalise) && ch.fault.Fine? && id in sh.users
    requires !p.Finished? && Confirms(p, token, id)
    ensures var (t, reply) := Exec(cfg, sh, NextOp(p), ch); Confirms(Resume(cfg, p, reply, t.now), token, id)
  {
    hide Exec, ShOk;
    OthersAnswer(cfg, sh, NextOp(p), ch);
    if p.a.ConfirmFind? {
      FindsAnswer(cfg, sh, id, ch);
    }
  }

  /** The user that a process works on after its read is stored. */
  predicate WorksOn(p: Proc, id: Id) {
    match p
    case Session(s) => (s.RefreshFind? && s.userId == id) || (s.VerifyFind? && s.userId == id)
    case Account(a) =>
      (a.ResetFind? && a.userId == id) || (a.ConfirmFind? && a.userId == id)
      || ((a.ResetHash? || a.ResetUpdate? || a.ConfirmUpdate?) && a.user.id == id)
    case _ => false
  }

  lemma KnownIsStored(cfg: Config, s: State, pid: Pid, id: Id)
    requires Inv(cfg, s) && cfg.topology.TokensFromUserEvents() && pid in s.procs && WorksOn(s.procs[pid], id)
    ensures id in s.sh.users
  {
    hide ShOk, HoldersOk, Restorable;
    assert ProcOk(cfg, s.sh, s.procs[pid]);
  }

  lemma DelSucceeds(cfg: Config, p: Proc, reply: Reply, now: Time)
    requires p.Account? && (p.a.ResetDel? || p.a.ConfirmDel?)
    ensures Resume(cfg, p, reply, now) == Finished(Success(Nothing))
  {
  }

  lemma CodeCheckSnoc(log: Log, e: Event, pid: Pid)
    ensures CodeCheck(log + [e], pid)
         == if e.pid == pid then CheckAfter(CodeCheck(log, pid), e.pc, e.reply) else CodeCheck(log, pid)
  {
    assert (log + [e])[..|log|] == log;
  }

  lemma {:induction false} NoCheckYet(log: Log, pid: Pid)
    requires forall i :: 0 <= i < |log| ==> log[i].pid != pid
    ensures CodeCheck(log, pid) == None
  {
    if log != [] {
      NoCheckYet(log[..|log| - 1], pid);
    }
  }

  /** The process that has read before performs another operation. */
  lemma ReaderGoesOn(cfg: Config, s: State, pid: Pid, ch: Choice, e: Event)
    requires Inv(cfg, s) && Email.FixesEmails(cfg.normalise) && cfg.topology.TokensFromUserEvents()
    requires pid in s.procs && !s.procs[pid].Finished? && ch.fault.Fine?
    requires e.pid == pid && StartsWith(e.pc) && Progressed(cfg, s.log, e, s.procs[pid])
    ensures var t := RunProc(cfg, s, pid, ch); Progressed(cfg, t.log, e, t.procs[pid])
  {
    hide Exec, Inv, CodeCheck, Hashable, ShOk;
    var p, id := s.procs[pid], e.reply.userId;
    InvHasStore(cfg, s);
    CodeCheckSnoc(s.log, StepEvent(cfg, s, pid, ch), pid);
    if WorksOn(p, id) {
      KnownIsStored(cfg, s, pid, id);
    }
    if e.pc.Session? {
      SessionReaderGoesOn(cfg, s, pid, ch, e);
    } else {
      AccountReaderGoesOn(cfg, s, pid, ch, e);
    }
  }

  lemma InvHasStore(cfg: Config, s: State)
    requires Inv(cfg, s)
    ensures ShOk(cfg, s.sh)
  {
  }

  lemma SessionReaderGoesOn(cfg: Config, s: State, pid: Pid, ch: Choice, e: Event)
    requires ShOk(cfg, s.sh) && Email.FixesEmails(cfg.normalise) && pid in s.procs && !s.procs[pid].Finished?
    requires ch.fault.Fine? && e.pid == pid && e.pc.Session? && StartsWith(e.pc)
        && Progressed(cfg, s.log, e, s.procs[pid])
    requires e.reply.Got? && WorksOn(s.procs[pid], e.reply.userId) ==> e.reply.userId in s.sh.users
    ensures var t := RunProc(cfg, s, pid, ch); Progressed(cfg, t.log, e, t.procs[pid])
  {
    hide Exec, ShOk, CodeCheck;
    CodeCheckSnoc(s.log, StepEvent(cfg, s, pid, ch), pid);
    if e.pc.s.RefreshGet? {
      RefreshGoesOn(cfg, s.sh, s.procs[pid], ch, e.pc.s.token, e.reply.userId);
    } else {
      VerifyGoesOn(cfg, s.sh, s.procs[pid], ch, e.pc.s.token, e.reply.userId, CodeCheck(s.log, pid));
    }
  }

  lemma AccountReaderGoesOn(cfg: Config, s: State, pid: Pid, ch: Choice, e: Event)
    requires ShOk(cfg, s.sh) && Email.FixesEmails(cfg.normalise) && pid in s.procs && !s.procs[pid].Finished?
    requires ch.fault.Fine? && e.pid == pid && e.pc.Account? && StartsWith(e.pc)
        && Progressed(cfg, s.log, e, s.procs[pid])
    requires e.reply.Got? && WorksOn(s.procs[pid], e.reply.userId) ==> e.reply.userId in s.sh.users
    ensures var t := RunProc(cfg, s, pid, ch); Progressed(cfg, t.log, e, t.procs[pid])
  {
    hide Exec, ShOk, CodeCheck, Hashable;
    var p, a := s.procs[pid], e.pc.a;
    var (sh, reply) := Exec(cfg, s.sh, NextOp(p), ch);
    if p.Account? && (p.a.ResetDel? || p.a.ConfirmDel?) {
      DelSucceeds(cfg, p, reply, sh.now);
    } else if a.ConfirmGet? {
      ConfirmGoesOn(cfg, s.sh, p, ch, a.token, e.reply.userId);
    } else if Hashable(cfg, a.password) {
      ReplaceGoesOn(cfg, s.sh, p, ch, a.token, a.password, e.reply.userId);
    }
  }

  /** The process reads. */
  lemma ReaderReads(cfg: Config, s: State, pid: Pid, ch: Choice)
    requires FirstOps(s) && pid in s.procs && StartsWith(s.procs[pid])
    ensures var t := RunProc(cfg, s, pid, ch); Progressed(cfg, t.log, StepEvent(cfg, s, pid, ch), t.procs[pid])
  {
    hide Exec, Hashable;
    NoCheckYet(s.log, pid);
    CodeCheckSnoc(s.log, StepEvent(cfg, s, pid, ch), pid);
  }

  lemma ProgressStep(cfg: Config, s: State, pid: Pid, ch: Choice)
    requires Inv(cfg, s) && Email.FixesEmails(cfg.normalise) && cfg.topology.TokensFromUserEvents()
    requires ProgressOk(cfg, s) && FirstOps(s) && pid in s.procs && !s.procs[pid].Finished?
    ensures ProgressOk(cfg, RunProc(cfg, s, pid, ch))
  {
    hide Exec, Inv, Progressed, FirstOps;
    var t, e := RunProc(cfg, s, pid, ch), StepEvent(cfg, s, pid, ch);
    assert t.log == s.log + [e];
    forall i | 0 <= i < |t.log| && StartsWith(t.log[i].pc) && t.log[i].pid in t.procs && OwnFine(t.log, t.log[i].pid)
      ensures Progressed(cfg, t.log, t.log[i], t.procs[t.log[i].pid])
    {
      if i == |s.log| {
        ReaderReads(cfg, s, pid, ch);
      } else {
        OwnFineBefore(s.log, e, t.log[i].pid);
        if t.log[i].pid == pid {
          assert t.log[|s.log|].choice.fault.Fine?;
          ReaderGoesOn(cfg, s, pid, ch, t.log[i]);
        } else {
          OtherStays(cfg, s.log, e, t.log[i], s.procs[t.log[i].pid]);
        }
      }
    }
  }

  lemma OwnFineBefore(log: Log, e: Event, pid: Pid)
    requires OwnFine(log + [e], pid)
    ensures OwnFine(log, pid)
  {
    forall i | 0 <= i < |log| && log[i].pid == pid
      ensures log[i].choice.fault.Fine?
    {
      assert (log + [e])[i] == log[i];
    }
  }

  lemma OtherStays(cfg: Config, log: Log, e: Event, read: Event, p: Proc)
    requires StartsWith(read.pc) && Progressed(cfg, log, read, p) && e.pid != read.pid
    ensures Progressed(cfg, log + [e], read, p)
  {
    CodeCheckSnoc(log, e, read.pid);
  }

  lemma FirstOpsStep(cfg: Config, s: State, pid: Pid, ch: Choice)
    requires FirstOps(s) && ProcNumbers(s) && pid in s.procs && !s.procs[pid].Finished?
    ensures FirstOps(RunProc(cfg, s, pid, ch)) && ProcNumbers(RunProc(cfg, s, pid, ch))
  {
    hide Exec;
    var t, e := RunProc(cfg, s, pid, ch), StepEvent(cfg, s, pid, ch);
    assert t.log == s.log + [e];
    NeverBack(cfg, s.procs[pid], e.reply, e.at);
  }

  /** No process comes back to its read. */
  lemma NeverBack(cfg: Config, p: Proc, reply: Reply, now: Time)
    requires !p.Finished?
    ensures !StartsWith(Resume(cfg, p, reply, now))
  {
  }

  ghost predicate ProcNumbers(s: State) {
    forall p :: p in s.procs ==> p < s.next
  }

  lemma ProgressOther(cfg: Config, s: State, a: Action)
    requires ProgressOk(cfg, s) && FirstOps(s) && ProcNumbers(s) && !a.Run?
    ensures var t := Apply(cfg, s, a); ProgressOk(cfg, t) && FirstOps(t) && ProcNumbers(t)
  {
    hide Progressed;
    assert Apply(cfg, s, a).log == s.log;
    assert forall i :: 0 <= i < |s.log| ==> s.log[i].pid != s.next;
  }

  lemma {:induction false} ReadsDecide(cfg: Config, run: seq<Action>)
    requires Email.FixesEmails(cfg.normalise) && cfg.topology.TokensFromUserEvents()
    ensures ProgressOk(cfg, After(cfg, run)) && FirstOps(After(cfg, run)) && ProcNumbers(After(cfg, run))
  {
    hide ProgressOk, FirstOps, ProcNumbers, Inv, Exec;
    if run == [] {
      NothingRead(cfg);
    } else {
      var init, a := run[..|run| - 1], run[|run| - 1];
      var s := After(cfg, init);
      ReadsDecide(cfg, init);
      if !a.Run? {
        ProgressOther(cfg, s, a);
      } else if a.pid in s.procs && !s.procs[a.pid].Finished? {
        Sound(cfg, init);
        ProgressStep(cfg, s, a.pid, a.choice);
        FirstOpsStep(cfg, s, a.pid, a.choice);
      }
    }
  }

  lemma NothingRead(cfg: Config)
    ensures ProgressOk(cfg, INIT) && FirstOps(INIT) && ProcNumbers(INIT)
  {
  }

  // ---------- Exactly which uses of a token succeed ----------

  /** A use case that begins with the i-th event, a read, ran to its end without a fault of its own. */
  ghost predicate RanFine(s: State, i: nat) {
    && i < |s.log| && StartsWith(s.log[i].pc)
    && OwnFine(s.log, s.log[i].pid) && s.log[i].pid in s.procs && s.procs[s.log[i].pid].Finished?
  }

  ghost predicate Succeeded(s: State, i: nat)
    requires RanFine(s, i)
  {
    s.procs[s.log[i].pid].outcome.Success?
  }

  /** What a use of a token needs besides the token: a verification a code that is found valid, and a reset a
      password that can be hashed. */
  ghost predicate Passes(cfg: Config, s: State, i: nat)
    requires RanFine(s, i)
  {
    match s.log[i].pc
    case Session(pc) => pc.VerifyGet? && s.log[i].reply.Got? ==> CodeCheck(s.log, s.log[i].pid) == Some(true)
    case Account(a) => a.ResetGet? ==> Hashable(cfg, a.password)
    case _ => true
  }

  lemma SucceededExactlyWhen(cfg: Config, run: seq<Action>, i: nat)
    requires Email.FixesEmails(cfg.normalise) && cfg.topology.TokensFromUserEvents() && RanFine(After(cfg, run), i)
    ensures var s := After(cfg, run);
            && (Passes(cfg, s, i) ==> (Succeeded(s, i) <==> s.log[i].reply.Got?))
            && (s.log[i].pc.Session? && !Passes(cfg, s, i) ==> !Succeeded(s, i))
  {
    hide After, CodeCheck, Hashable;
    ReadsDecide(cfg, run);
    var s := After(cfg, run);
    assert Progressed(cfg, s.log, s.log[i], s.procs[s.log[i].pid]);
  }

  /** The read with which the use of this token begins. */
  ghost predicate UsesToken(s: State, i: nat, k: Key) {
    RanFine(s, i) && IsGet(s.log[i], k)
  }

  /** In every interleaving, whatever faults the others have: a use of a token without a fault of its own, that has
      what it needs besides, succeeds exactly when, at its read, the token was stored within its lifetime and
      no deletion of it had taken effect. */
  lemma RedeemsExactlyWhen(cfg: Config, run: seq<Action>, i: nat, k: Key)
    requires Email.FixesEmails(cfg.normalise) && cfg.topology.TokensFromUserEvents()
        && FreshRandoms(After(cfg, run).log)
    requires UsesToken(After(cfg, run), i, k) && Passes(cfg, After(cfg, run), i)
    ensures var s := After(cfg, run); Succeeded(s, i) <==> LiveAt(s.log, k, i)
  {
    hide After, Passes, LiveAt, FreshRandoms;
    SucceededExactlyWhen(cfg, run, i);
    AnsweredExactlyWhen(cfg, run, i, k);
  }

  /** So for a refresh, */
  lemma RefreshRedeemsExactlyWhen(cfg: Config, run: seq<Action>, i: nat, token: string)
    requires Email.FixesEmails(cfg.normalise) && cfg.topology.TokensFromUserEvents()
        && FreshRandoms(After(cfg, run).log)
    requires RanFine(After(cfg, run), i) && After(cfg, run).log[i].pc == Session(Sessions.RefreshGet(token))
    ensures var s := After(cfg, run); Succeeded(s, i) <==> LiveAt(s.log, Key(Refresh, token), i)
  {
    hide After, LiveAt, FreshRandoms;
    RedeemsExactlyWhen(cfg, run, i, Key(Refresh, token));
  }

  /** and for a verification, whose code has to be found valid as well. */
  lemma VerifyRedeemsExactlyWhen(cfg: Config, run: seq<Action>, i: nat, token: string, code: string)
    requires Email.FixesEmails(cfg.normalise) && cfg.topology.TokensFromUserEvents()
        && FreshRandoms(After(cfg, run).log)
    requires RanFine(After(cfg, run), i) && After(cfg, run).log[i].pc == Session(Sessions.VerifyGet(token, code))
    ensures var s := After(cfg, run);
            Succeeded(s, i) <==> LiveAt(s.log, Key(Mfa, token), i) && CodeCheck(s.log, s.log[i].pid) == Some(true)
  {
    hide After, CodeCheck, LiveAt, FreshRandoms;
    SucceededExactlyWhen(cfg, run, i);
    AnsweredExactlyWhen(cfg, run, i, Key(Mfa, token));
  }

  /** The m-th event stores the token, and the i-th comes later, within the lifetime. */
  predicate WithinLife(log: Log, k: Key, m: nat, i: nat) {
    m < i < |log| && Stores(log[m], k) && UsedInTime(k.kind, log[i].at - log[m].at)
  }

  /** The m-th event stores the token, and no deletion of it takes effect between that and the i-th. */
  ghost predicate KeptUntil(log: Log, k: Key, m: nat, i: nat) {
    m < i < |log| && Stores(log[m], k) && forall d :: m < d < i ==> !Deletes(log[d], k)
  }

  lemma KeptIsLive(log: Log, k: Key, m: nat, i: nat)
    requires FreshRandoms(log) && KeptUntil(log, k, m, i)
    ensures LiveAt(log, k, i) <==> UsedInTime(k.kind, log[i].at - log[m].at)
  {
    hide UsedInTime;
    if LiveAt(log, k, i) {
      var n: nat :| LiveSince(log, k, n, i);
      assert Apart(log, m, n);
    }
    if UsedInTime(k.kind, log[i].at - log[m].at) {
      KeptInPrefix(log, k, m, i);
      assert LiveSince(log, k, m, i);
    }
  }

  /** In every interleaving: a token that is not deleted can be refreshed for exactly seven days after it was
      stored, */
  lemma RefreshedForAWeek(cfg: Config, run: seq<Action>, m: nat, i: nat, token: string)
    requires Email.FixesEmails(cfg.normalise) && cfg.topology.TokensFromUserEvents()
        && FreshRandoms(After(cfg, run).log)
    requires RanFine(After(cfg, run), i) && After(cfg, run).log[i].pc == Session(Sessions.RefreshGet(token))
    requires KeptUntil(After(cfg, run).log, Key(Refresh, token), m, i)
    ensures var s := After(cfg, run); Succeeded(s, i) <==> s.log[i].at - s.log[m].at < 604_800_000_000_000
  {
    hide After, LiveAt, FreshRandoms, KeptUntil, Succeeded;
    RefreshRedeemsExactlyWhen(cfg, run, i, token);
    KeptIsLive(After(cfg, run).log, Key(Refresh, token), m, i);
  }

  /** exchanged, with a code that is found valid, for five minutes, */
  lemma VerifiedForFiveMinutes(cfg: Config, run: seq<Action>, m: nat, i: nat, token: string, code: string)
    requires Email.FixesEmails(cfg.normalise) && cfg.topology.TokensFromUserEvents()
        && FreshRandoms(After(cfg, run).log)
    requires RanFine(After(cfg, run), i) && After(cfg, run).log[i].pc == Session(Sessions.VerifyGet(token, code))
    requires KeptUntil(After(cfg, run).log, Key(Mfa, token), m, i)
    ensures var s := After(cfg, run);
            Succeeded(s, i) <==>
              s.log[i].at - s.log[m].at < 300_000_000_000 && CodeCheck(s.log, s.log[i].pid) == Some(true)
  {
    hide After, LiveAt, FreshRandoms, KeptUntil, Succeeded, CodeCheck;
    VerifyRedeemsExactlyWhen(cfg, run, i, token, code);
    KeptIsLive(After(cfg, run).log, Key(Mfa, token), m, i);
  }

  /** used to reset the password for fifteen minutes, */
  lemma ResetForFifteenMinutes(cfg: Config, run: seq<Action>, m: nat, i: nat, token: string, password: string)
    requires Email.FixesEmails(cfg.normalise) && cfg.topology.TokensFromUserEvents()
        && FreshRandoms(After(cfg, run).log) && Hashable(cfg, password)
    requires RanFine(After(cfg, run), i) && After(cfg, run).log[i].pc == Account(Accounts.ResetGet(token, password))
    requires KeptUntil(After(cfg, run).log, Key(Reset, token), m, i)
    ensures var s := After(cfg, run); Succeeded(s, i) <==> s.log[i].at - s.log[m].at < 900_000_000_000
  {
    hide After, LiveAt, FreshRandoms, KeptUntil, Succeeded, Hashable;
    RedeemsExactlyWhen(cfg, run, i, Key(Reset, token));
    KeptIsLive(After(cfg, run).log, Key(Reset, token), m, i);
  }

  /** and to confirm the address for a day. */
  lemma ConfirmedForADay(cfg: Config, run: seq<Action>, m: nat, i: nat, token: string)
    requires Email.FixesEmails(cfg.normalise) && cfg.topology.TokensFromUserEvents()
        && FreshRandoms(After(cfg, run).log)
    requires RanFine(After(cfg, run), i) && After(cfg, run).log[i].pc == Account(Accounts.ConfirmGet(token))
    requires KeptUntil(After(cfg, run).log, Key(Confirm, token), m, i)
    ensures var s := After(cfg, run); Succeeded(s, i) <==> s.log[i].at - s.log[m].at < 86_400_000_000_000
  {
    hide After, LiveAt, FreshRandoms, KeptUntil, Succeeded;
    RedeemsExactlyWhen(cfg, run, i, Key(Confirm, token));
    KeptIsLive(After(cfg, run).log, Key(Confirm, token), m, i);
  }

  /** Every deletion since the m-th event took effect after the i-th. */
  ghost predicate BeforeDeletions(log: Log, k: Key, m: nat, i: nat) {
    forall d :: m < d < |log| && Deletes(log[d], k) ==> i < d
  }

  lemma LiveBeforeDeletions(log: Log, k: Key, m: nat, i: nat)
    requires FreshRandoms(log) && WithinLife(log, k, m, i) && IsGet(log[i], k)
    ensures LiveAt(log, k, i) <==> BeforeDeletions(log, k, m, i)
  {
    if LiveAt(log, k, i) {
      var n: nat :| LiveSince(log, k, n, i);
      assert Apart(log, m, n);
      KeptInPrefix(log, k, m, i);
    }
    if BeforeDeletions(log, k, m, i) {
      KeptInPrefix(log, k, m, i);
      assert LiveSince(log, k, m, i);
    }
  }

  /** A use of the token without a fault of its own, begun within its lifetime, that has what it needs besides. */
  ghost predicate UsesInTime(cfg: Config, s: State, m: nat, i: nat, k: Key) {
    UsesToken(s, i, k) && Passes(cfg, s, i) && WithinLife(s.log, k, m, i)
  }

  /** In every interleaving: two uses of one token - refreshes, verifications, password resets or confirmations -
      that are both begun within its lifetime, have what they need besides, and have no fault of their own, both
      succeed exactly when both read the token before any deletion of it takes effect. */
  lemma BothUsesExactlyWhen(cfg: Config, run: seq<Action>, m: nat, i: nat, j: nat, k: Key)
    requires Email.FixesEmails(cfg.normalise) && cfg.topology.TokensFromUserEvents()
        && FreshRandoms(After(cfg, run).log)
    requires UsesInTime(cfg, After(cfg, run), m, i, k) && UsesInTime(cfg, After(cfg, run), m, j, k)
    ensures var s := After(cfg, run);
            Succeeded(s, i) && Succeeded(s, j) <==> BeforeDeletions(s.log, k, m, i) && BeforeDeletions(s.log, k, m, j)
  {
    hide After, LiveAt, FreshRandoms, Passes, Succeeded;
    RedeemsExactlyWhen(cfg, run, i, k);
    RedeemsExactlyWhen(cfg, run, j, k);
    LiveBeforeDeletions(After(cfg, run).log, k, m, i);
    LiveBeforeDeletions(After(cfg, run).log, k, m, j);
  }

  /** So two refreshes of one token both succeed, each before the other's deletion, */
  lemma BothRefreshExactlyWhen(cfg: Config, run: seq<Action>, m: nat, i: nat, j: nat, token: string)
    requires Email.FixesEmails(cfg.normalise) && cfg.topology.TokensFromUserEvents()
        && FreshRandoms(After(cfg, run).log)
    requires var s, k, read := After(cfg, run), Key(Refresh, token), Session(Sessions.RefreshGet(token));
             && RanFine(s, i) && s.log[i].pc == read && WithinLife(s.log, k, m, i)
             && RanFine(s, j) && s.log[j].pc == read && WithinLife(s.log, k, m, j)
    ensures var s, k := After(cfg, run), Key(Refresh, token);
            Succeeded(s, i) && Succeeded(s, j) <==> BeforeDeletions(s.log, k, m, i) && BeforeDeletions(s.log, k, m, j)
  {
    hide After, FreshRandoms, Succeeded, BeforeDeletions;
    BothUsesExactlyWhen(cfg, run, m, i, j, Key(Refresh, token));
  }

  /** two verifications with codes that are found valid both issue a session, */
  lemma BothVerifyExactlyWhen(cfg: Config, run: seq<Action>, m: nat, i: nat, j: nat, token: string)
    requires Email.FixesEmails(cfg.normalise) && cfg.topology.TokensFromUserEvents()
        && FreshRandoms(After(cfg, run).log)
    requires UsesInTime(cfg, After(cfg, run), m, i, Key(Mfa, token))
        && UsesInTime(cfg, After(cfg, run), m, j, Key(Mfa, token))
    ensures var s, k := After(cfg, run), Key(Mfa, token);
            && s.log[i].pc.Session? && s.log[j].pc.Session?
            && (Succeeded(s, i) && Succeeded(s, j) <==>
                BeforeDeletions(s.log, k, m, i) && BeforeDeletions(s.log, k, m, j))
  {
    hide After, FreshRandoms, Succeeded, BeforeDeletions;
    BothUsesExactlyWhen(cfg, run, m, i, j, Key(Mfa, token));
  }

  /** two resets with one token, whatever password each brings, both replace the password, */
  lemma BothResetExactlyWhen(cfg: Config, run: seq<Action>, m: nat, i: nat, j: nat, token: string, one: string,
        two: string)
    requires Email.FixesEmails(cfg.normalise) && cfg.topology.TokensFromUserEvents()
        && FreshRandoms(After(cfg, run).log)
    requires Hashable(cfg, one) && Hashable(cfg, two)
    requires var s, k := After(cfg, run), Key(Reset, token);
             && RanFine(s, i) && s.log[i].pc == Account(Accounts.ResetGet(token, one)) && WithinLife(s.log, k, m, i)
             && RanFine(s, j) && s.log[j].pc == Account(Accounts.ResetGet(token, two)) && WithinLife(s.log, k, m, j)
    ensures var s, k := After(cfg, run), Key(Reset, token);
            Succeeded(s, i) && Succeeded(s, j) <==> BeforeDeletions(s.log, k, m, i) && BeforeDeletions(s.log, k, m, j)
  {
    hide After, FreshRandoms, Succeeded, BeforeDeletions, Hashable;
    BothUsesExactlyWhen(cfg, run, m, i, j, Key(Reset, token));
  }

  /** and two confirmations with one token both succeed, exactly then. */
  lemma BothConfirmExactlyWhen(cfg: Config, run: seq<Action>, m: nat, i: nat, j: nat, token: string)
    requires Email.FixesEmails(cfg.normalise) && cfg.topology.TokensFromUserEvents()
        && FreshRandoms(After(cfg, run).log)
    requires var s, k, read := After(cfg, run), Key(Confirm, token), Account(Accounts.ConfirmGet(token));
             && RanFine(s, i) && s.log[i].pc == read && WithinLife(s.log, k, m, i)
             && RanFine(s, j) && s.log[j].pc == read && WithinLife(s.log, k, m, j)
    ensures var s, k := After(cfg, run), Key(Confirm, token);
            Succeeded(s, i) && Succeeded(s, j) <==> BeforeDeletions(s.log, k, m, i) && BeforeDeletions(s.log, k, m, j)
  {
    hide After, FreshRandoms, Succeeded, BeforeDeletions;
    BothUsesExactlyWhen(cfg, run, m, i, j, Key(Confirm, token));
  }

  /** A process that begins with a read does nothing before it. */
  ghost predicate ReadsComeFirst(log: Log) {
    forall d, i :: 0 <= d < i < |log| && StartsWith(log[i].pc) ==> log[d].pid != log[i].pid
  }

  lemma {:induction false} NothingBeforeReads(cfg: Config, run: seq<Action>)
    requires Email.FixesEmails(cfg.normalise) && cfg.topology.TokensFromUserEvents()
    ensures ReadsComeFirst(After(cfg, run).log)
  {
    hide Apply, ProgressOk, ProcNumbers;
    if run != [] {
      var init, a := run[..|run| - 1], run[|run| - 1];
      NothingBeforeReads(cfg, init);
      ReadsDecide(cfg, init);
      LogGrowsBy(cfg, After(cfg, init), a);
    }
  }

  /** Every deletion since the m-th event is by one of two processes. */
  ghost predicate OnlyTwoDelete(log: Log, k: Key, m: nat, one: Pid, two: Pid) {
    forall d :: m < d < |log| && Deletes(log[d], k) ==> log[d].pid == one || log[d].pid == two
  }

  /** Every deletion since the m-th event that this process made took effect after the i-th. */
  ghost predicate BeforeDeletionsBy(log: Log, k: Key, m: nat, pid: Pid, i: nat) {
    forall d :: m < d < |log| && Deletes(log[d], k) && log[d].pid == pid ==> i < d
  }

  /** In particular, where nobody else deletes the token: exactly when each of the two reads it before the other's
      deletion takes effect. */
  lemma EachBeforeTheOther(cfg: Config, run: seq<Action>, m: nat, i: nat, j: nat, k: Key)
    requires Email.FixesEmails(cfg.normalise) && cfg.topology.TokensFromUserEvents()
        && FreshRandoms(After(cfg, run).log)
    requires UsesInTime(cfg, After(cfg, run), m, i, k) && UsesInTime(cfg, After(cfg, run), m, j, k)
    requires var log := After(cfg, run).log; OnlyTwoDelete(log, k, m, log[i].pid, log[j].pid)
    ensures var s := After(cfg, run);
            Succeeded(s, i) && Succeeded(s, j) <==>
              BeforeDeletionsBy(s.log, k, m, s.log[j].pid, i) && BeforeDeletionsBy(s.log, k, m, s.log[i].pid, j)
  {
    hide After, Succeeded, FreshRandoms, Deletes, Passes;
    BothUsesExactlyWhen(cfg, run, m, i, j, k);
    NothingBeforeReads(cfg, run);
    DeletesAfterReading(After(cfg, run).log, k, m, i);
    DeletesAfterReading(After(cfg, run).log, k, m, j);
  }

  lemma DeletesAfterReading(log: Log, k: Key, m: nat, i: nat)
    requires ReadsComeFirst(log) && i < |log| && StartsWith(log[i].pc)
    ensures BeforeDeletionsBy(log, k, m, log[i].pid, i)
  {
    assert !Deletes(log[i], k);
  }

  /** In every interleaving: a refresh without a fault of its own, begun within the lifetime of a token that
      only a logout deletes, succeeds exactly when it reads the token before the logout takes effect. */
  lemma LogoutStopsExactly(cfg: Config, run: seq<Action>, m: nat, i: nat, d: nat, token: string)
    requires Email.FixesEmails(cfg.normalise) && cfg.topology.TokensFromUserEvents()
        && FreshRandoms(After(cfg, run).log)
    requires var s, k := After(cfg, run), Key(Refresh, token);
             && RanFine(s, i) && s.log[i].pc == Session(Sessions.RefreshGet(token)) && WithinLife(s.log, k, m, i)
             && m < d < |s.log| && s.log[d].pc == Session(Sessions.LogoutDel(token)) && Deletes(s.log[d], k)
             && forall other :: m < other < i && Deletes(s.log[other], k) ==> other == d
    ensures Succeeded(After(cfg, run), i) <==> i < d
  {
    hide After, LiveAt, FreshRandoms;
    var log, k := After(cfg, run).log, Key(Refresh, token);
    RefreshRedeemsExactlyWhen(cfg, run, i, token);
    LiveBeforeDeletions(log, k, m, i);
  }

  // ---------- With any faults ----------

  /** The event ends a use of the token: it is about to store the session the token is exchanged for. */
  predicate Exchanges(e: Event, k: Key, userId: Id) {
    e.pc.Session?
    && match e.pc.s
       case VerifyMintRefresh(token, u) => k == Key(Mfa, token) && u.id == userId
       case RefreshMint(token, u) => k == Key(Refresh, token) && u.id == userId
       case _ => false
  }

  /** The r-th event reads the token, which an earlier one stored, and every deletion since that one took effect
      later than the read. */
  ghost predicate ReadFirst(log: Log, k: Key, userId: Id, r: nat) {
    r < |log| && Reads(log[r], k, userId)
    && exists m: nat :: m < r && Stores(log[m], k) && BeforeDeletions(log, k, m, r)
  }

  lemma ReadsAreFirst(cfg: Config, run: seq<Action>, r: nat, k: Key, userId: Id)
    requires var log := After(cfg, run).log; FreshRandoms(log) && r < |log| && Reads(log[r], k, userId)
    ensures ReadFirst(After(cfg, run).log, k, userId, r)
  {
    hide After, EntryAt;
    var log := After(cfg, run).log;
    GetsReplay(cfg, run, r, k);
    var m := StoredFrom(log[..r], k);
    assert log[..r][m] == log[m];
    KeptInPrefix(log, k, m, r);
  }

  lemma ExchangerRead(cfg: Config, log: Log, e: Event, k: Key, userId: Id) returns (r: nat)
    requires Knows(cfg, log, e.pid, e.pc) && Exchanges(e, k, userId)
    ensures r < |log| && log[r].pid == e.pid && Reads(log[r], k, userId)
  {
    hide FoundUser, CodeValid, MfaFromLogin, Descends;
    if e.pc.s.RefreshMint? {
      r :| 0 <= r < |log| && log[r].pid == e.pid && Reads(log[r], k, userId);
    } else {
      r :| 0 <= r < |log| && log[r].pid == e.pid && Reads(log[r], k, userId);
    }
  }

  /** In every run, with any faults: a process that exchanges a token for a session had read it before any
      deletion of it took effect. So of two exchanges of one token, the later read comes before the first
      deletion: if the two do not overlap and the deletion takes effect, there is no second one. */
  lemma ExchangedBeforeDeleted(cfg: Config, run: seq<Action>, i: nat, k: Key, userId: Id) returns (r: nat)
    requires Email.FixesEmails(cfg.normalise) && FreshRandoms(After(cfg, run).log)
    requires i < |After(cfg, run).log| && Exchanges(After(cfg, run).log[i], k, userId)
    ensures var log := After(cfg, run).log; r < i && log[r].pid == log[i].pid && ReadFirst(log, k, userId, r)
  {
    hide After, Knows, Exchanges, ReadFirst;
    var log := After(cfg, run).log;
    EventsKnow(cfg, run, i);
    r := ExchangerRead(cfg, log[..i], log[i], k, userId);
    assert log[..i][r] == log[r];
    ReadsAreFirst(cfg, run, r, k, userId);
  }
}
