/** Which hashes a user can come to have while no password reset of it is under way: where they come from, and
    that a set of hashes that holds all of them is never left. */
module Hashes {
  import opened Wrappers
  import opened Users
  import opened Store
  import opened Topology
  import opened Invariant
  import opened Machine
  import opened Safety
  import opened Serial
  import Email
  import Sessions
  import Accounts
  import Handlers

  /** The passwords that logins try, and the salts that the hashing service draws. */
  datatype Use = Use(passwords: iset<string>, salts: iset<Salt>)

  /** A set of hashes. */
  type Hashes = string -> bool

  // ---------- Where a hash of a user can come from ----------

  predicate QueuesUpgrades(cfg: Config, event: EventType) {
    cfg.topology.Routes(event) && cfg.topology.JobOf(event).Upgrade?
  }

  /** The hash that an event brings the user, once it is handled. */
  function Carried(cfg: Config, event: EventType, p: Payload, id: Id): Option<string> {
    if QueuesUpgrades(cfg, event) && p.Json? && p.userId == id && p.newHash != "" then Some(p.newHash) else None
  }

  ghost predicate Within(h: Option<string>, hashes: Hashes) {
    h.Some? ==> hashes(h.value)
  }

  /** The update of this user will not fail for its secret. */
  predicate SecretFits(u: UserState) {
    |u.totpSecret| <= 128
  }

  /** The user that a confirmation or set-up may come to write back as it has loaded it. */
  function WritesBack(pc: Accounts.Pc): Option<UserState> {
    match pc
    case ConfirmUpdate(_, u) => if SecretFits(u) then Some(u) else None
    case SetupSecret(u) => Some(u)
    case SetupUpdate(u) => if SecretFits(u) then Some(u) else None
    case _ => None
  }

  /** Every hash of the password that a login may have queued is in the set. */
  ghost predicate MakesIn(cfg: Config, use: Use, password: string, hashes: Hashes) {
    QueuesUpgrades(cfg, PasswordUpgrade) && password != "" ==>
      forall salt :: salt in use.salts && cfg.hash(password, salt) != "" ==> hashes(cfg.hash(password, salt))
  }

  /** The password matches the hash, which is not of the latest version. */
  predicate AsksForUpgrade(cfg: Config, password: string, hash: string) {
    cfg.compare(password, hash) == CompareAnswer(true, true)
  }

  ghost predicate SessionIn(cfg: Config, use: Use, pc: Sessions.Pc, id: Id, hashes: Hashes) {
    match pc
    case LoginCompare(u, password) =>
      u.id == id && AsksForUpgrade(cfg, password, u.hash) ==> MakesIn(cfg, use, password, hashes)
    case LoginRehash(u, password) => u.id == id ==> MakesIn(cfg, use, password, hashes)
    case LoginQueueUpgrade(u, newHash) => Within(Carried(cfg, PasswordUpgrade, UpgradePayload(u.id, newHash), id),
        hashes)
    case _ => true
  }

  ghost predicate AccountIn(pc: Accounts.Pc, id: Id, hashes: Hashes) {
    var u := WritesBack(pc);
    u.Some? && u.value.id == id ==> hashes(u.value.hash)
  }

  ghost predicate HandlerIn(pc: Handlers.Pc, id: Id, hashes: Hashes) {
    match pc
    case UpgradeFind(userId, newHash) => userId == id && newHash != "" ==> hashes(newHash)
    case UpgradeUpdate(u) => u.id == id && SecretFits(u) ==> hashes(u.hash)
    case _ => true
  }

  ghost predicate ItemIn(cfg: Config, item: Item, id: Id, hashes: Hashes) {
    Within(Carried(cfg, item.event, item.payload, id), hashes)
  }

  ghost predicate RelayIn(cfg: Config, pc: RelayPc, id: Id, hashes: Hashes) {
    pc.Publishing? ==> forall i :: 0 <= i < |pc.batch| ==> ItemIn(cfg, pc.batch[i], id, hashes)
  }

  /** What the process may come to store or queue for the user is in the set. */
  ghost predicate ProcIn(cfg: Config, use: Use, p: Proc, id: Id, hashes: Hashes) {
    match p
    case Session(s) => SessionIn(cfg, use, s, id, hashes)
    case Account(a) => AccountIn(a, id, hashes)
    case Handling(_, h) => HandlerIn(h, id, hashes)
    case Relay(r) => RelayIn(cfg, r, id, hashes)
    case _ => true
  }

  ghost predicate StoredIn(sh: Shared, id: Id, hashes: Hashes) {
    id in sh.users && hashes(sh.users[id].hash)
  }

  /** So are the upgrades in rows that are not published yet, */
  ghost predicate RowsIn(cfg: Config, outbox: seq<OutboxRow>, id: Id, hashes: Hashes) {
    forall r: nat :: Unpublished(outbox, r) ==> Within(Carried(cfg, outbox[r].event, outbox[r].payload, id), hashes)
  }

  predicate Pends(sh: Shared, m: nat) {
    (m in sh.ready || m in sh.unacked) && m < |sh.accepted|
  }

  /** and in messages that wait or are held. */
  ghost predicate MessagesIn(cfg: Config, sh: Shared, id: Id, hashes: Hashes) {
    forall m: nat :: Pends(sh, m) ==> Within(Carried(cfg, sh.accepted[m].event, sh.accepted[m].payload, id), hashes)
  }

  /** No upgrade of the user that can still come to be handled carries another hash. */
  ghost predicate UpgradesIn(cfg: Config, sh: Shared, id: Id, hashes: Hashes) {
    RowsIn(cfg, sh.outbox, id, hashes) && MessagesIn(cfg, sh, id, hashes)
  }

  ghost predicate ProcsIn(cfg: Config, use: Use, s: State, id: Id, hashes: Hashes) {
    forall p :: p in s.procs ==> ProcIn(cfg, use, s.procs[p], id, hashes)
  }

  /** All hashes that the user has, or can come to have by what is under way, are in the set. */
  ghost predicate HashesIn(cfg: Config, use: Use, s: State, id: Id, hashes: Hashes) {
    StoredIn(s.sh, id, hashes) && UpgradesIn(cfg, s.sh, id, hashes) && ProcsIn(cfg, use, s, id, hashes)
  }

  /** A login with a password in use that finds a hash of the set has none but such hashes queued. */
  ghost predicate ClosedUnder(cfg: Config, use: Use, hashes: Hashes) {
    forall h, password :: hashes(h) && password in use.passwords && AsksForUpgrade(cfg, password, h) ==>
        MakesIn(cfg, use, password, hashes)
  }

  // ---------- Which runs are meant ----------

  predicate LoginTries(p: Proc, password: string) {
    p.Session? && p.s.LoginFind? && p.s.password == password
  }

  ghost predicate TriesInUse(use: Use, p: Proc) {
    forall password :: LoginTries(p, password) ==> password in use.passwords
  }

  /** The logins that have just started try passwords in use. */
  ghost predicate LoginsInUse(use: Use, s: State) {
    forall p :: p in s.procs ==> TriesInUse(use, s.procs[p])
  }

  /** Every login tries a password in use, and every salt is one in use. */
  ghost predicate Allowed(use: Use, a: Action) {
    match a
    case Start(call) => call.Login? ==> call.password in use.passwords
    case Run(_, ch) => ch.salt in use.salts
    case _ => true
  }

  ghost predicate AllAllowed(use: Use, actions: seq<Action>) {
    forall i :: 0 <= i < |actions| ==> Allowed(use, actions[i])
  }

  /** The process is a password reset that has loaded this user. */
  predicate Resets(p: Proc, id: Id) {
    p.Account?
    && match p.a
       case ResetHash(_, _, u) => u.id == id
       case ResetUpdate(_, u) => u.id == id
       case _ => false
  }

  ghost predicate NoneResets(s: State, id: Id) {
    forall p :: p in s.procs ==> !Resets(s.procs[p], id)
  }

  /** No password reset of this user gets so far as to load it. */
  ghost predicate WithoutReset(cfg: Config, s: State, more: seq<Action>, id: Id)
    decreases |more|
  {
    NoneResets(s, id) && (more != [] ==> WithoutReset(cfg, Apply(cfg, s, more[0]), more[1..], id))
  }

  // ---------- One operation ----------

  /** What a process is about to write. */
  ghost predicate OpIn(cfg: Config, op: Op, id: Id, hashes: Hashes) {
    match op
    case Update(u) => u.id == id && SecretFits(u) ==> hashes(u.hash)
    case SaveCommand(e, p) => Within(Carried(cfg, e, p, id), hashes)
    case Publish(item) => ItemIn(cfg, item, id, hashes)
    case _ => true
  }

  lemma NextOpIn(cfg: Config, use: Use, sh: Shared, p: Proc, id: Id, hashes: Hashes)
    requires !p.Finished? && ProcOk(cfg, sh, p) && ProcIn(cfg, use, p, id, hashes) && !Resets(p, id)
    ensures OpIn(cfg, NextOp(p), id, hashes)
  {
    hide QueuesUpgrades, MakesIn, AsksForUpgrade, UserOk, KnownUser;
  }

  lemma UsersHash(cfg: Config, sh: Shared, op: Op, ch: Choice, id: Id)
    requires id in sh.users
    ensures var t := Exec(cfg, sh, op, ch).0;
            && id in t.users
            && (t.users[id].hash == sh.users[id].hash
                || (op.Update? && op.user.id == id && SecretFits(op.user) && t.users[id].hash == op.user.hash))
  {
    if !op.Save? && !op.Update? && !op.UpdateRoles? {
      hide Exec;
      UsersUnchanged(cfg, sh, op, ch);
    }
  }

  /** Where a row that is not published after an operation was before it. */
  predicate RowFrom(before: seq<OutboxRow>, op: Op, row: OutboxRow, r: nat) {
    || (Unpublished(before, r) && before[r] == row)
    || (op.SaveCommand? && row.event == op.event && row.payload == op.payload)
    || (row.payload.Json? && row.payload.newHash == "")
  }

  lemma OutboxUnchanged(cfg: Config, sh: Shared, op: Op, ch: Choice)
    requires !op.Save? && !op.SaveCommand? && !op.Mark?
    ensures Exec(cfg, sh, op, ch).0.outbox == sh.outbox
  {
  }

  lemma RowsAfter(cfg: Config, sh: Shared, op: Op, ch: Choice)
    ensures var t := Exec(cfg, sh, op, ch).0;
            forall r: nat :: Unpublished(t.outbox, r) ==> RowFrom(sh.outbox, op, t.outbox[r], r)
  {
    if !op.Save? && !op.SaveCommand? && !op.Mark? {
      hide Exec;
      OutboxUnchanged(cfg, sh, op, ch);
    }
  }

  /** Where a live message after an operation was before it. */
  predicate MessageFrom(before: Shared, op: Op, message: Message, m: nat) {
    || (Pends(before, m) && before.accepted[m] == message)
    || (op.Publish? && message.event == op.item.event && message.payload == op.item.payload)
  }

  lemma QueueUnchanged(cfg: Config, sh: Shared, op: Op, ch: Choice)
    requires !op.Publish? && !op.Ack? && !op.Nack?
    ensures var t := Exec(cfg, sh, op, ch).0;
            t.accepted == sh.accepted && t.ready == sh.ready && t.unacked == sh.unacked
  {
    if !Writes(op) {
      hide Perform;
      ReadsOnly(cfg, Later(sh, ch), op, ch);
    }
  }

  lemma MessagesAfter(cfg: Config, sh: Shared, op: Op, ch: Choice)
    requires QueueOk(cfg, sh) && (op.Nack? ==> op.message in sh.unacked)
    ensures var t := Exec(cfg, sh, op, ch).0; forall m: nat :: Pends(t, m) ==> MessageFrom(sh, op, t.accepted[m], m)
  {
    assert forall m :: m in sh.ready || m in sh.unacked ==> m in Routed(cfg, sh);
    if !op.Publish? && !op.Ack? && !op.Nack? {
      hide Exec;
      QueueUnchanged(cfg, sh, op, ch);
    }
  }

  lemma UpgradesStay(cfg: Config, sh: Shared, op: Op, ch: Choice, id: Id, hashes: Hashes)
    requires ShOk(cfg, sh) && OpOk(cfg, sh, op) && UpgradesIn(cfg, sh, id, hashes) && OpIn(cfg, op, id, hashes)
    ensures UpgradesIn(cfg, Exec(cfg, sh, op, ch).0, id, hashes)
  {
    hide Exec, QueuesUpgrades, UsersOk, AcceptedOk, PublishedOk, TokensOk, ProfilesOk, QueueOk;
    RowsAfter(cfg, sh, op, ch);
    MessagesAfter(cfg, sh, op, ch);
    var t := Exec(cfg, sh, op, ch).0;
    forall r: nat | Unpublished(t.outbox, r)
      ensures Within(Carried(cfg, t.outbox[r].event, t.outbox[r].payload, id), hashes)
    {
      assert RowFrom(sh.outbox, op, t.outbox[r], r);
    }
    forall m: nat | Pends(t, m)
      ensures Within(Carried(cfg, t.accepted[m].event, t.accepted[m].payload, id), hashes)
    {
      assert MessageFrom(sh, op, t.accepted[m], m);
    }
  }

  ghost predicate MadeBy(cfg: Config, use: Use, password: string, hash: string) {
    exists salt :: salt in use.salts && hash == cfg.hash(password, salt)
  }

  /** What an answer tells about hashes. */
  ghost predicate ReplyIn(cfg: Config, use: Use, op: Op, reply: Reply, id: Id, hashes: Hashes) {
    match reply
    case Found(u) =>
      && ((op.FindByEmail? || op.FindByID?) && u.id == id ==> hashes(u.hash))
      && (op.FindByID? ==> u.id == op.id)
    case Compared(matches, needsUpgrade) =>
      op.Compare? && matches && needsUpgrade ==> AsksForUpgrade(cfg, op.plainText, op.hash)
    case Hashed(hash) =>
      op.Hash? ==> op.plainText != "" && hash != "" && MadeBy(cfg, use, op.plainText, hash)
    case Rows(items) => forall i :: 0 <= i < |items| ==> ItemIn(cfg, items[i], id, hashes)
    case _ => true
  }

  lemma FoundHash(cfg: Config, sh: Shared, op: Op, ch: Choice)
    requires TableOk(sh.users) && Email.FixesEmails(cfg.normalise) && (op.FindByEmail? || op.FindByID?)
    ensures var reply := Exec(cfg, sh, op, ch).1;
            reply.Found? ==>
              && reply.user.id in sh.users && reply.user.hash == sh.users[reply.user.id].hash
              && (op.FindByID? ==> reply.user.id == op.id)
  {
    var s := Later(sh, ch);
    if op.FindByEmail? {
      var row := RowByEmail(sh.users, op.email);
      if row.Some? {
        LoadedUser(cfg.normalise, row.value, s.now);
      }
    } else if op.id in sh.users {
      LoadedUser(cfg.normalise, sh.users[op.id], s.now);
    }
  }

  lemma TableSound(cfg: Config, sh: Shared)
    requires ShOk(cfg, sh)
    ensures TableOk(sh.users)
  {
  }

  lemma RowsAnswer(cfg: Config, sh: Shared, ch: Choice, id: Id, hashes: Hashes)
    requires RowsIn(cfg, sh.outbox, id, hashes)
    ensures var reply := Exec(cfg, sh, SelectBatch, ch).1;
            reply.Rows? ==> forall i :: 0 <= i < |reply.items| ==> ItemIn(cfg, reply.items[i], id, hashes)
  {
  }

  lemma OthersAnswerIn(cfg: Config, use: Use, sh: Shared, op: Op, ch: Choice, id: Id, hashes: Hashes)
    requires !op.FindByEmail? && !op.FindByID? && !op.SelectBatch? && ch.salt in use.salts
    ensures ReplyIn(cfg, use, op, Exec(cfg, sh, op, ch).1, id, hashes)
  {
    hide Inserted, Marked, Overwritten, EmailTaken, RowByEmail, ItemIn;
  }

  lemma AnswersIn(cfg: Config, use: Use, sh: Shared, op: Op, ch: Choice, id: Id, hashes: Hashes)
    requires ShOk(cfg, sh) && Email.FixesEmails(cfg.normalise) && ch.salt in use.salts
    requires StoredIn(sh, id, hashes) && RowsIn(cfg, sh.outbox, id, hashes)
    ensures ReplyIn(cfg, use, op, Exec(cfg, sh, op, ch).1, id, hashes)
  {
    hide Exec, ShOk, RowsIn, ItemIn;
    TableSound(cfg, sh);
    if op.FindByEmail? || op.FindByID? {
      FoundHash(cfg, sh, op, ch);
      FindReplies(cfg, sh, op, ch);
    } else if op.SelectBatch? {
      RowsAnswer(cfg, sh, ch, id, hashes);
      SelectReplies(cfg, sh, ch);
    } else {
      OthersAnswerIn(cfg, use, sh, op, ch, id, hashes);
    }
  }

  lemma FindReplies(cfg: Config, sh: Shared, op: Op, ch: Choice)
    requires op.FindByEmail? || op.FindByID?
    ensures var reply := Exec(cfg, sh, op, ch).1; reply.Found? || reply.Absent? || reply.Failed?
  {
  }

  lemma SelectReplies(cfg: Config, sh: Shared, ch: Choice)
    ensures var reply := Exec(cfg, sh, SelectBatch, ch).1; reply.Rows? || reply.Failed?
  {
  }

  lemma SessionGoesOn(cfg: Config, use: Use, pc: Sessions.Pc, reply: Reply, id: Id, hashes: Hashes)
    requires SessionIn(cfg, use, pc, id, hashes) && ClosedUnder(cfg, use, hashes) && TriesInUse(use, Session(pc))
    requires ReplyIn(cfg, use, Sessions.NextOp(pc), reply, id, hashes)
    ensures var n := Sessions.Resume(pc, reply); n.Go? ==> SessionIn(cfg, use, n.pc, id, hashes)
  {
    hide AsksForUpgrade, QueuesUpgrades;
    if pc.LoginFind? {
      assert LoginTries(Session(pc), pc.password);
    }
  }

  lemma AccountGoesOn(cfg: Config, use: Use, pc: Accounts.Pc, reply: Reply, now: Time, id: Id, hashes: Hashes)
    requires AccountIn(pc, id, hashes) && ReplyIn(cfg, use, Accounts.NextOp(pc), reply, id, hashes)
    ensures var n := Accounts.Resume(cfg, pc, reply, now); n.Go? ==> AccountIn(n.pc, id, hashes)
  {
    hide AsksForUpgrade;
  }

  lemma HandlerGoesOn(pc: Handlers.Pc, reply: Reply, now: Time, id: Id, hashes: Hashes)
    requires HandlerIn(pc, id, hashes) && (pc.UpgradeFind? && reply.Found? ==> reply.user.id == pc.userId)
    ensures var n := Handlers.Resume(pc, reply, now); n.Go? ==> HandlerIn(n.pc, id, hashes)
  {
  }

  lemma RelayGoesOn(cfg: Config, pc: RelayPc, reply: Reply, id: Id, hashes: Hashes)
    requires RelayIn(cfg, pc, id, hashes)
    requires reply.Rows? ==> forall i :: 0 <= i < |reply.items| ==> ItemIn(cfg, reply.items[i], id, hashes)
    ensures var q := RelayResume(pc, reply); q.Relay? ==> RelayIn(cfg, q.r, id, hashes)
  {
    hide ItemIn;
  }

  lemma ProcGoesOn(cfg: Config, use: Use, p: Proc, reply: Reply, now: Time, id: Id, hashes: Hashes)
    requires !p.Finished? && ProcIn(cfg, use, p, id, hashes) && ClosedUnder(cfg, use, hashes) && TriesInUse(use, p)
    requires ReplyIn(cfg, use, NextOp(p), reply, id, hashes)
    ensures var q := Resume(cfg, p, reply, now); ProcIn(cfg, use, q, id, hashes) && TriesInUse(use, q)
  {
    hide SessionIn, AccountIn, HandlerIn, RelayIn, ClosedUnder, ItemIn, AsksForUpgrade;
    match p
    case Session(s) => SessionGoesOn(cfg, use, s, reply, id, hashes);
    case Account(a) => AccountGoesOn(cfg, use, a, reply, now, id, hashes);
    case Handling(_, h) => HandlerGoesOn(h, reply, now, id, hashes);
    case Settling(_, _) =>
    case Relay(r) => RelayGoesOn(cfg, r, reply, id, hashes);
  }

  /** One operation of a process. */
  lemma StepIn(cfg: Config, use: Use, sh: Shared, p: Proc, ch: Choice, id: Id, hashes: Hashes)
    requires ShOk(cfg, sh) && Email.FixesEmails(cfg.normalise) && !p.Finished? && ProcOk(cfg, sh, p)
    requires StoredIn(sh, id, hashes) && UpgradesIn(cfg, sh, id, hashes) && ProcIn(cfg, use, p, id, hashes)
    requires ClosedUnder(cfg, use, hashes) && TriesInUse(use, p) && !Resets(p, id) && ch.salt in use.salts
    ensures var (t, reply) := Exec(cfg, sh, NextOp(p), ch);
            var q := Resume(cfg, p, reply, t.now);
            StoredIn(t, id, hashes) && UpgradesIn(cfg, t, id, hashes) && ProcIn(cfg, use, q, id, hashes)
                && TriesInUse(use, q)
  {
    hide Exec, ShOk, ProcOk, OpOk, RowsIn, MessagesIn, ProcIn, ClosedUnder, ReplyIn, TriesInUse;
    var (t, reply) := Exec(cfg, sh, NextOp(p), ch);
    NextOpIn(cfg, use, sh, p, id, hashes);
    NextOpOk(cfg, sh, p);
    UsersHash(cfg, sh, NextOp(p), ch, id);
    UpgradesStay(cfg, sh, NextOp(p), ch, id, hashes);
    AnswersIn(cfg, use, sh, NextOp(p), ch, id, hashes);
    ProcGoesOn(cfg, use, p, reply, t.now, id, hashes);
  }

  // ---------- Runs ----------

  lemma BeginsIn(cfg: Config, use: Use, call: Call, id: Id, hashes: Hashes)
    requires Allowed(use, Start(call))
    ensures ProcIn(cfg, use, Begin(cfg, call), id, hashes) && TriesInUse(use, Begin(cfg, call))
  {
  }

  lemma HandlesIn(cfg: Config, use: Use, m: nat, message: Message, id: Id, hashes: Hashes)
    requires cfg.topology.Routes(message.event) && Within(Carried(cfg, message.event, message.payload, id), hashes)
    ensures var p := OfHandler(m, Handlers.Handle(cfg, message)); ProcIn(cfg, use, p, id, hashes) && TriesInUse(use, p)
  {
  }

  lemma WaitingIsRouted(cfg: Config, sh: Shared, m: nat)
    requires ShOk(cfg, sh) && Pends(sh, m)
    ensures cfg.topology.Routes(sh.accepted[m].event)
  {
    hide UsersOk, AcceptedOk, PublishedOk, TokensOk, ProfilesOk;
    assert m in Routed(cfg, sh);
  }

  lemma SameUpgrades(cfg: Config, a: Shared, b: Shared, id: Id, hashes: Hashes)
    requires UpgradesIn(cfg, a, id, hashes) && b.outbox == a.outbox && b.accepted == a.accepted
    requires b.ready + b.unacked <= a.ready + a.unacked
    ensures UpgradesIn(cfg, b, id, hashes)
  {
    hide QueuesUpgrades, Carried, Within;
    forall m: nat | Pends(b, m)
      ensures Pends(a, m)
    {
      assert m in b.ready + b.unacked;
    }
  }

  lemma OthersStayIn(cfg: Config, use: Use, s: State, a: Action, id: Id, hashes: Hashes)
    requires ShOk(cfg, s.sh) && !a.Run? && Allowed(use, a) && HashesIn(cfg, use, s, id, hashes) && LoginsInUse(use, s)
    requires forall p :: p in s.procs && Holds(s.procs[p]).Some? ==> Holds(s.procs[p]).value in s.sh.unacked
    ensures HashesIn(cfg, use, Apply(cfg, s, a), id, hashes) && LoginsInUse(use, Apply(cfg, s, a))
  {
    hide ShOk, ProcIn, TriesInUse, UpgradesIn, Carried;
    SameUpgrades(cfg, s.sh, Apply(cfg, s, a).sh, id, hashes);
    if a.Start? {
      BeginsIn(cfg, use, a.call, id, hashes);
    } else if a.Deliver? && a.message in s.sh.ready && a.message < |s.sh.accepted| {
      WaitingIsRouted(cfg, s.sh, a.message);
      WaitingIn(cfg, s.sh, a.message, id, hashes);
      HandlesIn(cfg, use, a.message, s.sh.accepted[a.message], id, hashes);
    }
  }

  lemma WaitingIn(cfg: Config, sh: Shared, m: nat, id: Id, hashes: Hashes)
    requires UpgradesIn(cfg, sh, id, hashes) && Pends(sh, m)
    ensures Within(Carried(cfg, sh.accepted[m].event, sh.accepted[m].payload, id), hashes)
  {
  }

  lemma RunStaysIn(cfg: Config, use: Use, s: State, pid: Pid, ch: Choice, id: Id, hashes: Hashes)
    requires ShOk(cfg, s.sh) && ProcsOk(cfg, s) && Email.FixesEmails(cfg.normalise) && ch.salt in use.salts
    requires HashesIn(cfg, use, s, id, hashes) && LoginsInUse(use, s) && ClosedUnder(cfg, use, hashes)
    requires NoneResets(s, id) && pid in s.procs && !s.procs[pid].Finished?
    ensures var t := RunProc(cfg, s, pid, ch); HashesIn(cfg, use, t, id, hashes) && LoginsInUse(use, t)
  {
    hide Exec, ShOk, ProcOk, ProcIn, TriesInUse, StoredIn, UpgradesIn, ClosedUnder, Resets;
    StepIn(cfg, use, s.sh, s.procs[pid], ch, id, hashes);
  }

  lemma ApplyStaysIn(cfg: Config, use: Use, s: State, a: Action, id: Id, hashes: Hashes)
    requires Inv(cfg, s) && Email.FixesEmails(cfg.normalise) && Allowed(use, a) && NoneResets(s, id)
    requires HashesIn(cfg, use, s, id, hashes) && LoginsInUse(use, s) && ClosedUnder(cfg, use, hashes)
    ensures HashesIn(cfg, use, Apply(cfg, s, a), id, hashes) && LoginsInUse(use, Apply(cfg, s, a))
  {
    hide HashesIn, LoginsInUse, ClosedUnder, ShOk, NoneResets;
    if !a.Run? {
      ProcsHoldUnacked(cfg, s);
      OthersStayIn(cfg, use, s, a, id, hashes);
    } else if a.pid in s.procs && !s.procs[a.pid].Finished? {
      RunStaysIn(cfg, use, s, a.pid, a.choice, id, hashes);
    }
  }

  /** In every interleaving in which no password reset of the user gets so far as to load it, from any state
      with the invariant: a closed set that holds all hashes that the user can come to have keeps doing so. */
  lemma {:induction false} HashesStayIn(cfg: Config, use: Use, s: State, more: seq<Action>, id: Id, hashes: Hashes)
    requires Inv(cfg, s) && Email.FixesEmails(cfg.normalise) && AllAllowed(use, more) && WithoutReset(cfg, s, more, id)
    requires HashesIn(cfg, use, s, id, hashes) && LoginsInUse(use, s) && ClosedUnder(cfg, use, hashes)
    ensures HashesIn(cfg, use, ApplyAll(cfg, s, more), id, hashes)
    decreases |more|
  {
    hide HashesIn, LoginsInUse, ClosedUnder, Inv, Apply, NoneResets;
    if more != [] {
      ApplyKeeps(cfg, s, more[0]);
      ApplyStaysIn(cfg, use, s, more[0], id, hashes);
      HashesStayIn(cfg, use, Apply(cfg, s, more[0]), more[1..], id, hashes);
    }
  }
}
