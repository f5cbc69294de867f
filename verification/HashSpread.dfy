/** That a hash from any of the places in `Hashes` does come to be stored: for each of them, a continuation
    without a fault at the end of which the user has it. */
module HashSpread {
  import opened Wrappers
  import opened Users
  import opened Store
  import opened Topology
  import opened Invariant
  import opened Machine
  import opened Safety
  import opened Serial
  import opened RelayDrain
  import opened Hashes
  import Email
  import Sessions
  import Accounts
  import Handlers

  // ---------- Continuations ----------

  /** From here the user's stored hash gets out of the set, without a password reset of the user. */
  ghost predicate Leads(cfg: Config, use: Use, s: State, more: seq<Action>, id: Id, hashes: Hashes) {
    && AllAllowed(use, more) && WithoutReset(cfg, s, more, id)
    && !StoredIn(ApplyAll(cfg, s, more).sh, id, hashes)
  }

  ghost predicate Ready(cfg: Config, use: Use, s: State, id: Id, salt: Salt) {
    && Inv(cfg, s) && Email.FixesEmails(cfg.normalise) && NoneResets(s, id) && id in s.sh.users && salt in use.salts
  }

  function Plain(salt: Salt): Choice {
    Choice(Fine, 0, "x", salt, 0, [], 0)
  }

  function Picking(salt: Salt, pick: seq<nat>): Choice {
    Plain(salt).(pick := pick)
  }

  lemma Ends(cfg: Config, use: Use, s: State, id: Id, hashes: Hashes)
    requires NoneResets(s, id) && !StoredIn(s.sh, id, hashes)
    ensures Leads(cfg, use, s, [], id, hashes)
  {
  }

  lemma Prefixed(cfg: Config, use: Use, s: State, a: Action, more: seq<Action>, id: Id, hashes: Hashes)
    requires NoneResets(s, id) && Allowed(use, a) && Leads(cfg, use, Apply(cfg, s, a), more, id, hashes)
    ensures Leads(cfg, use, s, [a] + more, id, hashes)
  {
    hide Apply, NoneResets;
    assert ([a] + more)[1..] == more;
  }

  /** The only step by which a password reset comes to load a user. */
  predicate ResetLoads(s: State, a: Action) {
    a.Run? && a.pid in s.procs && s.procs[a.pid].Account? && s.procs[a.pid].a.ResetFind?
  }

  lemma NoResetLoads(cfg: Config, s: State, a: Action, id: Id)
    requires NoneResets(s, id) && !ResetLoads(s, a)
    ensures NoneResets(Apply(cfg, s, a), id)
  {
    hide Exec;
  }

  lemma StaysReady(cfg: Config, use: Use, s: State, a: Action, id: Id, salt: Salt)
    requires Ready(cfg, use, s, id, salt) && !ResetLoads(s, a)
    ensures Ready(cfg, use, Apply(cfg, s, a), id, salt)
  {
    hide Inv, Apply, NoneResets, OutboxGrows;
    ApplyKeeps(cfg, s, a);
    NoResetLoads(cfg, s, a, id);
  }

  // ---------- From what is about to be written ----------

  predicate AtUpdate(p: Proc, u: UserState) {
    !p.Finished? && NextOp(p) == Update(u)
  }

  lemma UpdateWrites(cfg: Config, sh: Shared, u: UserState, ch: Choice)
    requires u.id in sh.users && ch.fault != Lost && SecretFits(u)
    ensures var t := Exec(cfg, sh, Update(u), ch).0;
            t.users == sh.users[u.id := Overwritten(sh.users[u.id], u)] && t.outbox == sh.outbox
  {
  }

  /** The process writes its user back. */
  lemma UpdateStores(cfg: Config, s: State, pid: Pid, u: UserState, ch: Choice)
    requires pid in s.procs && AtUpdate(s.procs[pid], u) && u.id in s.sh.users && SecretFits(u) && ch.fault != Lost
    ensures var t := Apply(cfg, s, Run(pid, ch)); t.sh.users == s.sh.users[u.id := Overwritten(s.sh.users[u.id], u)]
  {
    hide Exec, NextOp;
    UpdateWrites(cfg, s.sh, u, ch);
  }

  lemma UpdateSpreads(cfg: Config, use: Use, s: State, id: Id, hashes: Hashes, salt: Salt, pid: Pid, u: UserState)
    returns (more: seq<Action>)
    requires Ready(cfg, use, s, id, salt) && pid in s.procs && AtUpdate(s.procs[pid], u)
    requires u.id == id && SecretFits(u) && !hashes(u.hash)
    ensures Leads(cfg, use, s, more, id, hashes)
  {
    hide Inv, Apply, Leads;
    var a := Run(pid, Plain(salt));
    UpdateStores(cfg, s, pid, u, Plain(salt));
    StaysReady(cfg, use, s, a, id, salt);
    Ends(cfg, use, Apply(cfg, s, a), id, hashes);
    Prefixed(cfg, use, s, a, [], id, hashes);
    more := [a] + [];
  }

  /** The set-up draws a secret that fits. */
  lemma DrawSecret(cfg: Config, s: State, pid: Pid, ch: Choice) returns (u: UserState)
    requires pid in s.procs && s.procs[pid].Account? && s.procs[pid].a.SetupSecret?
    requires ch.fault.Fine? && |ch.random| <= 128
    ensures var t := Apply(cfg, s, Run(pid, ch));
            && t.sh.users == s.sh.users && At(t, pid, Account(Accounts.SetupUpdate(u)))
    ensures u.id == s.procs[pid].a.user.id && u.hash == s.procs[pid].a.user.hash && SecretFits(u)
  {
    u := Apply(cfg, s, Run(pid, ch)).procs[pid].a.user;
  }

  lemma CopySpreads(cfg: Config, use: Use, s: State, id: Id, hashes: Hashes, salt: Salt, pid: Pid)
    returns (more: seq<Action>)
    requires Ready(cfg, use, s, id, salt) && pid in s.procs && s.procs[pid].Account?
        && !AccountIn(s.procs[pid].a, id, hashes)
    ensures Leads(cfg, use, s, more, id, hashes)
  {
    hide Inv, Apply, Leads;
    var pc, u := s.procs[pid].a, WritesBack(s.procs[pid].a).value;
    if pc.SetupSecret? {
      var a := Run(pid, Plain(salt));
      u := DrawSecret(cfg, s, pid, Plain(salt));
      StaysReady(cfg, use, s, a, id, salt);
      var rest := UpdateSpreads(cfg, use, Apply(cfg, s, a), id, hashes, salt, pid, u);
      Prefixed(cfg, use, s, a, rest, id, hashes);
      more := [a] + rest;
    } else {
      more := UpdateSpreads(cfg, use, s, id, hashes, salt, pid, u);
    }
  }

  // ---------- From an upgrade in the queue ----------

  lemma UpgradeLoads(cfg: Config, s: State, pid: Pid, m: nat, id: Id, newHash: string, ch: Choice)
    returns (u: UserState)
    requires ShOk(cfg, s.sh) && Email.FixesEmails(cfg.normalise) && id in s.sh.users && newHash != "" && ch.fault.Fine?
    requires At(s, pid, Handling(m, Handlers.UpgradeFind(id, newHash)))
    ensures var t := Apply(cfg, s, Run(pid, ch));
            && t.sh == Later(s.sh, ch) && t.next == s.next && pid in t.procs
            && t.procs == s.procs[pid := Handling(m, Handlers.UpgradeUpdate(u))]
    ensures u.id == id && u.hash == newHash && SecretFits(u) && u.mfaEnabled == s.sh.users[id].mfaEnabled
  {
    hide ShOk;
    RowKnown(cfg, s.sh, id);
    LoadedUser(cfg.normalise, s.sh.users[id], s.sh.now + ch.delay);
    u := Loaded(cfg, s.sh.users[id], s.sh.now + ch.delay).user.UpdatePassword(newHash, s.sh.now + ch.delay);
  }

  lemma InvMeans(cfg: Config, s: State)
    requires Inv(cfg, s)
    ensures ShOk(cfg, s.sh) && s.next !in s.procs
  {
    hide ShOk, HoldersOk;
  }

  lemma HandlerSpreads(cfg: Config, use: Use, s: State, id: Id, hashes: Hashes, salt: Salt, pid: Pid)
    returns (more: seq<Action>)
    requires Ready(cfg, use, s, id, salt) && pid in s.procs && s.procs[pid].Handling?
        && !HandlerIn(s.procs[pid].h, id, hashes)
    ensures Leads(cfg, use, s, more, id, hashes)
  {
    hide Inv, ShOk, Apply, Leads;
    var m, h := s.procs[pid].message, s.procs[pid].h;
    if h.UpgradeFind? {
      var a := Run(pid, Plain(salt));
      InvMeans(cfg, s);
      var u := UpgradeLoads(cfg, s, pid, m, id, h.newHash, Plain(salt));
      StaysReady(cfg, use, s, a, id, salt);
      var rest := UpdateSpreads(cfg, use, Apply(cfg, s, a), id, hashes, salt, pid, u);
      Prefixed(cfg, use, s, a, rest, id, hashes);
      more := [a] + rest;
    } else {
      more := UpdateSpreads(cfg, use, s, id, hashes, salt, pid, h.user);
    }
  }

  lemma DeliverStarts(cfg: Config, s: State, m: nat)
    requires m in s.sh.ready && m < |s.sh.accepted|
    ensures var t := Apply(cfg, s, Deliver(m));
            At(t, s.next, OfHandler(m, Handlers.Handle(cfg, s.sh.accepted[m])))
  {
  }

  lemma WaitingSpreads(cfg: Config, use: Use, s: State, id: Id, hashes: Hashes, salt: Salt, m: nat)
    returns (more: seq<Action>)
    requires Ready(cfg, use, s, id, salt) && m in s.sh.ready && m < |s.sh.accepted|
    requires !Within(Carried(cfg, s.sh.accepted[m].event, s.sh.accepted[m].payload, id), hashes)
    ensures Leads(cfg, use, s, more, id, hashes)
  {
    hide Inv, Apply, Leads;
    var a := Deliver(m);
    DeliverStarts(cfg, s, m);
    StaysReady(cfg, use, s, a, id, salt);
    var rest := HandlerSpreads(cfg, use, Apply(cfg, s, a), id, hashes, salt, s.next);
    Prefixed(cfg, use, s, a, rest, id, hashes);
    more := [a] + rest;
  }

  lemma HolderCrashes(cfg: Config, s: State, m: nat) returns (pid: Pid)
    requires Inv(cfg, s) && m in s.sh.unacked
    ensures var t := Apply(cfg, s, Crash(pid)); m in t.sh.ready && t.sh.accepted == s.sh.accepted
  {
    hide ShOk, ProcsOk;
    pid :| pid in s.procs && Holds(s.procs[pid]) == Some(m);
  }

  lemma MessageSpreads(cfg: Config, use: Use, s: State, id: Id, hashes: Hashes, salt: Salt, m: nat)
    returns (more: seq<Action>)
    requires Ready(cfg, use, s, id, salt) && Pends(s.sh, m)
    requires !Within(Carried(cfg, s.sh.accepted[m].event, s.sh.accepted[m].payload, id), hashes)
    ensures Leads(cfg, use, s, more, id, hashes)
  {
    hide Inv, Apply, Leads, Carried;
    if m in s.sh.ready {
      more := WaitingSpreads(cfg, use, s, id, hashes, salt, m);
    } else {
      var pid := HolderCrashes(cfg, s, m);
      var a := Crash(pid);
      StaysReady(cfg, use, s, a, id, salt);
      var rest := WaitingSpreads(cfg, use, Apply(cfg, s, a), id, hashes, salt, m);
      Prefixed(cfg, use, s, a, rest, id, hashes);
      more := [a] + rest;
    }
  }

  // ---------- From an upgrade that a relay has yet to publish ----------

  lemma PublishRuns(cfg: Config, s: State, pid: Pid, batch: seq<Item>, toMark: seq<nat>, ch: Choice)
    requires At(s, pid, Relay(Publishing(batch, toMark))) && batch != [] && ch.fault.Fine?
    ensures var t, item := Apply(cfg, s, Run(pid, ch)), batch[0];
            && t.sh.accepted == s.sh.accepted + [Message(item.event, item.payload, item.row)]
            && (cfg.topology.Routes(item.event) ==> |s.sh.accepted| in t.sh.ready)
            && t.sh.outbox == s.sh.outbox
            && At(t, pid, NextToPublish(batch[1..], toMark + [item.row]))
  {
  }

  lemma {:induction false} BatchSpreads(cfg: Config, use: Use, s: State, id: Id, hashes: Hashes, salt: Salt, pid: Pid,
        i: nat)
    returns (more: seq<Action>)
    requires Ready(cfg, use, s, id, salt) && pid in s.procs && s.procs[pid].Relay? && s.procs[pid].r.Publishing?
    requires i < |s.procs[pid].r.batch| && !ItemIn(cfg, s.procs[pid].r.batch[i], id, hashes)
    ensures Leads(cfg, use, s, more, id, hashes)
    decreases i
  {
    hide Inv, Apply, Leads, Carried;
    var batch, toMark := s.procs[pid].r.batch, s.procs[pid].r.toMark;
    var a := Run(pid, Plain(salt));
    PublishRuns(cfg, s, pid, batch, toMark, Plain(salt));
    StaysReady(cfg, use, s, a, id, salt);
    var rest;
    if i == 0 {
      CarriedIsRouted(cfg, batch[0], id, hashes);
      rest := WaitingSpreads(cfg, use, Apply(cfg, s, a), id, hashes, salt, |s.sh.accepted|);
    } else {
      rest := BatchSpreads(cfg, use, Apply(cfg, s, a), id, hashes, salt, pid, i - 1);
    }
    Prefixed(cfg, use, s, a, rest, id, hashes);
    more := [a] + rest;
  }

  lemma CarriedIsRouted(cfg: Config, item: Item, id: Id, hashes: Hashes)
    requires !ItemIn(cfg, item, id, hashes)
    ensures cfg.topology.Routes(item.event)
  {
  }

  // ---------- From a row that is not published ----------

  lemma StartTicks(cfg: Config, s: State)
    ensures var t := Apply(cfg, s, Start(Tick)); t.sh == s.sh && At(t, s.next, Relay(Select))
  {
  }

  lemma SelectRuns(cfg: Config, s: State, pid: Pid, ch: Choice)
    requires At(s, pid, Relay(Select)) && Selects(s.sh, ch) && ch.pick != []
    requires forall i :: 0 <= i < |ch.pick| ==> ch.pick[i] < |s.sh.outbox|
    ensures var t := Apply(cfg, s, Run(pid, ch));
            && t.sh.outbox == s.sh.outbox && pid in t.procs
            && t.procs[pid] == Relay(Publishing(ItemsAt(s.sh.outbox, ch.pick), []))
  {
    hide IsBatch;
  }

  lemma MarkRuns(cfg: Config, s: State, pid: Pid, toMark: seq<nat>, ch: Choice)
    requires At(s, pid, Relay(Marking(toMark))) && ch.fault.Fine?
    ensures var t := Apply(cfg, s, Run(pid, ch)); t.sh.outbox == Marked(s.sh.outbox, toMark, t.sh.now)
  {
  }

  /** What is left to publish and mark of a batch without the row. */
  predicate Busy(s: State, pid: Pid, r: nat) {
    && Unpublished(s.sh.outbox, r) && pid in s.procs && s.procs[pid].Relay?
    && match s.procs[pid].r
       case Select => false
       case Publishing(batch, toMark) =>
         && batch != [] && r !in toMark
         && (forall i :: 0 <= i < |batch| ==> batch[i].row != r && Unpublished(s.sh.outbox, batch[i].row))
         && (forall i :: 0 <= i < |toMark| ==> Unpublished(s.sh.outbox, toMark[i]))
       case Marking(toMark) =>
         toMark != [] && r !in toMark && forall i :: 0 <= i < |toMark| ==> Unpublished(s.sh.outbox, toMark[i])
  }

  function Steps(pc: RelayPc): nat {
    if pc.Publishing? then |pc.batch| + 1 else 0
  }

  lemma MarkShrinks(outbox: seq<OutboxRow>, toMark: seq<nat>, now: Time, r: nat)
    requires Unpublished(outbox, r) && r !in toMark && toMark != []
    requires forall i :: 0 <= i < |toMark| ==> Unpublished(outbox, toMark[i])
    ensures var after := Marked(outbox, toMark, now);
            && Unpublished(after, r) && after[r] == outbox[r] && |Pending(after)| < |Pending(outbox)|
  {
    var a, b := Pending(Marked(outbox, toMark, now)), Pending(outbox);
    assert toMark[0] in b && toMark[0] !in a && a <= b;
    SubsetSize(a, b);
  }

  lemma BusyGoesOn(cfg: Config, s: State, pid: Pid, r: nat, ch: Choice)
    requires Busy(s, pid, r) && s.procs[pid].r.Publishing? && ch.fault.Fine?
    ensures var t := Apply(cfg, s, Run(pid, ch));
            && Busy(t, pid, r) && t.sh.outbox == s.sh.outbox && Steps(t.procs[pid].r) < Steps(s.procs[pid].r)
  {
    hide Apply;
    PublishRuns(cfg, s, pid, s.procs[pid].r.batch, s.procs[pid].r.toMark, ch);
  }

  ghost predicate RowOut(cfg: Config, s: State, r: nat, id: Id, hashes: Hashes) {
    Unpublished(s.sh.outbox, r) && !Within(Carried(cfg, s.sh.outbox[r].event, s.sh.outbox[r].payload, id), hashes)
  }

  lemma {:induction false} BusySpreads(cfg: Config, use: Use, s: State, id: Id, hashes: Hashes, salt: Salt, pid: Pid,
        r: nat)
    returns (more: seq<Action>)
    requires Ready(cfg, use, s, id, salt) && Busy(s, pid, r) && RowOut(cfg, s, r, id, hashes)
    ensures Leads(cfg, use, s, more, id, hashes)
    decreases |Pending(s.sh.outbox)|, 0, Steps(s.procs[pid].r)
  {
    hide Inv, Apply, Leads, Carried, Pending, NoneResets;
    var a := Run(pid, Plain(salt));
    var t := Apply(cfg, s, a);
    StaysReady(cfg, use, s, a, id, salt);
    var rest;
    if s.procs[pid].r.Publishing? {
      BusyGoesOn(cfg, s, pid, r, Plain(salt));
      rest := BusySpreads(cfg, use, t, id, hashes, salt, pid, r);
    } else {
      MarkRuns(cfg, s, pid, s.procs[pid].r.toMark, Plain(salt));
      MarkShrinks(s.sh.outbox, s.procs[pid].r.toMark, t.sh.now, r);
      rest := RowSpreads(cfg, use, t, id, hashes, salt, r);
    }
    Prefixed(cfg, use, s, a, rest, id, hashes);
    more := [a] + rest;
  }

  lemma {:induction false} RowSpreads(cfg: Config, use: Use, s: State, id: Id, hashes: Hashes, salt: Salt, r: nat)
    returns (more: seq<Action>)
    requires Ready(cfg, use, s, id, salt) && RowOut(cfg, s, r, id, hashes)
    ensures Leads(cfg, use, s, more, id, hashes)
    decreases |Pending(s.sh.outbox)|, 1, 0
  {
    hide Inv, Apply, Leads, Carried, Pending, NoneResets, IsBatch;
    var a := Start(Tick);
    var s1 := Apply(cfg, s, a);
    StartTicks(cfg, s);
    StaysReady(cfg, use, s, a, id, salt);
    var pick := BatchExists(s.sh.outbox, BATCH);
    BatchTakes(s.sh.outbox, pick, r);
    var b := Run(s.next, Picking(salt, pick));
    var s2 := Apply(cfg, s1, b);
    SelectRuns(cfg, s1, s.next, Picking(salt, pick));
    StaysReady(cfg, use, s1, b, id, salt);
    var rest;
    if r in pick {
      var i :| 0 <= i < |pick| && pick[i] == r;
      assert ItemsAt(s.sh.outbox, pick)[i] == ItemAt(s.sh.outbox, r);
      rest := BatchSpreads(cfg, use, s2, id, hashes, salt, s.next, i);
    } else {
      rest := BusySpreads(cfg, use, s2, id, hashes, salt, s.next, r);
    }
    Prefixed(cfg, use, s1, b, rest, id, hashes);
    Prefixed(cfg, use, s, a, [b] + rest, id, hashes);
    more := [a] + ([b] + rest);
  }

  lemma BatchTakes(outbox: seq<OutboxRow>, pick: seq<nat>, r: nat)
    requires IsBatch(outbox, pick, BATCH) && Unpublished(outbox, r)
    ensures pick != [] && forall i :: 0 <= i < |pick| ==> Unpublished(outbox, pick[i])
  {
  }

  // ---------- From a login ----------

  lemma QueueRuns(cfg: Config, s: State, pid: Pid, u: UserState, newHash: string, ch: Choice)
    requires At(s, pid, Session(Sessions.LoginQueueUpgrade(u, newHash))) && ch.fault.Fine?
    ensures var t := Apply(cfg, s, Run(pid, ch));
            t.sh.outbox == s.sh.outbox + [OutboxRow(PasswordUpgrade, UpgradePayload(u.id, newHash), ch.stamp, None)]
  {
  }

  lemma QueueSpreads(cfg: Config, use: Use, s: State, id: Id, hashes: Hashes, salt: Salt, pid: Pid, u: UserState,
        newHash: string)
    returns (more: seq<Action>)
    requires Ready(cfg, use, s, id, salt) && pid in s.procs
    requires s.procs[pid] == Session(Sessions.LoginQueueUpgrade(u, newHash))
    requires !Within(Carried(cfg, PasswordUpgrade, UpgradePayload(u.id, newHash), id), hashes)
    ensures Leads(cfg, use, s, more, id, hashes)
  {
    hide Inv, Apply, Leads, Carried, NoneResets;
    var a := Run(pid, Plain(salt));
    QueueRuns(cfg, s, pid, u, newHash, Plain(salt));
    StaysReady(cfg, use, s, a, id, salt);
    var rest := RowSpreads(cfg, use, Apply(cfg, s, a), id, hashes, salt, |s.sh.outbox|);
    Prefixed(cfg, use, s, a, rest, id, hashes);
    more := [a] + rest;
  }

  lemma RehashRuns(cfg: Config, s: State, pid: Pid, u: UserState, password: string, ch: Choice)
    requires At(s, pid, Session(Sessions.LoginRehash(u, password))) && ch.fault.Fine?
    requires password != "" && cfg.hash(password, ch.salt) != ""
    ensures var t := Apply(cfg, s, Run(pid, ch));
            At(t, pid, Session(Sessions.LoginQueueUpgrade(u, cfg.hash(password, ch.salt))))
  {
  }

  lemma RehashSpreads(cfg: Config, use: Use, s: State, id: Id, hashes: Hashes, salt: Salt, pid: Pid, u: UserState,
        password: string)
    returns (more: seq<Action>)
    requires Ready(cfg, use, s, id, salt) && pid in s.procs
        && s.procs[pid] == Session(Sessions.LoginRehash(u, password))
    requires u.id == id && !MakesIn(cfg, use, password, hashes)
    ensures Leads(cfg, use, s, more, id, hashes)
  {
    hide Inv, Apply, Leads, NoneResets;
    var drawn :| drawn in use.salts && cfg.hash(password, drawn) != "" && !hashes(cfg.hash(password, drawn));
    var a := Run(pid, Plain(drawn));
    RehashRuns(cfg, s, pid, u, password, Plain(drawn));
    StaysReady(cfg, use, s, a, id, salt);
    var rest := QueueSpreads(cfg, use, Apply(cfg, s, a), id, hashes, salt, pid, u, cfg.hash(password, drawn));
    Prefixed(cfg, use, s, a, rest, id, hashes);
    more := [a] + rest;
  }

  lemma CompareRuns(cfg: Config, s: State, pid: Pid, u: UserState, password: string, ch: Choice)
    requires At(s, pid, Session(Sessions.LoginCompare(u, password))) && ch.fault.Fine?
    requires AsksForUpgrade(cfg, password, u.hash)
    ensures var t := Apply(cfg, s, Run(pid, ch));
            At(t, pid, Session(Sessions.LoginRehash(u, password)))
  {
  }

  lemma SessionSpreads(cfg: Config, use: Use, s: State, id: Id, hashes: Hashes, salt: Salt, pid: Pid)
    returns (more: seq<Action>)
    requires Ready(cfg, use, s, id, salt) && pid in s.procs && s.procs[pid].Session?
    requires !SessionIn(cfg, use, s.procs[pid].s, id, hashes)
    ensures Leads(cfg, use, s, more, id, hashes)
  {
    hide Inv, Apply, Leads, MakesIn, AsksForUpgrade, Carried, NoneResets;
    match s.procs[pid].s
    case LoginQueueUpgrade(u, newHash) => more := QueueSpreads(cfg, use, s, id, hashes, salt, pid, u, newHash);
    case LoginRehash(u, password) => more := RehashSpreads(cfg, use, s, id, hashes, salt, pid, u, password);
    case LoginCompare(u, password) =>
      var a := Run(pid, Plain(salt));
      CompareRuns(cfg, s, pid, u, password, Plain(salt));
      StaysReady(cfg, use, s, a, id, salt);
      var rest := RehashSpreads(cfg, use, Apply(cfg, s, a), id, hashes, salt, pid, u, password);
      Prefixed(cfg, use, s, a, rest, id, hashes);
      more := [a] + rest;
    case _ =>
  }

  // ---------- Exactly when a hash stays in a set ----------

  lemma ProcSpreads(cfg: Config, use: Use, s: State, id: Id, hashes: Hashes, salt: Salt, pid: Pid)
    returns (more: seq<Action>)
    requires Ready(cfg, use, s, id, salt) && pid in s.procs && !ProcIn(cfg, use, s.procs[pid], id, hashes)
    ensures Leads(cfg, use, s, more, id, hashes)
  {
    hide Ready, Leads, SessionIn, AccountIn, HandlerIn, ItemIn;
    match s.procs[pid]
    case Session(_) => more := SessionSpreads(cfg, use, s, id, hashes, salt, pid);
    case Account(_) => more := CopySpreads(cfg, use, s, id, hashes, salt, pid);
    case Handling(_, _) => more := HandlerSpreads(cfg, use, s, id, hashes, salt, pid);
    case Relay(r) =>
      var i :| 0 <= i < |r.batch| && !ItemIn(cfg, r.batch[i], id, hashes);
      more := BatchSpreads(cfg, use, s, id, hashes, salt, pid, i);
    case _ =>
  }

  lemma AnySpreads(cfg: Config, use: Use, s: State, id: Id, hashes: Hashes, salt: Salt) returns (more: seq<Action>)
    requires Ready(cfg, use, s, id, salt) && !HashesIn(cfg, use, s, id, hashes)
    ensures Leads(cfg, use, s, more, id, hashes)
  {
    hide Inv, Leads, ProcIn, Carried, NoneResets, StoredIn;
    if !StoredIn(s.sh, id, hashes) {
      more := [];
      Ends(cfg, use, s, id, hashes);
    } else if !RowsIn(cfg, s.sh.outbox, id, hashes) {
      var r: nat :| Unpublished(s.sh.outbox, r)
                    && !Within(Carried(cfg, s.sh.outbox[r].event, s.sh.outbox[r].payload, id), hashes);
      more := RowSpreads(cfg, use, s, id, hashes, salt, r);
    } else if !MessagesIn(cfg, s.sh, id, hashes) {
      var m: nat :| Pends(s.sh, m)
                    && !Within(Carried(cfg, s.sh.accepted[m].event, s.sh.accepted[m].payload, id), hashes);
      more := MessageSpreads(cfg, use, s, id, hashes, salt, m);
    } else {
      var pid :| pid in s.procs && !ProcIn(cfg, use, s.procs[pid], id, hashes);
      more := ProcSpreads(cfg, use, s, id, hashes, salt, pid);
    }
  }

  /** However it goes on without a password reset that loads the user, its stored hash is in the set. */
  ghost predicate StaysIn(cfg: Config, use: Use, s: State, id: Id, hashes: Hashes) {
    forall more :: AllAllowed(use, more) && WithoutReset(cfg, s, more, id) ==>
        StoredIn(ApplyAll(cfg, s, more).sh, id, hashes)
  }

  /** In every interleaving in which no password reset of the user gets so far as to load it: its stored hash
      stays in a closed set, however the run goes on, exactly when the stored hash, those that a confirmation or
      set-up can write back, those of all upgrades that can still be handled, and those that logins under way
      will have queued are all in it. */
  lemma StaysInExactlyWhen(cfg: Config, use: Use, s: State, id: Id, hashes: Hashes)
    requires Inv(cfg, s) && Email.FixesEmails(cfg.normalise) && NoneResets(s, id) && id in s.sh.users
    requires LoginsInUse(use, s) && ClosedUnder(cfg, use, hashes) && exists salt :: salt in use.salts
    ensures StaysIn(cfg, use, s, id, hashes) <==> HashesIn(cfg, use, s, id, hashes)
  {
    hide Inv, ApplyAll, HashesIn, NoneResets, LoginsInUse, ClosedUnder, WithoutReset;
    if HashesIn(cfg, use, s, id, hashes) {
      forall more | AllAllowed(use, more) && WithoutReset(cfg, s, more, id)
        ensures StoredIn(ApplyAll(cfg, s, more).sh, id, hashes)
      {
        HashesStayIn(cfg, use, s, more, id, hashes);
        HashIsIn(cfg, use, ApplyAll(cfg, s, more), id, hashes);
      }
    } else {
      var salt :| salt in use.salts;
      var more := AnySpreads(cfg, use, s, id, hashes, salt);
    }
  }

  lemma HashIsIn(cfg: Config, use: Use, s: State, id: Id, hashes: Hashes)
    requires HashesIn(cfg, use, s, id, hashes)
    ensures StoredIn(s.sh, id, hashes)
  {
  }
}
