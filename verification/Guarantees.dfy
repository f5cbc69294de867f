/** What the system promises in every state that any run of it reaches. */
module Guarantees {
  import opened Wrappers
  import opened Users
  import opened Store
  import opened Topology
  import opened Invariant
  import opened Machine
  import opened Safety
  import Email
  import Handlers

  /** Every stored token - session, MFA, password reset or confirmation - belongs to a stored user, even
      where it was made from a message that was duplicated, delayed or delivered again. */
  lemma TokensResolve(cfg: Config, run: seq<Action>, k: Key)
    requires Email.FixesEmails(cfg.normalise) && cfg.topology.TokensFromUserEvents()
    requires k in After(cfg, run).sh.tokens
    ensures var sh := After(cfg, run).sh; sh.tokens[k].userId in sh.users
  {
    Sound(cfg, run);
  }

  // ---------- Registration ----------

  predicate Registers(outbox: seq<OutboxRow>, r: nat, id: Id) {
    r < |outbox| && outbox[r].event.UserRegistered? && outbox[r].payload.Json? && outbox[r].payload.id == id
  }

  lemma {:induction false} CountsRegistrations(outbox: seq<OutboxRow>, id: Id)
    ensures Registrations(outbox, id) == 0 ==> forall r :: !Registers(outbox, r, id)
    ensures Registrations(outbox, id) == 1 ==> exists r :: Registers(outbox, r, id) && OnlyOne(outbox, r, id)
  {
    if outbox != [] {
      var n := |outbox| - 1;
      CountsRegistrations(outbox[..n], id);
      assert forall r: nat :: r < n ==> Registers(outbox, r, id) == Registers(outbox[..n], r, id);
      if Registrations(outbox, id) == 1 {
        if Registers(outbox, n, id) {
          assert OnlyOne(outbox, n, id);
        } else {
          var r :| Registers(outbox[..n], r, id) && OnlyOne(outbox[..n], r, id);
          assert Registers(outbox, r, id) && OnlyOne(outbox, r, id);
        }
      }
    }
  }

  ghost predicate OnlyOne(outbox: seq<OutboxRow>, r: nat, id: Id) {
    forall q :: Registers(outbox, q, id) ==> q == r
  }

  /** However many workers handle duplicated and redelivered registration messages: no two rows have the
      same address; each row has exactly one registration event, which describes it; and each
      registration event has its row. */
  lemma RegisteredExactlyOnce(cfg: Config, run: seq<Action>)
    requires Email.FixesEmails(cfg.normalise)
    ensures var sh := After(cfg, run).sh;
            && (forall a, b :: SameEmail(sh.users, a, b) ==> a == b)
            && (forall id :: id in sh.users ==> exists r :: Registers(sh.outbox, r, id) && OnlyOne(sh.outbox, r, id))
            && (forall r: nat, id :: Registers(sh.outbox, r, id) ==>
                  && id in sh.users
                  && var payload, row := sh.outbox[r].payload, sh.users[id];
                     && payload == RegisteredPayload(id, row.email, row.createdAt)
                     && payload.id == id && payload.email == row.email && payload.createdAt == row.createdAt)
  {
    Sound(cfg, run);
    var sh := After(cfg, run).sh;
    forall id
      ensures id in sh.users ==> exists r :: Registers(sh.outbox, r, id) && OnlyOne(sh.outbox, r, id)
    {
      CountsRegistrations(sh.outbox, id);
    }
  }

  // ---------- The relay ----------

  /** With any number of relays at once, and any failures and crashes between publishing and marking: a
      row that is marked was accepted by the broker; every message of the broker is the copy of a row;
      and however the run continues, no row is lost, altered or unmarked. */
  lemma RelaySafe(cfg: Config, run: seq<Action>, more: seq<Action>, r: nat)
    requires Email.FixesEmails(cfg.normalise) && r < |After(cfg, run).sh.outbox|
    ensures var sh, later := After(cfg, run).sh, After(cfg, run + more).sh;
            && (sh.outbox[r].publishedAt.Some? ==>
                exists m :: 0 <= m < |sh.accepted|
                    && sh.accepted[m] == Message(sh.outbox[r].event, sh.outbox[r].payload, r))
            && (forall m :: 0 <= m < |sh.accepted| ==> CopiesRow(sh.outbox, sh.accepted[m]))
            && r < |later.outbox| && RowKept(sh.outbox[r], later.outbox[r])
  {
    Sound(cfg, run);
    Growth(cfg, run, more);
    var sh := After(cfg, run).sh;
    if sh.outbox[r].publishedAt.Some? {
      assert WasAccepted(sh, r);
      var m :| 0 <= m < |sh.accepted| && sh.accepted[m].row == r;
      assert CopiesRow(sh.outbox, sh.accepted[m]);
    }
  }

  /** The messages routed to the queue are always exactly those that wait, are held, or are done. */
  lemma QueuePartition(cfg: Config, run: seq<Action>)
    requires Email.FixesEmails(cfg.normalise)
    ensures var sh := After(cfg, run).sh;
            sh.ready !! sh.unacked !! sh.acked
            && forall m :: m in sh.ready + sh.unacked + sh.acked <==>
                0 <= m < |sh.accepted| && cfg.topology.Routes(sh.accepted[m].event)
  {
    Sound(cfg, run);
    assert QueueOk(cfg, After(cfg, run).sh);
  }

  /** The registration command reaches the worker's queue, and there the handler that registers. */
  predicate RegistersUsers(t: Topology) {
    t.Routes(RegisterCommand) && t.JobOf(RegisterCommand).Registration?
  }

  /** Only registration commands carry a password. */
  predicate NoPassword(event: EventType, payload: Payload) {
    event.RegisterCommand? || (payload.Json? ==> payload.password == "")
  }

  /** A process that cannot come to store a user: it has no password to hash. */
  predicate StoresNobody(p: Proc) {
    p.Handling? ==>
      match p.h
      case RegistrationFind(_, password) => password == ""
      case RegistrationHash(_, password) => password == ""
      case RegistrationSave(_, _) => false
      case _ => true
  }

  ghost predicate NobodyStored(s: State) {
    && s.sh.users == map[]
    && (forall r :: 0 <= r < |s.sh.outbox| ==> NoPassword(s.sh.outbox[r].event, s.sh.outbox[r].payload))
    && (forall p :: p in s.procs ==> StoresNobody(s.procs[p]))
  }

  lemma UsersStayEmpty(cfg: Config, sh: Shared, op: Op, ch: Choice)
    requires sh.users == map[] && !op.Save?
    ensures Exec(cfg, sh, op, ch).0.users == map[]
  {
    if !op.Update? && !op.UpdateRoles? {
      UsersUnchanged(cfg, sh, op, ch);
    }
  }

  lemma OutboxStays(cfg: Config, sh: Shared, op: Op, ch: Choice)
    requires forall r :: 0 <= r < |sh.outbox| ==> NoPassword(sh.outbox[r].event, sh.outbox[r].payload)
    requires op.SaveCommand? ==> NoPassword(op.event, op.payload)
    ensures var t := Exec(cfg, sh, op, ch).0;
            forall r :: 0 <= r < |t.outbox| ==> NoPassword(t.outbox[r].event, t.outbox[r].payload)
  {
  }

  lemma CommandsCarryNoPassword(p: Proc)
    requires !p.Finished? && StoresNobody(p)
    ensures var op := NextOp(p); !op.Save? && (op.SaveCommand? ==> NoPassword(op.event, op.payload))
  {
  }

  lemma EmptyNotHashed(cfg: Config, sh: Shared, ch: Choice)
    ensures Exec(cfg, sh, Hash(""), ch).1.Failed?
  {
  }

  lemma ResumesStoringNobody(cfg: Config, p: Proc, reply: Reply, now: Time)
    requires !p.Finished? && StoresNobody(p) && (NextOp(p) == Hash("") ==> reply.Failed?)
    ensures StoresNobody(Resume(cfg, p, reply, now))
  {
  }

  lemma RunStoresNobody(cfg: Config, s: State, pid: Pid, ch: Choice)
    requires NobodyStored(s) && pid in s.procs && !s.procs[pid].Finished?
    ensures NobodyStored(RunProc(cfg, s, pid, ch))
  {
    hide Exec, NoPassword, StoresNobody;
    var p := s.procs[pid];
    var (sh, reply) := Exec(cfg, s.sh, NextOp(p), ch);
    CommandsCarryNoPassword(p);
    UsersStayEmpty(cfg, s.sh, NextOp(p), ch);
    OutboxStays(cfg, s.sh, NextOp(p), ch);
    EmptyNotHashed(cfg, s.sh, ch);
    ResumesStoringNobody(cfg, p, reply, sh.now);
  }

  lemma HandleStoresNobody(cfg: Config, m: nat, message: Message)
    requires NoPassword(message.event, message.payload)
    requires message.event.RegisterCommand? ==> !cfg.topology.JobOf(RegisterCommand).Registration?
    ensures StoresNobody(OfHandler(m, Handlers.Handle(cfg, message)))
  {
  }

  lemma OtherStoresNobody(cfg: Config, s: State, a: Action)
    requires NobodyStored(s) && ShOk(cfg, s.sh) && !a.Run? && !RegistersUsers(cfg.topology)
    ensures NobodyStored(Apply(cfg, s, a))
  {
    hide UsersOk, PublishedOk, TokensOk, ProfilesOk, NoPassword, StoresNobody;
    if a.Start? {
      BeginStoresNobody(cfg, a.call);
    } else if a.Deliver? && a.message in s.sh.ready && a.message < |s.sh.accepted| {
      var message := s.sh.accepted[a.message];
      assert a.message in Routed(cfg, s.sh) && CopiesRow(s.sh.outbox, message);
      HandleStoresNobody(cfg, a.message, message);
    }
  }

  lemma BeginStoresNobody(cfg: Config, call: Call)
    ensures StoresNobody(Begin(cfg, call))
  {
  }

  lemma {:induction false} NobodyIsStored(cfg: Config, run: seq<Action>)
    requires Email.FixesEmails(cfg.normalise) && !RegistersUsers(cfg.topology)
    ensures NobodyStored(After(cfg, run))
  {
    hide NobodyStored, ShOk, ProcsOk, HoldersOk, RegistersUsers;
    if run == [] {
      NobodyAtFirst();
    } else {
      var init, a := run[..|run| - 1], run[|run| - 1];
      NobodyIsStored(cfg, init);
      Sound(cfg, init);
      if !a.Run? {
        OtherStoresNobody(cfg, After(cfg, init), a);
      } else if a.pid in After(cfg, init).procs && !After(cfg, init).procs[a.pid].Finished? {
        RunStoresNobody(cfg, After(cfg, init), a.pid, a.choice);
      }
    }
  }

  lemma NobodyAtFirst()
    ensures NobodyStored(INIT)
  {
  }

  /** Under any topology in which the registration command does not reach its handler, no run ever stores a
      user. */
  lemma UnroutedStoresNoUser(cfg: Config, run: seq<Action>)
    requires Email.FixesEmails(cfg.normalise) && !RegistersUsers(cfg.topology)
    ensures After(cfg, run).sh.users == map[]
  {
    NobodyIsStored(cfg, run);
  }

  /** As configured, where the relay and the worker name different exchanges, that is so. */
  lemma ConfiguredStoresNoUser(cfg: Config, run: seq<Action>)
    requires Email.FixesEmails(cfg.normalise) && cfg.topology == CONFIGURED
    ensures After(cfg, run).sh.users == map[]
  {
    ConfiguredRoutesNothing(RegisterCommand);
    UnroutedStoresNoUser(cfg, run);
  }

  // ---------- Users ----------

  /** A stored row always restores: loading it gives a user with the row's columns, whose roles are
      "user" and the stored ones, each once, in order. */
  lemma RowsRestore(cfg: Config, run: seq<Action>, id: Id, now: Time)
    requires Email.FixesEmails(cfg.normalise) && id in After(cfg, run).sh.users
    ensures var row := After(cfg, run).sh.users[id];
            && row.id == id && row.hash != "" && (row.mfaEnabled <==> row.totpSecret != "")
            && Email.Matches(row.email) && Email.NewEmail(cfg.normalise, row.email) == Ok(row.email)
            && Load(cfg.normalise, row, now).Ok?
            && var u := Load(cfg.normalise, row, now).value;
               u == row.(roles := u.roles, updatedAt := u.updatedAt)
                   && FirstOccurrences(u.roles, ["user"] + row.roles)
  {
    Sound(cfg, run);
    var row := After(cfg, run).sh.users[id];
    LoadedUser(cfg.normalise, row, now);
    Email.RecogniserIsPattern(row.email);
  }

  /** The identity columns of a row never change, and the row never goes away. */
  lemma IdentityFrozen(cfg: Config, run: seq<Action>, more: seq<Action>, id: Id)
    requires Email.FixesEmails(cfg.normalise) && id in After(cfg, run).sh.users
    ensures var a, b := After(cfg, run).sh.users, After(cfg, run + more).sh.users;
            id in b && b[id].id == id && b[id].email == a[id].email && b[id].createdAt == a[id].createdAt
            && b[id].emailVerified == a[id].emailVerified
  {
    Growth(cfg, run, more);
    Sound(cfg, run);
    Sound(cfg, run + more);
  }

  /** The documentation says that confirming an address stores that it is verified. It does not: the
      column is false in every row of every run, since the update leaves it out. */
  lemma ConfirmationNeverStored(cfg: Config, run: seq<Action>, id: Id)
    requires Email.FixesEmails(cfg.normalise) && id in After(cfg, run).sh.users
    ensures !After(cfg, run).sh.users[id].emailVerified
  {
    Sound(cfg, run);
  }

  /** The replica may still show this table. */
  ghost predicate MayShow(sh: Shared, users: UserTable) {
    exists v :: 0 <= v < |sh.versions| && sh.versions[v] == users
  }

  lemma VersionsAfter(cfg: Config, sh: Shared, op: Op, ch: Choice)
    ensures var t := Exec(cfg, sh, op, ch).0;
            (t.users == sh.users && t.versions == sh.versions) || t.versions == sh.versions + [t.users]
  {
    if !op.Save? && !op.Update? && !op.UpdateRoles? {
      hide Exec;
      VersionsUnchanged(cfg, sh, op, ch);
    }
  }

  lemma VersionsUnchanged(cfg: Config, sh: Shared, op: Op, ch: Choice)
    requires !op.Save? && !op.Update? && !op.UpdateRoles?
    ensures var t := Exec(cfg, sh, op, ch).0; t.users == sh.users && t.versions == sh.versions
  {
    if !Writes(op) {
      hide Perform;
      ReadsOnly(cfg, Later(sh, ch), op, ch);
    }
  }

  lemma StillShown(before: Shared, after: Shared, users: UserTable)
    requires after.versions == before.versions || after.versions == before.versions + [after.users]
    ensures MayShow(before, users) ==> MayShow(after, users)
    ensures after.versions != before.versions ==> MayShow(after, after.users)
  {
    if MayShow(before, users) {
      var v :| 0 <= v < |before.versions| && before.versions[v] == users;
      assert after.versions[v] == users;
    }
    if after.versions != before.versions {
      assert after.versions[|before.versions|] == after.users;
    }
  }

  lemma ActionShows(cfg: Config, s: State, a: Action, users: UserTable)
    ensures var t := Apply(cfg, s, a);
            && (MayShow(s.sh, users) ==> MayShow(t.sh, users))
            && (MayShow(s.sh, s.sh.users) ==> MayShow(t.sh, t.sh.users))
  {
    hide Exec, MayShow;
    var t := Apply(cfg, s, a);
    if a.Run? && a.pid in s.procs && !s.procs[a.pid].Finished? {
      VersionsAfter(cfg, s.sh, NextOp(s.procs[a.pid]), a.choice);
    }
    StillShown(s.sh, t.sh, users);
    if t.sh.versions == s.sh.versions {
      SameShown(s.sh, t.sh);
    }
  }

  lemma SameShown(before: Shared, after: Shared)
    requires after.versions == before.versions && after.users == before.users
    ensures MayShow(before, before.users) ==> MayShow(after, after.users)
  {
  }

  /** The replica may lag behind by any amount: whatever a run goes on with, a lookup in the replica can be answered
      from every state that the users table has had. */
  lemma {:induction false} ReplicaMayLag(cfg: Config, run: seq<Action>, more: seq<Action>)
    ensures MayShow(After(cfg, run + more).sh, After(cfg, run).sh.users)
    decreases |run| + |more|, |more|
  {
    hide Apply, MayShow;
    if more != [] {
      var init, a := more[..|more| - 1], more[|more| - 1];
      ReplicaMayLag(cfg, run, init);
      assert (run + more)[..|run + more| - 1] == run + init;
      ActionShows(cfg, After(cfg, run + init), a, After(cfg, run).sh.users);
    } else if run != [] {
      assert run + more == run;
      var init, a := run[..|run| - 1], run[|run| - 1];
      ReplicaMayLag(cfg, init, []);
      assert init + [] == init;
      ActionShows(cfg, After(cfg, init), a, map[]);
    } else {
      FirstTableShown();
    }
  }

  lemma FirstTableShown()
    ensures MayShow(START, map[])
  {
    assert START.versions[0] == map[];
  }

  /** The profile shows the identity columns of the user, each under its own name. */
  predicate IsProfileOf(cfg: Config, profile: Profile, u: UserState) {
    profile.id == u.id && profile.email == u.email && profile.createdAt == cfg.formatTime(u.createdAt)
  }

  lemma CacheAgrees(cfg: Config, sh: Shared, id: Id, ch1: Choice, ch2: Choice)
    requires Email.FixesEmails(cfg.normalise) && ProfilesOk(cfg, sh) && VersionsOk(sh)
    requires Perform(cfg, sh, GetProfile(id), ch1).1.Cached?
    requires ch2.version < |sh.versions| && id in sh.versions[ch2.version]
    ensures var read := Perform(cfg, sh, ReplicaFind(id), ch2).1;
            read.Found? && IsProfileOf(cfg, Perform(cfg, sh, GetProfile(id), ch1).1.profile, read.user)
  {
    var shown := sh.versions[ch2.version];
    assert ProfileOk(cfg, sh.users, sh.profiles[id].profile);
    assert TableOk(shown) && TableGrows(shown, sh.users);
    LoadedOk(cfg, sh, ReplicaRow(shown[id]), sh.now);
  }

  /** Whatever the interleaving of writes, replica lag and late fills: a profile served from the cache
      shows the row's own identity columns, */
  lemma CachedProfileIsCurrent(cfg: Config, run: seq<Action>, id: Id, ch: Choice)
    requires Email.FixesEmails(cfg.normalise)
    requires Perform(cfg, After(cfg, run).sh, GetProfile(id), ch).1.Cached?
    ensures var sh := After(cfg, run).sh;
            && id in sh.users && Perform(cfg, sh, GetProfile(id), ch).1.profile.id == id
            && IsProfileOf(cfg, Perform(cfg, sh, GetProfile(id), ch).1.profile, sh.users[id])
  {
    hide After, UsersOk, AcceptedOk, PublishedOk, QueueOk, TokensOk, ProcsOk, HoldersOk;
    Sound(cfg, run);
    var sh := After(cfg, run).sh;
    assert ProfileOk(cfg, sh.users, sh.profiles[id].profile);
  }

  /** and is the one that reading any replica state that holds the row would give. */
  lemma ProfilesCoherent(cfg: Config, run: seq<Action>, id: Id, ch1: Choice, ch2: Choice)
    requires Email.FixesEmails(cfg.normalise)
    requires Perform(cfg, After(cfg, run).sh, GetProfile(id), ch1).1.Cached?
    requires ch2.version < |After(cfg, run).sh.versions| && id in After(cfg, run).sh.versions[ch2.version]
    ensures var sh := After(cfg, run).sh;
            var read := Perform(cfg, sh, ReplicaFind(id), ch2).1;
            read.Found? && IsProfileOf(cfg, Perform(cfg, sh, GetProfile(id), ch1).1.profile, read.user)
  {
    Sound(cfg, run);
    CacheAgrees(cfg, After(cfg, run).sh, id, ch1, ch2);
  }
}
