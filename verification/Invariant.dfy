/** The state invariant of the whole system, and what every operation keeps of it. */
module Invariant {
  import opened Wrappers
  import opened Users
  import opened Store
  import opened Topology
  import Email

  // ---------- Shared state ----------

  ghost predicate SameIdentity(a: UserState, b: UserState) {
    a.id == b.id && a.email == b.email && a.createdAt == b.createdAt
  }

  predicate FitsColumns(row: UserState) {
    |row.email| <= EMAIL_COLUMN && |row.totpSecret| <= SECRET_COLUMN
  }

  ghost predicate RowOk(row: UserState) {
    Restorable(row) && !row.emailVerified && FitsColumns(row)
  }

  ghost predicate TableOk(users: UserTable) {
    forall id :: id in users ==> users[id].id == id && RowOk(users[id])
  }

  predicate SameEmail(users: UserTable, a: Id, b: Id) {
    a in users && b in users && users[a].email == users[b].email
  }

  ghost predicate UniqueEmails(users: UserTable) {
    forall a, b :: SameEmail(users, a, b) ==> a == b
  }

  /** The row a lookup by address finds is the only one with it. */
  lemma FoundRow(users: UserTable, email: string, id: Id)
    requires UniqueEmails(users) && id in users && users[id].email == email
    ensures RowByEmail(users, email) == Some(users[id])
  {
    forall other | other in users && users[other].email == email
      ensures other == id
    {
      assert SameEmail(users, other, id);
    }
  }

  /** Rows are never removed, and keep their identity columns. */
  ghost predicate TableGrows(before: UserTable, after: UserTable) {
    forall id :: id in before ==> id in after && SameIdentity(before[id], after[id])
  }

  ghost predicate VersionsOk(sh: Shared) {
    forall v :: 0 <= v < |sh.versions| ==> TableOk(sh.versions[v]) && TableGrows(sh.versions[v], sh.users)
  }

  predicate CarriesUser(e: EventType) {
    e.UserRegistered? || e.ForgotPassword?
  }

  ghost predicate PayloadOk(users: UserTable, e: EventType, p: Payload) {
    && p.Json?
    && (CarriesUser(e) ==> p.id in users)
    && (e.UserRegistered? ==> p == RegisteredPayload(p.id, users[p.id].email, users[p.id].createdAt))
  }

  ghost predicate OutboxOk(sh: Shared) {
    forall r :: 0 <= r < |sh.outbox| ==> PayloadOk(sh.users, sh.outbox[r].event, sh.outbox[r].payload)
  }

  /** How many registration events the outbox holds for a user. */
  function Registrations(outbox: seq<OutboxRow>, id: Id): nat {
    if outbox == [] then 0
    else
      var row := outbox[|outbox| - 1];
      Registrations(outbox[..|outbox| - 1], id)
      + (if row.event.UserRegistered? && row.payload.Json? && row.payload.id == id then 1 else 0)
  }

  ghost predicate RegisteredOnce(sh: Shared) {
    forall id :: Registrations(sh.outbox, id) == if id in sh.users then 1 else 0
  }

  /** The message is a copy of its outbox row. */
  ghost predicate CopiesRow(outbox: seq<OutboxRow>, m: Message) {
    m.row < |outbox| && m.event == outbox[m.row].event && m.payload == outbox[m.row].payload
  }

  ghost predicate AcceptedOk(sh: Shared) {
    forall m :: 0 <= m < |sh.accepted| ==> CopiesRow(sh.outbox, sh.accepted[m])
  }

  ghost predicate WasAccepted(sh: Shared, row: nat) {
    exists m :: 0 <= m < |sh.accepted| && sh.accepted[m].row == row
  }

  ghost predicate PublishedOk(sh: Shared) {
    forall r :: 0 <= r < |sh.outbox| && sh.outbox[r].publishedAt.Some? ==> WasAccepted(sh, r)
  }

  ghost function Routed(cfg: Config, sh: Shared): set<nat> {
    set m | 0 <= m < |sh.accepted| && cfg.topology.Routes(sh.accepted[m].event)
  }

  /** Waiting, held and done messages partition those that were routed to the queue. */
  ghost predicate QueueOk(cfg: Config, sh: Shared) {
    && sh.ready !! sh.unacked !! sh.acked
    && sh.ready + sh.unacked + sh.acked == Routed(cfg, sh)
  }

  ghost predicate TokensOk(cfg: Config, sh: Shared) {
    cfg.topology.TokensFromUserEvents() ==> forall k :: k in sh.tokens ==> sh.tokens[k].userId in sh.users
  }

  ghost predicate ProfileOk(cfg: Config, users: UserTable, p: Profile) {
    p.id in users && p == ProfileOf(cfg, users[p.id])
  }

  ghost predicate ProfilesOk(cfg: Config, sh: Shared) {
    forall id :: id in sh.profiles ==>
        sh.profiles[id].profile.id == id && ProfileOk(cfg, sh.users, sh.profiles[id].profile)
  }

  ghost predicate UsersOk(sh: Shared) {
    TableOk(sh.users) && UniqueEmails(sh.users) && VersionsOk(sh) && OutboxOk(sh) && RegisteredOnce(sh)
  }

  ghost predicate ShOk(cfg: Config, sh: Shared) {
    && UsersOk(sh)
    && AcceptedOk(sh) && PublishedOk(sh) && QueueOk(cfg, sh)
    && TokensOk(cfg, sh) && ProfilesOk(cfg, sh)
  }

  // ---------- What only grows ----------

  ghost predicate RowKept(a: OutboxRow, b: OutboxRow) {
    a.event == b.event && a.payload == b.payload && a.createdAt == b.createdAt
    && (a.publishedAt.Some? ==> b.publishedAt.Some?)
  }

  ghost predicate OutboxGrows(a: seq<OutboxRow>, b: seq<OutboxRow>) {
    |a| <= |b| && forall r :: 0 <= r < |a| ==> RowKept(a[r], b[r])
  }

  /** `after` may follow `before` in a run: nothing that was stored for good is gone or altered. */
  ghost predicate Grows(before: Shared, after: Shared) {
    && before.now <= after.now
    && TableGrows(before.users, after.users)
    && OutboxGrows(before.outbox, after.outbox)
    && before.accepted <= after.accepted
    && before.acked <= after.acked
  }

  lemma GrowsTransitive(a: Shared, b: Shared, c: Shared)
    requires Grows(a, b) && Grows(b, c)
    ensures Grows(a, c)
  {
    forall r | 0 <= r < |a.outbox|
      ensures RowKept(a.outbox[r], c.outbox[r])
    {
      assert RowKept(a.outbox[r], b.outbox[r]) && RowKept(b.outbox[r], c.outbox[r]);
    }
  }

  // ---------- Operations ----------

  /** A loaded user, perhaps changed since: its identity is that of a stored row. */
  ghost predicate UserOk(sh: Shared, u: UserState) {
    u.id in sh.users && SameIdentity(u, sh.users[u.id]) && Restorable(u)
  }

  ghost predicate KnownUser(cfg: Config, sh: Shared, id: Id) {
    cfg.topology.TokensFromUserEvents() ==> id in sh.users
  }

  ghost predicate ItemOk(sh: Shared, item: Item) {
    CopiesRow(sh.outbox, Message(item.event, item.payload, item.row))
  }

  /** What a process may ask for. */
  ghost predicate OpOk(cfg: Config, sh: Shared, op: Op) {
    match op
    case Save(email, hash) => Email.IsEmail(email) && hash != ""
    case Update(u) => UserOk(sh, u)
    case SaveCommand(e, p) => !e.UserRegistered? && PayloadOk(sh.users, e, p)
    case Mint(_, id) => KnownUser(cfg, sh, id)
    case SetProfile(p) => ProfileOk(cfg, sh.users, p)
    case Publish(item) => ItemOk(sh, item)
    case Mark(rows) => forall i :: 0 <= i < |rows| ==> WasAccepted(sh, rows[i])
    case Ack(m) => m in sh.unacked
    case Nack(m) => m in sh.unacked
    case _ => true
  }

  /** What the reply tells the process. */
  ghost predicate ReplyOk(cfg: Config, sh: Shared, op: Op, reply: Reply) {
    match reply
    case Found(u) => UserOk(sh, u) && (op.FindByID? ==> u.id == op.id)
    case Got(id) => KnownUser(cfg, sh, id)
    case Hashed(hash) => hash != ""
    case Cached(p) => ProfileOk(cfg, sh.users, p)
    case Rows(items) => forall i :: 0 <= i < |items| ==> ItemOk(sh, items[i])
    case Done => op.Publish? ==> WasAccepted(sh, op.item.row)
    case _ => true
  }

  /** The invariant does not depend on the time. */
  lemma LaterOk(cfg: Config, sh: Shared, ch: Choice)
    requires ShOk(cfg, sh)
    ensures ShOk(cfg, Later(sh, ch)) && Grows(sh, Later(sh, ch))
  {
  }

  /** Nor on anything but where each message is, as long as the messages stay partitioned. */
  lemma QueueChangeOk(cfg: Config, sh: Shared, t: Shared)
    requires ShOk(cfg, sh) && t == sh.(ready := t.ready, unacked := t.unacked, acked := t.acked)
    requires t.ready !! t.unacked !! t.acked && sh.acked <= t.acked
    requires t.ready + t.unacked + t.acked == sh.ready + sh.unacked + sh.acked
    ensures ShOk(cfg, t) && Grows(sh, t)
  {
    assert Routed(cfg, t) == Routed(cfg, sh);
    KeepsPublished(sh, t);
  }

  lemma RegistrationsSnoc(outbox: seq<OutboxRow>, row: OutboxRow, id: Id)
    ensures Registrations(outbox + [row], id)
         == Registrations(outbox, id)
             + (if row.event.UserRegistered? && row.payload.Json? && row.payload.id == id then 1 else 0)
  {
    assert (outbox + [row])[..|outbox|] == outbox;
  }

  lemma {:induction false} RegistrationsSame(a: seq<OutboxRow>, b: seq<OutboxRow>, id: Id)
    requires |a| == |b| && forall r :: 0 <= r < |a| ==> a[r].event == b[r].event && a[r].payload == b[r].payload
    ensures Registrations(a, id) == Registrations(b, id)
  {
    if a != [] {
      RegistrationsSame(a[..|a| - 1], b[..|b| - 1], id);
    }
  }

  /** Growth of the tables keeps everything that refers to them. */
  lemma GrowthKeepsReferences(cfg: Config, sh: Shared, users: UserTable, outbox: seq<OutboxRow>)
    requires TableGrows(sh.users, users) && OutboxGrows(sh.outbox, outbox)
    ensures TokensOk(cfg, sh) ==> TokensOk(cfg, sh.(users := users))
    ensures ProfilesOk(cfg, sh) ==> ProfilesOk(cfg, sh.(users := users))
    ensures AcceptedOk(sh) ==> AcceptedOk(sh.(outbox := outbox))
  {
    forall m | AcceptedOk(sh) && 0 <= m < |sh.accepted|
      ensures CopiesRow(outbox, sh.accepted[m])
    {
      assert CopiesRow(sh.outbox, sh.accepted[m]);
      assert RowKept(sh.outbox[sh.accepted[m].row], outbox[sh.accepted[m].row]);
    }
  }

  lemma SaveKeepsTable(sh: Shared, email: string, hash: string, ch: Choice)
    requires UsersOk(sh) && Email.IsEmail(email) && hash != ""
    requires ch.random !in sh.users && !EmailTaken(sh.users, email) && |email| <= EMAIL_COLUMN
    ensures var t := Inserted(sh, email, hash, ch);
            TableOk(t.users) && UniqueEmails(t.users) && VersionsOk(t) && TableGrows(sh.users, t.users)
  {
    var t := Inserted(sh, email, hash, ch);
    forall a, b | SameEmail(t.users, a, b)
      ensures a == b
    {
      assert a != ch.random && b != ch.random ==> SameEmail(sh.users, a, b);
    }
    NewVersionOk(sh, t.users);
  }

  /** The new user has exactly one registration event, since it comes with the row. */
  lemma SaveKeepsOutbox(sh: Shared, email: string, hash: string, ch: Choice)
    requires OutboxOk(sh) && RegisteredOnce(sh) && ch.random !in sh.users
    ensures var t := Inserted(sh, email, hash, ch); OutboxOk(t) && RegisteredOnce(t)
  {
    var t := Inserted(sh, email, hash, ch);
    forall id
      ensures Registrations(t.outbox, id) == if id in t.users then 1 else 0
    {
      RegistrationsSnoc(sh.outbox, t.outbox[|sh.outbox|], id);
    }
    forall r | 0 <= r < |t.outbox|
      ensures PayloadOk(t.users, t.outbox[r].event, t.outbox[r].payload)
    {
      if r < |sh.outbox| {
        assert PayloadOk(sh.users, sh.outbox[r].event, sh.outbox[r].payload);
      }
    }
  }

  /** A change to the tables that keeps them sound and marks no row keeps the rest sound too. */
  lemma TablesChangeOk(cfg: Config, sh: Shared, t: Shared)
    requires ShOk(cfg, sh) && t == sh.(users := t.users, versions := t.versions, outbox := t.outbox)
    requires UsersOk(t) && TableGrows(sh.users, t.users) && OutboxGrows(sh.outbox, t.outbox)
    requires forall r :: 0 <= r < |t.outbox| && t.outbox[r].publishedAt.Some? ==>
        r < |sh.outbox| && sh.outbox[r].publishedAt.Some?
    ensures ShOk(cfg, t) && Grows(sh, t)
  {
    GrowthKeepsReferences(cfg, sh, t.users, t.outbox);
    KeepsPublished(sh, t);
    assert Routed(cfg, t) == Routed(cfg, sh);
  }

  lemma SaveOk(cfg: Config, sh: Shared, email: string, hash: string, ch: Choice)
    requires ShOk(cfg, sh) && Email.IsEmail(email) && hash != ""
    ensures var t := Perform(cfg, sh, Save(email, hash), ch).0; ShOk(cfg, t) && Grows(sh, t)
  {
    if !(ch.random in sh.users || EmailTaken(sh.users, email) || |email| > EMAIL_COLUMN) {
      SaveKeepsTable(sh, email, hash, ch);
      SaveKeepsOutbox(sh, email, hash, ch);
      TablesChangeOk(cfg, sh, Inserted(sh, email, hash, ch));
    }
  }

  lemma KeepsPublished(sh: Shared, t: Shared)
    requires PublishedOk(sh) && |sh.outbox| <= |t.outbox| && sh.accepted <= t.accepted
    requires forall r :: 0 <= r < |t.outbox| && t.outbox[r].publishedAt.Some? ==>
        r < |sh.outbox| && sh.outbox[r].publishedAt.Some?
    ensures PublishedOk(t)
  {
    forall r | 0 <= r < |t.outbox| && t.outbox[r].publishedAt.Some?
      ensures WasAccepted(t, r)
    {
      AcceptedStays(sh, t, r);
    }
  }

  lemma AcceptedStays(sh: Shared, t: Shared, row: nat)
    requires WasAccepted(sh, row) && sh.accepted <= t.accepted
    ensures WasAccepted(t, row)
  {
    var m :| 0 <= m < |sh.accepted| && sh.accepted[m].row == row;
    assert t.accepted[m].row == row;
  }

  lemma RewriteKeepsTable(users: UserTable, row: UserState)
    requires TableOk(users) && UniqueEmails(users)
    requires row.id in users && SameIdentity(row, users[row.id]) && RowOk(row)
    ensures var t := users[row.id := row]; TableOk(t) && UniqueEmails(t) && TableGrows(users, t)
  {
    var t := users[row.id := row];
    assert users[row.id].id == row.id;
    forall a, b | SameEmail(t, a, b)
      ensures a == b
    {
      assert SameEmail(users, a, b);
    }
  }

  lemma NewVersionOk(sh: Shared, users: UserTable)
    requires VersionsOk(sh) && TableOk(users) && TableGrows(sh.users, users)
    ensures VersionsOk(WithUsers(sh, users))
  {
    var t := WithUsers(sh, users);
    forall v | 0 <= v < |t.versions|
      ensures TableOk(t.versions[v]) && TableGrows(t.versions[v], users)
    {
      if v < |sh.versions| {
        assert TableGrows(sh.versions[v], sh.users);
      }
    }
  }

  /** Replacing a row by one with the same identity. */
  lemma RewriteKeepsUsers(sh: Shared, row: UserState)
    requires UsersOk(sh) && row.id in sh.users && SameIdentity(row, sh.users[row.id])
    requires RowOk(row)
    ensures var t := WithUsers(sh, sh.users[row.id := row]); UsersOk(t) && Grows(sh, t)
  {
    RewriteKeepsTable(sh.users, row);
    NewVersionOk(sh, sh.users[row.id := row]);
  }

  lemma RewriteOk(cfg: Config, sh: Shared, row: UserState)
    requires ShOk(cfg, sh) && row.id in sh.users && SameIdentity(row, sh.users[row.id])
    requires RowOk(row)
    ensures var t := WithUsers(sh, sh.users[row.id := row]); ShOk(cfg, t) && Grows(sh, t)
  {
    RewriteKeepsUsers(sh, row);
    TablesChangeOk(cfg, sh, WithUsers(sh, sh.users[row.id := row]));
  }

  lemma SaveCommandOk(cfg: Config, sh: Shared, e: EventType, p: Payload, ch: Choice)
    requires ShOk(cfg, sh) && !e.UserRegistered? && PayloadOk(sh.users, e, p)
    ensures var t := Perform(cfg, sh, SaveCommand(e, p), ch).0; ShOk(cfg, t) && Grows(sh, t)
  {
    var t := Perform(cfg, sh, SaveCommand(e, p), ch).0;
    forall id
      ensures Registrations(t.outbox, id) == Registrations(sh.outbox, id)
    {
      RegistrationsSnoc(sh.outbox, t.outbox[|sh.outbox|], id);
    }
    TablesChangeOk(cfg, sh, t);
  }

  /** Redis changes that keep the values sound. */
  lemma RedisChangeOk(cfg: Config, sh: Shared, t: Shared)
    requires ShOk(cfg, sh) && t == sh.(tokens := t.tokens, profiles := t.profiles)
    requires TokensOk(cfg, t) && ProfilesOk(cfg, t)
    ensures ShOk(cfg, t) && Grows(sh, t)
  {
    assert Routed(cfg, t) == Routed(cfg, sh);
    KeepsPublished(sh, t);
  }

  /** One more copy of an outbox row in the broker, queued if it is routed. */
  lemma AcceptOk(cfg: Config, sh: Shared, t: Shared, m: Message)
    requires ShOk(cfg, sh) && CopiesRow(sh.outbox, m)
    requires t == sh.(accepted := sh.accepted + [m],
                      ready := if cfg.topology.Routes(m.event) then sh.ready + {|sh.accepted|} else sh.ready)
    ensures ShOk(cfg, t) && Grows(sh, t) && WasAccepted(t, m.row)
  {
    hide PublishedOk, QueueOk;
    var n := |sh.accepted|;
    assert t.accepted[n].row == m.row;
    KeepsPublished(sh, t);
    AcceptQueues(cfg, sh, t, m);
  }

  lemma AcceptQueues(cfg: Config, sh: Shared, t: Shared, m: Message)
    requires QueueOk(cfg, sh)
    requires t == sh.(accepted := sh.accepted + [m],
                      ready := if cfg.topology.Routes(m.event) then sh.ready + {|sh.accepted|} else sh.ready)
    ensures QueueOk(cfg, t)
  {
    var n := |sh.accepted|;
    assert Routed(cfg, t) == Routed(cfg, sh) + (if cfg.topology.Routes(m.event) then {n} else {});
    assert n !in Routed(cfg, sh);
  }

  lemma PublishOk(cfg: Config, sh: Shared, item: Item, ch: Choice)
    requires ShOk(cfg, sh) && ItemOk(sh, item)
    ensures var t := Perform(cfg, sh, Publish(item), ch).0;
            ShOk(cfg, t) && Grows(sh, t) && WasAccepted(t, item.row)
  {
    AcceptOk(cfg, sh, Perform(cfg, sh, Publish(item), ch).0, Message(item.event, item.payload, item.row));
  }

  lemma MarkOk(cfg: Config, sh: Shared, rows: seq<nat>, ch: Choice)
    requires ShOk(cfg, sh) && forall i :: 0 <= i < |rows| ==> WasAccepted(sh, rows[i])
    ensures var t := Perform(cfg, sh, Mark(rows), ch).0; ShOk(cfg, t) && Grows(sh, t)
  {
    hide UsersOk, PublishedOk, AcceptedOk, Routed, Marked, OutboxGrows;
    MarkGrows(sh, rows);
    MarkKeepsUsers(sh, rows);
    MarkKeepsPublished(sh, rows);
    SameRouted(cfg, sh, Perform(cfg, sh, Mark(rows), ch).0);
  }

  lemma SameRouted(cfg: Config, a: Shared, b: Shared)
    requires a.accepted == b.accepted
    ensures Routed(cfg, a) == Routed(cfg, b)
  {
  }

  lemma MarkGrows(sh: Shared, rows: seq<nat>)
    ensures OutboxGrows(sh.outbox, Marked(sh.outbox, rows, sh.now))
    ensures AcceptedOk(sh) ==> AcceptedOk(sh.(outbox := Marked(sh.outbox, rows, sh.now)))
  {
  }

  lemma MarkKeepsUsers(sh: Shared, rows: seq<nat>)
    requires UsersOk(sh)
    ensures UsersOk(sh.(outbox := Marked(sh.outbox, rows, sh.now)))
  {
    var t := sh.(outbox := Marked(sh.outbox, rows, sh.now));
    forall id
      ensures Registrations(t.outbox, id) == Registrations(sh.outbox, id)
    {
      RegistrationsSame(sh.outbox, t.outbox, id);
    }
  }

  lemma MarkKeepsPublished(sh: Shared, rows: seq<nat>)
    requires PublishedOk(sh) && forall i :: 0 <= i < |rows| ==> WasAccepted(sh, rows[i])
    ensures PublishedOk(sh.(outbox := Marked(sh.outbox, rows, sh.now)))
  {
    var t := sh.(outbox := Marked(sh.outbox, rows, sh.now));
    forall r | 0 <= r < |t.outbox| && t.outbox[r].publishedAt.Some?
      ensures WasAccepted(t, r)
    {
      assert r in rows || sh.outbox[r].publishedAt.Some?;
      assert WasAccepted(sh, r);
      AcceptedStays(sh, t, r);
    }
  }

  lemma RedisOk(cfg: Config, sh: Shared, op: Op, ch: Choice)
    requires ShOk(cfg, sh) && OpOk(cfg, sh, op) && (op.Mint? || op.Del? || op.SetProfile?)
    ensures var t := Perform(cfg, sh, op, ch).0; ShOk(cfg, t) && Grows(sh, t)
  {
    RedisChangeOk(cfg, sh, Perform(cfg, sh, op, ch).0);
  }

  lemma SettleOk(cfg: Config, sh: Shared, op: Op, ch: Choice)
    requires ShOk(cfg, sh) && OpOk(cfg, sh, op) && (op.Ack? || op.Nack?)
    ensures var t := Perform(cfg, sh, op, ch).0; ShOk(cfg, t) && Grows(sh, t)
  {
    hide UsersOk, AcceptedOk, PublishedOk, TokensOk, ProfilesOk;
    var t := Perform(cfg, sh, op, ch).0;
    QueueChangeOk(cfg, sh, t);
  }

  predicate WritesTables(op: Op) {
    op.Save? || op.Update? || op.UpdateRoles? || op.SaveCommand? || op.Mark?
  }

  lemma TablesOk(cfg: Config, sh: Shared, op: Op, ch: Choice)
    requires ShOk(cfg, sh) && OpOk(cfg, sh, op) && WritesTables(op)
    ensures var t := Perform(cfg, sh, op, ch).0; ShOk(cfg, t) && Grows(sh, t)
  {
    match op
    case Save(email, hash) => SaveOk(cfg, sh, email, hash, ch);
    case Update(u) =>
      if |u.totpSecret| <= SECRET_COLUMN {
        RewriteOk(cfg, sh, Overwritten(sh.users[u.id], u));
      }
    case UpdateRoles(id, roles) =>
      if id in sh.users && roles.Some? {
        RewriteOk(cfg, sh, sh.users[id].(roles := roles.value, updatedAt := sh.now));
      }
    case SaveCommand(e, p) => SaveCommandOk(cfg, sh, e, p, ch);
    case Mark(rows) => MarkOk(cfg, sh, rows, ch);
  }

  lemma PerformKeeps(cfg: Config, sh: Shared, op: Op, ch: Choice)
    requires ShOk(cfg, sh) && OpOk(cfg, sh, op)
    ensures var t := Perform(cfg, sh, op, ch).0; ShOk(cfg, t) && Grows(sh, t)
  {
    if WritesTables(op) {
      TablesOk(cfg, sh, op, ch);
    } else if op.Publish? {
      PublishOk(cfg, sh, op.item, ch);
    } else if op.Ack? || op.Nack? {
      SettleOk(cfg, sh, op, ch);
    } else if op.Mint? || op.Del? || op.SetProfile? {
      RedisOk(cfg, sh, op, ch);
    } else {
      ReadsOnly(cfg, sh, op, ch);
    }
  }

  predicate Writes(op: Op) {
    WritesTables(op) || op.Publish? || op.Ack? || op.Nack? || op.Mint? || op.Del? || op.SetProfile?
  }

  lemma ReadsOnly(cfg: Config, sh: Shared, op: Op, ch: Choice)
    requires !Writes(op)
    ensures Perform(cfg, sh, op, ch).0 == sh
  {
  }

  lemma UsersUnchanged(cfg: Config, sh: Shared, op: Op, ch: Choice)
    requires !op.Save? && !op.Update? && !op.UpdateRoles?
    ensures Exec(cfg, sh, op, ch).0.users == sh.users
  {
    if !Writes(op) {
      hide Perform;
      ReadsOnly(cfg, Later(sh, ch), op, ch);
    }
  }

  lemma LoadedOk(cfg: Config, sh: Shared, row: UserState, now: Time)
    requires Email.FixesEmails(cfg.normalise)
    requires Restorable(row) && row.id in sh.users && SameIdentity(row, sh.users[row.id])
    ensures Loaded(cfg, row, now).Found? && UserOk(sh, Loaded(cfg, row, now).user)
    ensures Loaded(cfg, row, now).user.id == row.id
  {
    LoadedUser(cfg.normalise, row, now);
  }

  lemma RowKnown(cfg: Config, sh: Shared, id: Id)
    requires ShOk(cfg, sh) && id in sh.users
    ensures sh.users[id].id == id && RowOk(sh.users[id])
  {
  }

  /** What the replica shows of a user is a past state of the user's row. */
  lemma VersionKnown(cfg: Config, sh: Shared, v: nat, id: Id)
    requires ShOk(cfg, sh) && v < |sh.versions| && id in sh.versions[v]
    ensures var row := sh.versions[v][id];
            row.id == id && RowOk(row) && id in sh.users && SameIdentity(row, sh.users[id])
  {
    assert TableOk(sh.versions[v]) && TableGrows(sh.versions[v], sh.users);
  }

  lemma FindOk(cfg: Config, sh: Shared, op: Op, ch: Choice)
    requires ShOk(cfg, sh) && Email.FixesEmails(cfg.normalise)
    requires op.FindByEmail? || op.FindByID? || op.ReplicaFind?
    ensures ReplyOk(cfg, sh, op, Perform(cfg, sh, op, ch).1)
    ensures op.FindByID? && op.id in sh.users ==> Perform(cfg, sh, op, ch).1.Found?
    ensures op.FindByEmail? && EmailTaken(sh.users, op.email) ==> Perform(cfg, sh, op, ch).1.Found?
  {
    hide ShOk, UserOk, Loaded;
    if op.FindByEmail? {
      var row := RowByEmail(sh.users, op.email);
      if row.Some? {
        var id :| id in sh.users && sh.users[id] == row.value;
        RowKnown(cfg, sh, id);
        LoadedOk(cfg, sh, row.value, sh.now);
      }
    } else if op.FindByID? {
      if op.id in sh.users {
        RowKnown(cfg, sh, op.id);
        LoadedOk(cfg, sh, sh.users[op.id], sh.now);
      }
    } else if ch.version < |sh.versions| && op.id in sh.versions[ch.version] {
      VersionKnown(cfg, sh, ch.version, op.id);
      LoadedOk(cfg, sh, ReplicaRow(sh.versions[ch.version][op.id]), sh.now);
    }
  }

  lemma ReadReplyOk(cfg: Config, sh: Shared, op: Op, ch: Choice)
    requires ShOk(cfg, sh) && !op.FindByEmail? && !op.FindByID? && !op.ReplicaFind? && !op.Publish?
    ensures var (t, reply) := Perform(cfg, sh, op, ch); ReplyOk(cfg, t, op, reply)
  {
    if op.Get? || op.GetProfile? || op.SelectBatch? {
      StoredReplyOk(cfg, sh, op, ch);
    } else {
      PlainReplyOk(cfg, sh, op, ch);
    }
  }

  lemma StoredReplyOk(cfg: Config, sh: Shared, op: Op, ch: Choice)
    requires ShOk(cfg, sh) && (op.Get? || op.GetProfile? || op.SelectBatch?)
    ensures var (t, reply) := Perform(cfg, sh, op, ch); ReplyOk(cfg, t, op, reply)
  {
    hide UsersOk, AcceptedOk, PublishedOk, QueueOk;
  }

  lemma PlainReplyOk(cfg: Config, sh: Shared, op: Op, ch: Choice)
    requires !op.FindByEmail? && !op.FindByID? && !op.ReplicaFind? && !op.Publish?
    requires !op.Get? && !op.GetProfile? && !op.SelectBatch?
    ensures var (t, reply) := Perform(cfg, sh, op, ch); ReplyOk(cfg, t, op, reply)
  {
    hide Inserted, Marked, Overwritten, EmailTaken;
  }

  lemma PerformReplyOk(cfg: Config, sh: Shared, op: Op, ch: Choice)
    requires ShOk(cfg, sh) && OpOk(cfg, sh, op) && Email.FixesEmails(cfg.normalise)
    ensures var (t, reply) := Perform(cfg, sh, op, ch); ReplyOk(cfg, t, op, reply)
  {
    hide ShOk;
    if op.FindByEmail? || op.FindByID? || op.ReplicaFind? {
      FindOk(cfg, sh, op, ch);
    } else if op.Publish? {
      PublishOk(cfg, sh, op.item, ch);
    } else {
      ReadReplyOk(cfg, sh, op, ch);
    }
  }

  lemma PerformOk(cfg: Config, sh: Shared, op: Op, ch: Choice)
    requires ShOk(cfg, sh) && OpOk(cfg, sh, op) && Email.FixesEmails(cfg.normalise)
    ensures var (t, reply) := Perform(cfg, sh, op, ch);
            ShOk(cfg, t) && Grows(sh, t) && ReplyOk(cfg, t, op, reply)
  {
    PerformKeeps(cfg, sh, op, ch);
    PerformReplyOk(cfg, sh, op, ch);
  }

  /** Every operation that a process may ask for keeps the invariant, however it goes. */
  lemma ExecOk(cfg: Config, sh: Shared, op: Op, ch: Choice)
    requires ShOk(cfg, sh) && OpOk(cfg, sh, op) && Email.FixesEmails(cfg.normalise)
    ensures var (t, reply) := Exec(cfg, sh, op, ch);
            ShOk(cfg, t) && Grows(sh, t) && ReplyOk(cfg, t, op, reply)
  {
    hide ShOk, OpOk, ReplyOk, Perform, Grows;
    var s := Later(sh, ch);
    LaterOk(cfg, sh, ch);
    OpOkLater(cfg, sh, op, ch);
    PerformOk(cfg, s, op, ch);
    FailedOk(cfg, s, op);
    FailedOk(cfg, Perform(cfg, s, op, ch).0, op);
    GrowsTransitive(sh, s, Perform(cfg, s, op, ch).0);
  }

  lemma FailedOk(cfg: Config, sh: Shared, op: Op)
    ensures ReplyOk(cfg, sh, op, Failed)
  {
  }

  lemma OpOkLater(cfg: Config, sh: Shared, op: Op, ch: Choice)
    requires OpOk(cfg, sh, op)
    ensures OpOk(cfg, Later(sh, ch), op)
  {
    if op.Mark? {
      forall i | 0 <= i < |op.rows|
        ensures WasAccepted(Later(sh, ch), op.rows[i])
      {
        AcceptedStays(sh, Later(sh, ch), op.rows[i]);
      }
    }
  }
}
