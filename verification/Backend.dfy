/** The stores as an object: the write database, its replica, the broker and Redis, with one method for
    each operation that the repositories and clients of the program perform on them. */
module Backend {
  import opened Wrappers
  import opened Users
  import opened Store
  import opened Topology
  import opened Invariant
  import opened Machine
  import opened Serial

  lemma InsertKeepsUnique(users: UserTable, row: UserState)
    requires UniqueEmails(users) && row.id !in users && !EmailTaken(users, row.email)
    ensures UniqueEmails(users[row.id := row])
  {
    var after := users[row.id := row];
    forall a, b | SameEmail(after, a, b)
      ensures a == b
    {
      assert a != row.id && b != row.id ==> SameEmail(users, a, b);
    }
  }

  lemma RewriteKeepsUnique(users: UserTable, id: Id, row: UserState)
    requires UniqueEmails(users) && id in users && row.email == users[id].email
    ensures UniqueEmails(users[id := row])
  {
    var after := users[id := row];
    forall a, b | SameEmail(after, a, b)
      ensures a == b
    {
      assert SameEmail(users, a, b);
    }
  }

  class Backend {
    const cfg: Config
    const env: Env
    var n: nat  // operations performed so far
    var now: Time
    var users: UserTable
    var versions: seq<UserTable>
    var outbox: seq<OutboxRow>
    var accepted: seq<Message>
    var ready: set<nat>
    var unacked: set<nat>
    var acked: set<nat>
    var tokens: map<Key, Entry>
    var profiles: map<Id, CachedProfile>

    function View(): Shared
      reads this
    {
      Shared(now, users, versions, outbox, accepted, ready, unacked, acked, tokens, profiles)
    }

    /** The UNIQUE constraint of the users table. */
    ghost predicate Valid()
      reads this
    {
      UniqueEmails(users)
    }

    /** Where running the process to its end would lead from here. */
    ghost function Rest(p: Proc): (end: End)
      reads this
      ensures p.Finished? ==> end == End(View(), p.outcome, n)
    {
      Finish(cfg, View(), p, env, n)
    }

    /** The operation was performed as specified, and the process is one operation further. */
    twostate predicate Performs(op: Op, reply: Reply, p: Proc)
      requires !p.Finished?
      reads this
    {
      && Valid() && n == old(n) + 1
      && (View(), reply) == Exec(cfg, old(View()), op, env(old(n)))
      && Rest(Resume(cfg, p, reply, now)) == old(Rest(p))
    }

    constructor (cfg: Config, env: Env)
      ensures Valid() && this.cfg == cfg && this.env == env && View() == START && n == 0
    {
      this.cfg, this.env := cfg, env;
      n, now, users, versions := 0, 0, map[], [map[]];
      outbox, accepted, ready, unacked, acked := [], [], {}, {}, {};
      tokens, profiles := map[], map[];
    }

    /** The environment's choice for the next operation, before which some time passes. */
    method Await() returns (ch: Choice)
      modifies `n, `now
      ensures ch == env(old(n)) && n == old(n) + 1 && View() == Later(old(View()), ch)
    {
      ch := env(n);
      n, now := n + 1, now + ch.delay;
    }

    // ---------- PostgresUserRepository ----------

    method FindByEmail(email: string, ghost p: Proc) returns (reply: Reply, user: User?)
      requires Valid() && !p.Finished? && NextOp(p) == Op.FindByEmail(email)
      modifies this
      ensures Performs(Op.FindByEmail(email), reply, p)
      ensures if reply.Found? then user != null && fresh(user) && user.View() == reply.user else user == null
    {
      hide Resume, NextOp;
      var ch := Await();
      user := null;
      if !ch.fault.Fine? {
        return Failed, null;
      }
      if !EmailTaken(users, email) {
        return Absent, null;
      }
      var id :| id in users && users[id].email == email;
      FoundRow(users, email, id);
      user := Restored(cfg.normalise, users[id], now);
      reply := if user == null then Failed else Found(user.View());
    }

    method FindByID(id: Id, ghost p: Proc) returns (reply: Reply, user: User?)
      requires Valid() && !p.Finished? && NextOp(p) == Op.FindByID(id)
      modifies this
      ensures Performs(Op.FindByID(id), reply, p)
      ensures if reply.Found? then user != null && fresh(user) && user.View() == reply.user else user == null
    {
      hide Resume, NextOp;
      var ch := Await();
      if !ch.fault.Fine? {
        return Failed, null;
      }
      if id !in users {
        return Absent, null;
      }
      user := Restored(cfg.normalise, users[id], now);
      reply := if user == null then Failed else Found(user.View());
    }

    /** Saves a new user: its row and its event are inserted in one transaction. */
    method Save(email: string, hash: string, ghost p: Proc) returns (reply: Reply)
      requires Valid() && !p.Finished? && NextOp(p) == Op.Save(email, hash)
      modifies this
      ensures Performs(Op.Save(email, hash), reply, p)
    {
      hide Inserted, UniqueEmails, EmailTaken;
      hide Resume, NextOp;
      var ch := Await();
      if ch.fault.Lost? {
        return Failed;
      }
      var committed := Insert(email, hash, ch);
      reply := if committed && ch.fault.Fine? then Done else Failed;
    }

    method Insert(email: string, hash: string, ch: Choice) returns (committed: bool)
      requires Valid()
      modifies this
      ensures Valid() && n == old(n)
      ensures committed == !(ch.random in old(users) || EmailTaken(old(users), email) || |email| > 255)
      ensures View() == if committed then Inserted(old(View()), email, hash, ch) else old(View())
      ensures committed ==>
                && users.Keys == old(users).Keys + {ch.random} && |outbox| == |old(outbox)| + 1
                && (forall id :: id in old(users) ==> users[id] == old(users)[id]) && old(outbox) <= outbox
                && var row, event := users[ch.random], outbox[|old(outbox)|];
                   && row.id == ch.random && row.email == email && row.hash == hash && row.roles == ["user"]
                   && !row.emailVerified && !row.mfaEnabled && row.totpSecret == ""
                   && row.createdAt == now && row.updatedAt == now
                   && event.event.UserRegistered? && event.publishedAt == None && event.payload.Json?
                   && event.payload.id == ch.random && event.payload.email == email && event.payload.createdAt == now
    {
      var user := new User(NewUser(ch.random, email, hash, now));
      if user.id in users || EmailTaken(users, user.email) || |user.email| > EMAIL_COLUMN {
        return false;
      }
      var event := OutboxRow(UserRegistered, RegisteredPayload(user.id, user.email, user.createdAt), ch.stamp, None);
      InsertKeepsUnique(users, user.View());
      users := users[user.id := user.View()];
      outbox := outbox + [event];
      versions := versions + [users];
      committed := true;
    }

    method Update(user: User, ghost p: Proc) returns (reply: Reply)
      requires Valid() && !p.Finished? && NextOp(p) == Op.Update(user.View())
      modifies this
      ensures Performs(Op.Update(user.View()), reply, p)
      ensures user.id in old(users) && |user.totpSecret| <= 128 && env(old(n)).fault != Lost ==>
                users == old(users)[user.id := old(users)[user.id].(hash := user.password,
                    mfaEnabled := user.mfaEnabled, totpSecret := user.totpSecret, updatedAt := user.updatedAt)]
      ensures user.id !in old(users) || |user.totpSecret| > 128 || env(old(n)).fault == Lost ==> users == old(users)
    {
      hide Resume, NextOp;
      var ch := Await();
      if ch.fault.Lost? || (user.id in users && |user.totpSecret| > SECRET_COLUMN) {
        return Failed;
      }
      if user.id in users {
        var row := Overwritten(users[user.id], user.View());
        RewriteKeepsUnique(users, user.id, row);
        users := users[user.id := row];
        versions := versions + [users];
      }
      reply := if ch.fault.Late? then Failed else Done;
    }

    method UpdateRoles(id: Id, roles: Option<seq<string>>, ghost p: Proc) returns (reply: Reply)
      requires Valid() && !p.Finished? && NextOp(p) == Op.UpdateRoles(id, roles)
      modifies this
      ensures Performs(Op.UpdateRoles(id, roles), reply, p)
    {
      hide Resume, NextOp;
      var ch := Await();
      if ch.fault.Lost? || (id in users && roles.None?) {
        return Failed;
      }
      if id in users {
        var row := users[id].(roles := roles.value, updatedAt := now);
        RewriteKeepsUnique(users, id, row);
        users := users[id := row];
        versions := versions + [users];
      }
      reply := if ch.fault.Late? then Failed else Done;
    }

    // ---------- PostgresOutboxRepository and OutboxRelay ----------

    method SaveCommand(event: EventType, payload: Payload, ghost p: Proc) returns (reply: Reply)
      requires Valid() && !p.Finished? && NextOp(p) == Op.SaveCommand(event, payload)
      modifies this
      ensures Performs(Op.SaveCommand(event, payload), reply, p)
    {
      hide Resume, NextOp;
      var ch := Await();
      if ch.fault.Lost? {
        return Failed;
      }
      outbox := outbox + [OutboxRow(event, payload, ch.stamp, None)];
      reply := if ch.fault.Late? then Failed else Done;
    }

    method SelectBatch(ghost p: Proc) returns (reply: Reply)
      requires Valid() && !p.Finished? && NextOp(p) == Op.SelectBatch
      modifies this
      ensures Performs(Op.SelectBatch, reply, p)
      ensures var pick := env(old(n)).pick;
              && (reply.Rows? <==> env(old(n)).fault.Fine? && IsBatch(old(outbox), pick, 50))
              && (reply.Rows? ==>
                    |reply.items| == |pick| <= 50
                    && forall i :: 0 <= i < |pick| ==>
                         && reply.items[i].row == pick[i] < |old(outbox)|
                         && reply.items[i].event == old(outbox)[pick[i]].event
                         && reply.items[i].payload == old(outbox)[pick[i]].payload)
    {
      hide Resume, NextOp;
      var ch := Await();
      if !ch.fault.Fine? || !IsBatch(outbox, ch.pick, BATCH) {
        return Failed;
      }
      reply := Rows(ItemsAt(outbox, ch.pick));
      hide IsBatch, ItemsAt;
    }

    method Publish(item: Item, ghost p: Proc) returns (reply: Reply)
      requires Valid() && !p.Finished? && NextOp(p) == Op.Publish(item)
      modifies this
      ensures Performs(Op.Publish(item), reply, p)
    {
      hide Resume, NextOp;
      var ch := Await();
      if ch.fault.Lost? {
        return Failed;
      }
      if cfg.topology.Routes(item.event) {
        ready := ready + {|accepted|};
      }
      accepted := accepted + [Message(item.event, item.payload, item.row)];
      reply := if ch.fault.Late? then Failed else Done;
    }

    method Mark(rows: seq<nat>, ghost p: Proc) returns (reply: Reply)
      requires Valid() && !p.Finished? && NextOp(p) == Op.Mark(rows)
      modifies this
      ensures Performs(Op.Mark(rows), reply, p)
    {
      hide Resume, NextOp, Marked;
      var ch := Await();
      if ch.fault.Lost? {
        return Failed;
      }
      outbox := Marked(outbox, rows, now);
      reply := if ch.fault.Late? then Failed else Done;
    }

    // ---------- PostgresReadRepository and RedisProfileCache ----------

    method FindInReplica(id: Id, ghost p: Proc) returns (reply: Reply, user: User?)
      requires Valid() && !p.Finished? && NextOp(p) == Op.ReplicaFind(id)
      modifies this
      ensures Performs(Op.ReplicaFind(id), reply, p)
      ensures if reply.Found? then user != null && fresh(user) && user.View() == reply.user else user == null
    {
      hide Resume, NextOp;
      var ch := Await();
      if !ch.fault.Fine? {
        return Failed, null;
      }
      if ch.version >= |versions| || id !in versions[ch.version] {
        return Absent, null;
      }
      user := Restored(cfg.normalise, ReplicaRow(versions[ch.version][id]), now);
      reply := if user == null then Failed else Found(user.View());
    }

    method GetProfile(id: Id, ghost p: Proc) returns (reply: Reply)
      requires Valid() && !p.Finished? && NextOp(p) == Op.GetProfile(id)
      modifies this
      ensures Performs(Op.GetProfile(id), reply, p)
    {
      hide Resume, NextOp;
      var ch := Await();
      if !ch.fault.Fine? {
        return Failed;
      }
      reply := if id in profiles && now < profiles[id].expires then Cached(profiles[id].profile) else Absent;
    }

    method SetProfile(profile: Profile, ghost p: Proc) returns (reply: Reply)
      requires Valid() && !p.Finished? && NextOp(p) == Op.SetProfile(profile)
      modifies this
      ensures Performs(Op.SetProfile(profile), reply, p)
      ensures profiles == if env(old(n)).fault == Lost then old(profiles)
                          else old(profiles)[profile.id := CachedProfile(profile, now + 600_000_000_000)]
    {
      hide Resume, NextOp;
      var ch := Await();
      if ch.fault.Lost? {
        return Failed;
      }
      profiles := profiles[profile.id := CachedProfile(profile, now + PROFILE_TTL)];
      reply := if ch.fault.Late? then Failed else Done;
    }

    // ---------- Tokens in Redis ----------

    method Get(key: Key, ghost p: Proc) returns (reply: Reply)
      requires Valid() && !p.Finished? && NextOp(p) == Op.Get(key)
      modifies this
      ensures Performs(Op.Get(key), reply, p)
    {
      hide Resume, NextOp;
      var ch := Await();
      if !ch.fault.Fine? {
        return Failed;
      }
      reply := if key in tokens && now < tokens[key].expires then Got(tokens[key].userId) else Absent;
    }

    /** Stores a new token, a UUID, for the user. */
    method Mint(kind: Kind, userId: Id, ghost p: Proc) returns (reply: Reply)
      requires Valid() && !p.Finished? && NextOp(p) == Op.Mint(kind, userId)
      modifies this
      ensures Performs(Op.Mint(kind, userId), reply, p)
    {
      hide Resume, NextOp;
      var ch := Await();
      if ch.fault.Lost? {
        return Failed;
      }
      tokens := tokens[Key(kind, ch.random) := Entry(userId, now + Ttl(kind))];
      reply := if ch.fault.Late? then Failed else Minted(ch.random);
    }

    method Del(key: Key, ghost p: Proc) returns (reply: Reply)
      requires Valid() && !p.Finished? && NextOp(p) == Op.Del(key)
      modifies this
      ensures Performs(Op.Del(key), reply, p)
    {
      hide Resume, NextOp;
      var ch := Await();
      if ch.fault.Lost? {
        return Failed;
      }
      tokens := tokens - {key};
      reply := if ch.fault.Late? then Failed else Done;
    }

    // ---------- Hashing, token and one-time-code services ----------

    method Hash(plainText: string, ghost p: Proc) returns (reply: Reply)
      requires Valid() && !p.Finished? && NextOp(p) == Op.Hash(plainText)
      modifies this
      ensures Performs(Op.Hash(plainText), reply, p)
    {
      hide Resume, NextOp;
      var ch := Await();
      var hash := cfg.hash(plainText, ch.salt);
      reply := if !ch.fault.Fine? || plainText == "" || hash == "" then Failed else Hashed(hash);
    }

    method Compare(plainText: string, hash: string, ghost p: Proc) returns (reply: Reply)
      requires Valid() && !p.Finished? && NextOp(p) == Op.Compare(plainText, hash)
      modifies this
      ensures Performs(Op.Compare(plainText, hash), reply, p)
    {
      hide Resume, NextOp;
      var ch := Await();
      var answer := cfg.compare(plainText, hash);
      if !ch.fault.Fine? || answer.CompareError? {
        return Failed;
      }
      reply := Compared(answer.matches, answer.needsUpgrade);
    }

    method Sign(user: User, ghost p: Proc) returns (reply: Reply)
      requires Valid() && !p.Finished? && NextOp(p) == Op.Sign(user.View())
      modifies this
      ensures Performs(Op.Sign(user.View()), reply, p)
    {
      hide Resume, NextOp;
      var ch := Await();
      reply := if ch.fault.Fine? then Done else Failed;
    }

    method CheckTotp(code: string, secret: string, ghost p: Proc) returns (reply: Reply)
      requires Valid() && !p.Finished? && NextOp(p) == Op.CheckTotp(code, secret)
      modifies this
      ensures Performs(Op.CheckTotp(code, secret), reply, p)
    {
      hide Resume, NextOp;
      var ch := Await();
      reply := if ch.fault.Fine? then Checked(cfg.totp(code, secret, now)) else Failed;
    }

    method NewSecret(ghost p: Proc) returns (reply: Reply)
      requires Valid() && !p.Finished? && NextOp(p) == Op.NewSecret
      modifies this
      ensures Performs(Op.NewSecret, reply, p)
    {
      hide Resume, NextOp;
      var ch := Await();
      reply := if ch.fault.Fine? then Minted(ch.random) else Failed;
    }

    // ---------- The consumer's side of the queue ----------

    method Ack(m: nat, ghost p: Proc) returns (reply: Reply)
      requires Valid() && !p.Finished? && NextOp(p) == Op.Ack(m)
      modifies this
      ensures Performs(Op.Ack(m), reply, p)
    {
      hide Resume, NextOp;
      var ch := Await();
      unacked, acked := unacked - {m}, acked + {m};
      reply := Done;
    }

    /** Puts the message back into the queue. */
    method Nack(m: nat, ghost p: Proc) returns (reply: Reply)
      requires Valid() && !p.Finished? && NextOp(p) == Op.Nack(m)
      modifies this
      ensures Performs(Op.Nack(m), reply, p)
    {
      hide Resume, NextOp;
      var ch := Await();
      unacked, ready := unacked - {m}, ready + {m};
      reply := Done;
    }
  }
}
