/** Everything the processes share - the users and outbox tables, the broker, Redis and the clock -
    and the single operations they perform on it, each of which may fail. */
module Store {
  import opened Wrappers
  import opened Topology
  import Email
  import PasswordServer
  import opened Users

  // ---------- Values kept in the stores ----------

  /** JSON payloads: decoding fills each field it knows from the field of that name, and leaves the
      others at their zero value. `Malformed` is text that does not decode. */
  datatype Payload =
    | Malformed
    | Json(id: Id, email: string, createdAt: Time, password: string, userId: Id, roles: Option<seq<string>>,
        newHash: string)

  const EMPTY := Json("", "", 0, "", "", None, "")

  function RegisterPayload(email: string, password: string): Payload {
    EMPTY.(email := email, password := password)
  }

  function RolesPayload(userId: Id, roles: Option<seq<string>>): Payload {
    EMPTY.(userId := userId, roles := roles)
  }

  function RegisteredPayload(id: Id, email: string, createdAt: Time): Payload {
    EMPTY.(id := id, email := email, createdAt := createdAt)
  }

  function ForgotPayload(id: Id, email: string): Payload {
    EMPTY.(id := id, email := email)
  }

  function UpgradePayload(userId: Id, newHash: string): Payload {
    EMPTY.(userId := userId, newHash := newHash)
  }

  datatype OutboxRow = OutboxRow(event: EventType, payload: Payload, createdAt: Time, publishedAt: Option<Time>)

  /** A message the broker took. `row` is the outbox row it was read from; no handler sees it. */
  datatype Message = Message(event: EventType, payload: Payload, row: nat)

  datatype Kind = Mfa | Refresh | Reset | Confirm

  datatype Key = Key(kind: Kind, token: string)

  const MINUTE: Time := 60_000_000_000
  const HOUR: Time := 60 * MINUTE
  const PROFILE_TTL: Time := 10 * MINUTE
  const BATCH := 50
  const EMAIL_COLUMN := 255
  const SECRET_COLUMN := 128

  function Ttl(kind: Kind): Time {
    match kind
    case Mfa => 5 * MINUTE
    case Refresh => 7 * 24 * HOUR
    case Reset => 15 * MINUTE
    case Confirm => 24 * HOUR
  }

  /** The Redis key of a token. */
  function KeyName(k: Key): string {
    (match k.kind
     case Mfa => "mfa_token:"
     case Refresh => "refresh_token:"
     case Reset => "password_reset:"
     case Confirm => "email_confirmation:") + k.token
  }

  /** Tokens of different kinds, or with different text, never share a Redis key. */
  lemma KeyNamesDistinct(a: Key, b: Key)
    requires KeyName(a) == KeyName(b)
    ensures a == b
  {
    assert KeyName(a)[0] == KeyName(b)[0];
    assert a.kind == b.kind;
    var n := |KeyName(a)| - |a.token|;
    assert a.token == KeyName(a)[n..] && b.token == KeyName(b)[n..];
  }

  lemma KeysArePrefixed(token: string)
    ensures KeyName(Key(Mfa, token)) == "mfa_token:" + token
    ensures KeyName(Key(Refresh, token)) == "refresh_token:" + token
    ensures KeyName(Key(Reset, token)) == "password_reset:" + token
    ensures KeyName(Key(Confirm, token)) == "email_confirmation:" + token
  {
  }

  datatype Entry = Entry(userId: Id, expires: Time)

  datatype Profile = Profile(id: Id, email: string, createdAt: string)

  datatype CachedProfile = CachedProfile(profile: Profile, expires: Time)

  type UserTable = map<Id, UserState>

  datatype Shared = Shared(
    now: Time,
    users: UserTable,
    versions: seq<UserTable>,   // every state the users table has had; a replica shows one of them
    outbox: seq<OutboxRow>,     // a row's position is its serial number
    accepted: seq<Message>,     // messages the broker took, in order
    ready: set<nat>,            // positions in `accepted` that wait in the queue,
    unacked: set<nat>,          // that a consumer holds,
    acked: set<nat>,            // and that are done
    tokens: map<Key, Entry>,
    profiles: map<Id, CachedProfile>)

  const START := Shared(0, map[], [map[]], [], [], {}, {}, {}, map[], map[])

  // ---------- Parameters ----------

  datatype CompareReply = CompareError | CompareAnswer(matches: bool, needsUpgrade: bool)

  type Salt = PasswordServer.Salt

  /** What this part of the model does not compute: string normalisation, the hashing service, TOTP
      validation and time formatting; and the topology. */
  datatype Config = Config(
    topology: Topology,
    normalise: Email.Normaliser,
    hash: (string, Salt) -> string,
    compare: (string, string) -> CompareReply,
    totp: (string, string, Time) -> bool,
    formatTime: Time -> string)

  /** Generated identifiers and secrets are not empty. */
  type Fresh = s: string | s != "" witness "x"

  /** How an operation goes: it takes effect and answers, is lost, or takes effect but reports an
      error. */
  datatype Fault = Fine | Lost | Late

  /** The environment's part in one operation. */
  datatype Choice = Choice(
    fault: Fault,
    delay: nat,        // time that passes before it
    random: Fresh,     // the random value generated for it
    salt: Salt,        // the salt the hashing service draws
    stamp: Time,       // the transaction time an inserted outbox row gets
    pick: seq<nat>,    // the rows a batch query returns
    version: nat)      // the state of the users table the replica shows

  // ---------- Operations ----------

  datatype Item = Item(row: nat, event: EventType, payload: Payload)

  datatype Op =
    | FindByEmail(email: string)
    | FindByID(id: Id)
    | Save(email: string, hash: string)
    | Update(user: UserState)
    | UpdateRoles(id: Id, roles: Option<seq<string>>)
    | SaveCommand(event: EventType, payload: Payload)
    | Hash(plainText: string)
    | Compare(plainText: string, hash: string)
    | Sign(user: UserState)
    | CheckTotp(code: string, secret: string)
    | NewSecret
    | Get(key: Key)
    | Mint(kind: Kind, userId: Id)
    | Del(key: Key)
    | ReplicaFind(id: Id)
    | GetProfile(id: Id)
    | SetProfile(profile: Profile)
    | SelectBatch
    | Publish(item: Item)
    | Mark(rows: seq<nat>)
    | Ack(message: nat)
    | Nack(message: nat)

  datatype Reply =
    | Failed
    | Absent
    | Done
    | Found(user: UserState)
    | Hashed(hash: string)
    | Compared(matches: bool, needsUpgrade: bool)
    | Checked(valid: bool)
    | Minted(token: Fresh)
    | Got(userId: Id)
    | Cached(profile: Profile)
    | Rows(items: seq<Item>)

  predicate EmailTaken(users: UserTable, email: string) {
    exists id :: id in users && users[id].email == email
  }

  ghost function RowByEmail(users: UserTable, email: string): (r: Option<UserState>)
    ensures r.None? <==> !EmailTaken(users, email)
    ensures r.Some? ==> exists id :: id in users && users[id] == r.value && r.value.email == email
  {
    if EmailTaken(users, email) then
      var id :| id in users && users[id].email == email;
      Some(users[id])
    else None
  }

  /** What the read repository takes of a row: it has neither the hash nor the roles. */
  function ReplicaRow(row: UserState): UserState {
    row.(hash := "fakehash", roles := [])
  }

  function Loaded(cfg: Config, row: UserState, now: Time): Reply {
    match Load(cfg.normalise, row, now)
    case Ok(u) => Found(u)
    case Err(_) => Failed
  }

  /** The rows `SELECT ... WHERE published_at IS NULL ORDER BY created_at LIMIT n` may return: rows
      created at the same time come in any order. */
  predicate IsBatch(outbox: seq<OutboxRow>, pick: seq<nat>, limit: nat) {
    && (forall i :: 0 <= i < |pick| ==> Unpublished(outbox, pick[i]))
    && (forall i, j :: 0 <= i < j < |pick| ==>
        pick[i] != pick[j] && outbox[pick[i]].createdAt <= outbox[pick[j]].createdAt)
    && |pick| <= limit
    && (forall r: nat :: r < |outbox| && Unpublished(outbox, r) && r !in pick ==>
          |pick| == limit && forall i :: 0 <= i < |pick| ==> outbox[pick[i]].createdAt <= outbox[r].createdAt)
  }

  predicate Unpublished(outbox: seq<OutboxRow>, r: nat) {
    r < |outbox| && outbox[r].publishedAt.None?
  }

  function ItemAt(outbox: seq<OutboxRow>, r: nat): Item
    requires r < |outbox|
  {
    Item(r, outbox[r].event, outbox[r].payload)
  }

  function ItemsAt(outbox: seq<OutboxRow>, pick: seq<nat>): seq<Item>
    requires forall i :: 0 <= i < |pick| ==> pick[i] < |outbox|
  {
    seq(|pick|, i requires 0 <= i < |pick| => ItemAt(outbox, pick[i]))
  }

  function Marked(outbox: seq<OutboxRow>, rows: seq<nat>, now: Time): seq<OutboxRow> {
    seq(|outbox|, r requires 0 <= r < |outbox| =>
      if r in rows then outbox[r].(publishedAt := Some(now)) else outbox[r])
  }

  function WithUsers(sh: Shared, users: UserTable): Shared {
    sh.(users := users, versions := sh.versions + [users])
  }

  /** The columns `Update` writes. */
  function Overwritten(row: UserState, u: UserState): UserState {
    row.(hash := u.hash, mfaEnabled := u.mfaEnabled, totpSecret := u.totpSecret, updatedAt := u.updatedAt)
  }

  function ProfileOf(cfg: Config, u: UserState): Profile {
    Profile(u.id, u.email, cfg.formatTime(u.createdAt))
  }

  predicate Live(sh: Shared, k: Key) {
    k in sh.tokens && sh.now < sh.tokens[k].expires
  }

  function Inserted(sh: Shared, email: string, hash: string, ch: Choice): Shared {
    var row := NewUser(ch.random, email, hash, sh.now);
    var event := OutboxRow(UserRegistered, RegisteredPayload(row.id, email, sh.now), ch.stamp, None);
    WithUsers(sh.(outbox := sh.outbox + [event]), sh.users[row.id := row])
  }

  /** The operation, when it takes effect. */
  ghost function Perform(cfg: Config, sh: Shared, op: Op, ch: Choice): (Shared, Reply) {
    match op
    case FindByEmail(email) =>
      (match RowByEmail(sh.users, email)
       case None => (sh, Absent)
       case Some(row) => (sh, Loaded(cfg, row, sh.now)))
    case FindByID(id) =>
      (sh, if id in sh.users then Loaded(cfg, sh.users[id], sh.now) else Absent)
    case Save(email, hash) =>
      // The user row and its event are inserted in one transaction, or neither is.
      if ch.random in sh.users || EmailTaken(sh.users, email) || |email| > EMAIL_COLUMN then (sh, Failed)
      else (Inserted(sh, email, hash, ch), Done)
    case Update(u) =>
      if u.id !in sh.users then (sh, Done)
      else if |u.totpSecret| > SECRET_COLUMN then (sh, Failed)
      else (WithUsers(sh, sh.users[u.id := Overwritten(sh.users[u.id], u)]), Done)
    case UpdateRoles(id, roles) =>
      if id !in sh.users then (sh, Done)
      else if roles.None? then (sh, Failed)  // a nil slice is NULL, which the column refuses
      else (WithUsers(sh, sh.users[id := sh.users[id].(roles := roles.value, updatedAt := sh.now)]), Done)
    case SaveCommand(event, payload) =>
      (sh.(outbox := sh.outbox + [OutboxRow(event, payload, ch.stamp, None)]), Done)
    case Hash(plainText) =>
      (sh, if plainText == "" || cfg.hash(plainText, ch.salt) == "" then Failed
          else Hashed(cfg.hash(plainText, ch.salt)))
    case Compare(plainText, hash) =>
      (match cfg.compare(plainText, hash)
       case CompareError => (sh, Failed)
       case CompareAnswer(matches, needsUpgrade) => (sh, Compared(matches, needsUpgrade)))
    case Sign(_) => (sh, Done)
    case CheckTotp(code, secret) => (sh, Checked(cfg.totp(code, secret, sh.now)))
    case NewSecret => (sh, Minted(ch.random))
    case Get(k) => (sh, if Live(sh, k) then Got(sh.tokens[k].userId) else Absent)
    case Mint(kind, userId) =>
      (sh.(tokens := sh.tokens[Key(kind, ch.random) := Entry(userId, sh.now + Ttl(kind))]), Minted(ch.random))
    case Del(k) => (sh.(tokens := sh.tokens - {k}), Done)
    case ReplicaFind(id) =>
      (sh, if ch.version < |sh.versions| && id in sh.versions[ch.version]
           then Loaded(cfg, ReplicaRow(sh.versions[ch.version][id]), sh.now) else Absent)
    case GetProfile(id) =>
      (sh, if id in sh.profiles && sh.now < sh.profiles[id].expires then Cached(sh.profiles[id].profile) else Absent)
    case SetProfile(p) =>
      (sh.(profiles := sh.profiles[p.id := CachedProfile(p, sh.now + PROFILE_TTL)]), Done)
    case SelectBatch =>
      (sh, if IsBatch(sh.outbox, ch.pick, BATCH)
           then Rows(ItemsAt(sh.outbox, ch.pick))
           else Failed)
    case Publish(item) =>
      var n := |sh.accepted|;
      (sh.(accepted := sh.accepted + [Message(item.event, item.payload, item.row)],
           ready := if cfg.topology.Routes(item.event) then sh.ready + {n} else sh.ready), Done)
    case Mark(rows) => (sh.(outbox := Marked(sh.outbox, rows, sh.now)), Done)
    case Ack(m) => (sh.(unacked := sh.unacked - {m}, acked := sh.acked + {m}), Done)
    case Nack(m) => (sh.(unacked := sh.unacked - {m}, ready := sh.ready + {m}), Done)
  }

  function Later(sh: Shared, ch: Choice): Shared {
    sh.(now := sh.now + ch.delay)
  }

  /** Acknowledgements that are lost show as a lost connection, which is a crash of the consumer. */
  function FaultOf(op: Op, ch: Choice): Fault {
    if op.Ack? || op.Nack? then Fine else ch.fault
  }

  /** One operation with its fault. */
  ghost function Exec(cfg: Config, sh: Shared, op: Op, ch: Choice): (Shared, Reply) {
    var s := Later(sh, ch);
    match FaultOf(op, ch)
    case Fine => Perform(cfg, s, op, ch)
    case Lost => (s, Failed)
    case Late => (Perform(cfg, s, op, ch).0, Failed)
  }

  // ---------- Results of use cases ----------

  datatype Cause =
    | InvalidEmail | UserAlreadyExists | UserNotFound
    | InvalidLogin | InvalidMFAToken | InvalidTOTPCode | InvalidRefreshToken
    | InvalidResetToken | InvalidVerificationToken
    | BadPayload | BadHash | Dependency

  datatype Body =
    | Nothing
    | Tokens(user: UserState, refreshToken: string)
    | MFARequired(userId: Id, mfaToken: string)
    | Secret(secret: string)
    | ProfileBody(profile: Profile)

  datatype Outcome = Success(body: Body) | Failure(cause: Cause)

  /** Where a process goes after an operation: to its next one, or to its result. */
  datatype Next<P> = Go(pc: P) | Return(outcome: Outcome)

  /** The result of a last operation that answers only whether it worked. */
  function Answered<P>(reply: Reply): Next<P> {
    if reply.Done? then Return(Success(Nothing)) else Return(Failure(Dependency))
  }
}
