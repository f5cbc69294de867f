/** Laws about whole runs, read off the log of performed operations: where every token comes from, how
    old it is when it is used, what each roles column holds, and which messages are acknowledged. */
module History {
  import opened Wrappers
  import opened Users
  import opened Store
  import opened Invariant
  import opened Machine
  import opened Safety
  import Email
  import Sessions
  import Handlers

  type Log = seq<Event>

  /** The operation took effect, whatever the process was told. */
  predicate TookEffect(e: Event) {
    !e.pc.Finished? && FaultOf(NextOp(e.pc), e.choice) != Lost
  }

  /** The event stored a token for a user. */
  predicate Mints(e: Event, k: Key, userId: Id) {
    TookEffect(e) && NextOp(e.pc) == Mint(k.kind, userId) && k.token == e.choice.random
  }

  /** The event read a token and got a user. */
  predicate Reads(e: Event, k: Key, userId: Id) {
    !e.pc.Finished? && NextOp(e.pc) == Get(k) && e.reply == Got(userId)
  }

  // ---------- What single operations do to the token store ----------

  lemma TokensAfter(cfg: Config, sh: Shared, op: Op, ch: Choice)
    ensures var t := Exec(cfg, sh, op, ch).0;
            t.now == sh.now + ch.delay
            && t.tokens == (if FaultOf(op, ch) == Lost then sh.tokens
                            else if op.Mint? then sh.tokens[Key(op.kind, ch.random) := Entry(op.userId,
                                t.now + Ttl(op.kind))]
                            else if op.Del? then sh.tokens - {op.key}
                            else sh.tokens)
  {
    if !op.Mint? && !op.Del? {
      hide Perform;
      TokensKept(cfg, Later(sh, ch), op, ch);
    }
  }

  lemma TokensKept(cfg: Config, sh: Shared, op: Op, ch: Choice)
    requires !op.Mint? && !op.Del?
    ensures var t := Perform(cfg, sh, op, ch).0; t.now == sh.now && t.tokens == sh.tokens
  {
    if !Writes(op) {
      hide Perform;
      ReadsOnly(cfg, sh, op, ch);
    }
  }

  lemma GetAnswers(cfg: Config, sh: Shared, k: Key, ch: Choice)
    ensures var (t, reply) := Exec(cfg, sh, Get(k), ch);
            reply.Got? ==> k in sh.tokens && t.now < sh.tokens[k].expires && reply.userId == sh.tokens[k].userId
  {
  }

  /** The event a step adds to the log. */
  ghost function StepEvent(cfg: Config, s: State, pid: Pid, ch: Choice): Event
    requires pid in s.procs && !s.procs[pid].Finished?
  {
    var p := s.procs[pid];
    var (sh, reply) := Exec(cfg, s.sh, NextOp(p), ch);
    Event(pid, sh.now, p, ch, reply)
  }

  // ---------- Age of tokens ----------

  /** The promised lifetimes, in nanoseconds: 5 and 15 minutes, a day and a week. */
  predicate UsedInTime(kind: Kind, age: Time) {
    match kind
    case Mfa => age < 300_000_000_000
    case Reset => age < 900_000_000_000
    case Confirm => age < 86_400_000_000_000
    case Refresh => age < 604_800_000_000_000
  }

  /** A token stored at this time expires exactly its promised lifetime later. */
  predicate ExpiresAfter(kind: Kind, stored: Time, expires: Time) {
    match kind
    case Mfa => expires - stored == 300_000_000_000
    case Reset => expires - stored == 900_000_000_000
    case Confirm => expires - stored == 86_400_000_000_000
    case Refresh => expires - stored == 604_800_000_000_000
  }

  /** The entry was stored by an event of the log, and expires its time to live after that. */
  ghost predicate StoredBy(log: Log, k: Key, entry: Entry) {
    exists j :: 0 <= j < |log| && Mints(log[j], k, entry.userId) && ExpiresAfter(k.kind, log[j].at, entry.expires)
  }

  /** Before the time `at`, and no longer than the token's time to live before it, some event of the
      log stored this token for this user. */
  ghost predicate StoredRecently(log: Log, k: Key, userId: Id, at: Time) {
    exists j :: 0 <= j < |log| && Mints(log[j], k, userId) && UsedInTime(k.kind, at - log[j].at)
  }

  ghost predicate TokensStored(s: State) {
    forall k :: k in s.sh.tokens ==> StoredBy(s.log, k, s.sh.tokens[k])
  }

  ghost predicate ReadsFresh(log: Log) {
    forall i, k, id :: 0 <= i < |log| && Reads(log[i], k, id) ==> StoredRecently(log[..i], k, id, log[i].at)
  }

  lemma StoredByStays(log: Log, e: Event, k: Key, entry: Entry)
    requires StoredBy(log, k, entry)
    ensures StoredBy(log + [e], k, entry)
  {
    var j :| 0 <= j < |log| && Mints(log[j], k, entry.userId) && ExpiresAfter(k.kind, log[j].at, entry.expires);
    assert (log + [e])[j] == log[j];
  }

  lemma NewIsStoredBy(log: Log, e: Event, k: Key, userId: Id)
    requires Mints(e, k, userId)
    ensures StoredBy(log + [e], k, Entry(userId, e.at + Ttl(k.kind)))
  {
    assert (log + [e])[|log|] == e;
  }

  lemma TokensStoredStep(cfg: Config, s: State, pid: Pid, ch: Choice)
    requires TokensStored(s) && pid in s.procs && !s.procs[pid].Finished?
    ensures TokensStored(RunProc(cfg, s, pid, ch))
  {
    hide Exec, StoredBy, Ttl;
    var t := RunProc(cfg, s, pid, ch);
    var op, e := NextOp(s.procs[pid]), StepEvent(cfg, s, pid, ch);
    TokensAfter(cfg, s.sh, op, ch);
    assert t.log == s.log + [e];
    forall k | k in t.sh.tokens
      ensures StoredBy(t.log, k, t.sh.tokens[k])
    {
      if k in s.sh.tokens && t.sh.tokens[k] == s.sh.tokens[k] {
        StoredByStays(s.log, e, k, s.sh.tokens[k]);
      } else {
        NewIsStoredBy(s.log, e, k, t.sh.tokens[k].userId);
      }
    }
  }

  /** A read by the operation at hand is answered from an entry that has not expired. */
  lemma NewReadFresh(cfg: Config, s: State, pid: Pid, ch: Choice, k: Key, userId: Id)
    requires TokensStored(s) && pid in s.procs && !s.procs[pid].Finished?
    requires Reads(StepEvent(cfg, s, pid, ch), k, userId)
    ensures StoredRecently(s.log, k, userId, StepEvent(cfg, s, pid, ch).at)
  {
    hide UsedInTime, ExpiresAfter, StoredBy, StoredRecently, Mints;
    GetAnswers(cfg, s.sh, k, ch);
    UnexpiredIsInTime(s.log, k, s.sh.tokens[k], StepEvent(cfg, s, pid, ch).at);
  }

  lemma UnexpiredIsInTime(log: Log, k: Key, entry: Entry, at: Time)
    requires StoredBy(log, k, entry) && at < entry.expires
    ensures StoredRecently(log, k, entry.userId, at)
  {
  }

  lemma ReadsFreshSnoc(log: Log, e: Event)
    requires ReadsFresh(log) && forall k, id :: Reads(e, k, id) ==> StoredRecently(log, k, id, e.at)
    ensures ReadsFresh(log + [e])
  {
    var after := log + [e];
    forall i, k, id | 0 <= i < |after| && Reads(after[i], k, id)
      ensures StoredRecently(after[..i], k, id, after[i].at)
    {
      assert after[..|log|] == log;
      assert i < |log| ==> after[i] == log[i] && after[..i] == log[..i];
    }
  }

  lemma ReadsFreshStep(cfg: Config, s: State, pid: Pid, ch: Choice)
    requires TokensStored(s) && ReadsFresh(s.log) && pid in s.procs && !s.procs[pid].Finished?
    ensures ReadsFresh(RunProc(cfg, s, pid, ch).log)
  {
    var e := StepEvent(cfg, s, pid, ch);
    forall k, id | Reads(e, k, id)
      ensures StoredRecently(s.log, k, id, e.at)
    {
      NewReadFresh(cfg, s, pid, ch, k, id);
    }
    ReadsFreshSnoc(s.log, e);
  }

  lemma {:induction false} TokenAges(cfg: Config, run: seq<Action>)
    ensures TokensStored(After(cfg, run)) && ReadsFresh(After(cfg, run).log)
  {
    if run != [] {
      var s, a := After(cfg, run[..|run| - 1]), run[|run| - 1];
      TokenAges(cfg, run[..|run| - 1]);
      if a.Run? && a.pid in s.procs && !s.procs[a.pid].Finished? {
        TokensStoredStep(cfg, s, a.pid, a.choice);
        ReadsFreshStep(cfg, s, a.pid, a.choice);
      }
    }
  }

  /** Which operation stores each kind of token. */
  lemma MintedWhere(e: Event, k: Key, userId: Id)
    requires Mints(e, k, userId)
    ensures k.kind.Mfa? ==> e.pc.Session? && e.pc.s.LoginMintMfa? && e.pc.s.user.id == userId
    ensures k.kind.Reset? ==> e.pc.Handling? && e.pc.h == Handlers.ResetMint(userId)
    ensures k.kind.Confirm? ==> e.pc.Handling? && e.pc.h == Handlers.ConfirmationMint(userId)
    ensures k.kind.Refresh? ==>
              && e.pc.Session? && (e.pc.s.LoginMintRefresh? || e.pc.s.VerifyMintRefresh? || e.pc.s.RefreshMint?)
              && e.pc.s.user.id == userId
  {
  }

  /** In every run: a verification that accepts an MFA token reads it less than 5 minutes after a login
      of that user stored it; a password reset reads its token less than 15 minutes, and a confirmation
      less than 24 hours, after the worker made it; and a refresh reads its token less than 7 days after
      the login, verification or earlier refresh that issued it. */
  lemma TokensUsedInTime(cfg: Config, run: seq<Action>, i: nat, k: Key, userId: Id)
    requires i < |After(cfg, run).log| && Reads(After(cfg, run).log[i], k, userId)
    ensures var log := After(cfg, run).log;
            exists j :: 0 <= j < i && Mints(log[j], k, userId) && UsedInTime(k.kind, log[i].at - log[j].at)
                        && (k.kind.Mfa? ==> log[j].pc.Session? && log[j].pc.s.LoginMintMfa?)
                        && (k.kind.Reset? ==> log[j].pc.Handling? && log[j].pc.h == Handlers.ResetMint(userId))
                        && (k.kind.Confirm? ==> log[j].pc.Handling? && log[j].pc.h == Handlers.ConfirmationMint(userId))
  {
    hide After, TokensStored, UsedInTime, Mints, Reads;
    TokenAges(cfg, run);
    var log := After(cfg, run).log;
    assert StoredRecently(log[..i], k, userId, log[i].at);
    var j :| 0 <= j < i && Mints(log[..i][j], k, userId) && UsedInTime(k.kind, log[i].at - log[..i][j].at);
    assert log[..i][j] == log[j];
    MintedWhere(log[j], k, userId);
  }

  // ---------- Origin of tokens ----------

  ghost predicate IsMatch(cfg: Config, password: string, hash: string) {
    var answer := cfg.compare(password, hash);
    answer.CompareAnswer? && answer.matches
  }

  /** The event is a lookup in the users table that answered this user. */
  predicate Finds(e: Event, u: UserState) {
    !e.pc.Finished? && (NextOp(e.pc).FindByEmail? || NextOp(e.pc).FindByID?) && e.reply == Found(u)
  }

  /** This process was answered this user by a lookup in the table. */
  ghost predicate FoundUser(log: Log, pid: Pid, u: UserState) {
    exists j :: 0 <= j < |log| && log[j].pid == pid && Finds(log[j], u)
  }

  /** The event compares a password with the user's hash, which matches. */
  ghost predicate MatchesAt(cfg: Config, e: Event, u: UserState, password: string) {
    e.pc == Session(Sessions.LoginCompare(u, password)) && IsMatch(cfg, password, u.hash)
  }

  /** This process looked the user up, and then compared a password with the hash it had found, and it
      matched. */
  ghost predicate PasswordMatched(cfg: Config, log: Log, pid: Pid, u: UserState) {
    exists j, password :: 0 <= j < |log| && log[j].pid == pid && MatchesAt(cfg, log[j], u, password)
                          && FoundUser(log[..j], pid, u)
  }

  ghost predicate ValidAt(cfg: Config, e: Event, token: string, u: UserState, code: string) {
    e.pc == Session(Sessions.VerifyCheck(token, code, u)) && cfg.totp(code, u.totpSecret, e.at)
  }

  /** This process looked the user up, and then checked a one-time code against the secret it had found, and
      it was valid. */
  ghost predicate CodeValid(cfg: Config, log: Log, pid: Pid, token: string, u: UserState) {
    exists j, code :: 0 <= j < |log| && log[j].pid == pid && ValidAt(cfg, log[j], token, u, code)
                      && FoundUser(log[..j], pid, u)
  }

  /** The event issues a token at the end of a login of this user, whose password matched. */
  ghost predicate LoginIssues(cfg: Config, before: Log, e: Event, k: Key, userId: Id) {
    && Mints(e, k, userId) && e.pc.Session?
    && (match e.pc.s
        case LoginMintMfa(u) => k.kind.Mfa? && u.mfaEnabled && u.id == userId && PasswordMatched(cfg, before, e.pid, u)
        case LoginMintRefresh(u) => k.kind.Refresh? && !u.mfaEnabled && u.id == userId
            && PasswordMatched(cfg, before, e.pid, u)
        case _ => false)
  }

  /** Some login issued this MFA token to this user. */
  ghost predicate MfaFromLogin(cfg: Config, log: Log, token: string, userId: Id) {
    exists i :: 0 <= i < |log| && LoginIssues(cfg, log[..i], log[i], Key(Mfa, token), userId)
  }

  /** This process read an MFA token that a login had issued to the user. */
  ghost predicate MfaRead(cfg: Config, log: Log, pid: Pid, token: string, userId: Id) {
    exists j :: 0 <= j < |log| && log[j].pid == pid && Reads(log[j], Key(Mfa, token), userId)
                && MfaFromLogin(cfg, log[..j], token, userId)
  }

  /** The refresh token goes back, through rotations that all keep the user, to a login without a
      second factor or to a verification of one. */
  ghost predicate Descends(cfg: Config, log: Log, token: string, userId: Id)
    decreases |log|, 2
  {
    exists i :: 0 <= i < |log| && Issues(cfg, log[..i], log[i], token, userId)
  }

  ghost predicate Issues(cfg: Config, before: Log, e: Event, token: string, userId: Id)
    decreases |before|, 4
  {
    || LoginIssues(cfg, before, e, Key(Refresh, token), userId)
    || VerifyIssues(cfg, before, e, token, userId)
    || RotationIssues(cfg, before, e, token, userId)
  }

  ghost predicate VerifyIssues(cfg: Config, before: Log, e: Event, token: string, userId: Id) {
    && Mints(e, Key(Refresh, token), userId) && e.pc.Session? && e.pc.s.VerifyMintRefresh? && e.pc.s.user.id == userId
    && CodeValid(cfg, before, e.pid, e.pc.s.token, e.pc.s.user)
    && MfaRead(cfg, before, e.pid, e.pc.s.token, userId)
  }

  ghost predicate RotationIssues(cfg: Config, before: Log, e: Event, token: string, userId: Id)
    decreases |before|, 3
  {
    && Mints(e, Key(Refresh, token), userId) && e.pc.Session? && e.pc.s.RefreshMint? && e.pc.s.user.id == userId
    && FoundUser(before, e.pid, e.pc.s.user)
    && RefreshRead(cfg, before, e.pid, e.pc.s.token, userId)
  }

  /** This process read a refresh token of the user that descends properly itself. */
  ghost predicate RefreshRead(cfg: Config, log: Log, pid: Pid, token: string, userId: Id)
    decreases |log|, 2
  {
    exists j :: 0 <= j < |log| && log[j].pid == pid && Reads(log[j], Key(Refresh, token), userId)
                && Descends(cfg, log[..j], token, userId)
  }

  /** The user a session process has loaded. */
  function LoadedBy(pc: Sessions.Pc): Option<UserState> {
    match pc
    case LoginCompare(u, _) => Some(u)
    case LoginRehash(u, _) => Some(u)
    case LoginQueueUpgrade(u, _) => Some(u)
    case LoginMintMfa(u) => Some(u)
    case LoginSign(u) => Some(u)
    case LoginMintRefresh(u) => Some(u)
    case VerifyCheck(_, _, u) => Some(u)
    case VerifyDel(_, u) => Some(u)
    case VerifySign(_, u) => Some(u)
    case VerifyMintRefresh(_, u) => Some(u)
    case RefreshSign(_, u) => Some(u)
    case RefreshMint(_, u) => Some(u)
    case RefreshDel(_, u, _) => Some(u)
    case _ => None
  }

  /** What each process has behind it: the user it works on came from a lookup of its own, */
  ghost predicate Knows(cfg: Config, log: Log, pid: Pid, p: Proc) {
    && (p.Session? && LoadedBy(p.s).Some? ==> FoundUser(log, pid, LoadedBy(p.s).value))
    && PassedChecks(cfg, log, pid, p)
  }

  /** and passed the checks that come before where it is. */
  ghost predicate PassedChecks(cfg: Config, log: Log, pid: Pid, p: Proc) {
    p.Session? ==>
      match p.s
      case LoginRehash(u, _) => PasswordMatched(cfg, log, pid, u)
      case LoginQueueUpgrade(u, _) => PasswordMatched(cfg, log, pid, u)
      case LoginMintMfa(u) => PasswordMatched(cfg, log, pid, u) && u.mfaEnabled
      case LoginSign(u) => PasswordMatched(cfg, log, pid, u) && !u.mfaEnabled
      case LoginMintRefresh(u) => PasswordMatched(cfg, log, pid, u) && !u.mfaEnabled
      case VerifyFind(token, _, id) => MfaRead(cfg, log, pid, token, id)
      case VerifyCheck(token, _, u) => MfaRead(cfg, log, pid, token, u.id)
      case VerifyDel(token, u) => MfaRead(cfg, log, pid, token, u.id) && CodeValid(cfg, log, pid, token, u)
      case VerifySign(token, u) => MfaRead(cfg, log, pid, token, u.id) && CodeValid(cfg, log, pid, token, u)
      case VerifyMintRefresh(token, u) => MfaRead(cfg, log, pid, token, u.id) && CodeValid(cfg, log, pid, token, u)
      case RefreshFind(token, id) => RefreshRead(cfg, log, pid, token, id)
      case RefreshSign(token, u) => RefreshRead(cfg, log, pid, token, u.id)
      case RefreshMint(token, u) => RefreshRead(cfg, log, pid, token, u.id)
      case _ => true
  }

  ghost predicate Backed(cfg: Config, log: Log, k: Key, userId: Id) {
    && (k.kind.Mfa? ==> MfaFromLogin(cfg, log, k.token, userId))
    && (k.kind.Refresh? ==> Descends(cfg, log, k.token, userId))
  }

  ghost predicate OriginsOk(cfg: Config, s: State) {
    && (forall k :: k in s.sh.tokens ==> Backed(cfg, s.log, k, s.sh.tokens[k].userId))
    && (forall p :: p in s.procs ==> Knows(cfg, s.log, p, s.procs[p]))
  }

  lemma FoundStays(log: Log, e: Event, pid: Pid, u: UserState)
    requires FoundUser(log, pid, u)
    ensures FoundUser(log + [e], pid, u)
  {
    var j :| 0 <= j < |log| && log[j].pid == pid && Finds(log[j], u);
    assert (log + [e])[j] == log[j];
  }

  lemma MatchedStays(cfg: Config, log: Log, e: Event, pid: Pid, u: UserState)
    requires PasswordMatched(cfg, log, pid, u)
    ensures PasswordMatched(cfg, log + [e], pid, u)
  {
    var j, password :| 0 <= j < |log| && log[j].pid == pid && MatchesAt(cfg, log[j], u, password)
                       && FoundUser(log[..j], pid, u);
    assert (log + [e])[j] == log[j] && (log + [e])[..j] == log[..j];
  }

  lemma CodeStays(cfg: Config, log: Log, e: Event, pid: Pid, token: string, u: UserState)
    requires CodeValid(cfg, log, pid, token, u)
    ensures CodeValid(cfg, log + [e], pid, token, u)
  {
    var j, code :| 0 <= j < |log| && log[j].pid == pid && ValidAt(cfg, log[j], token, u, code)
                   && FoundUser(log[..j], pid, u);
    assert (log + [e])[j] == log[j] && (log + [e])[..j] == log[..j];
  }

  lemma MfaReadStays(cfg: Config, log: Log, e: Event, pid: Pid, token: string, userId: Id)
    requires MfaRead(cfg, log, pid, token, userId)
    ensures MfaRead(cfg, log + [e], pid, token, userId)
  {
    hide MfaFromLogin, Reads;
    var j :| 0 <= j < |log| && log[j].pid == pid && Reads(log[j], Key(Mfa, token), userId)
             && MfaFromLogin(cfg, log[..j], token, userId);
    assert (log + [e])[j] == log[j] && (log + [e])[..j] == log[..j];
  }

  lemma RefreshReadStays(cfg: Config, log: Log, e: Event, pid: Pid, token: string, userId: Id)
    requires RefreshRead(cfg, log, pid, token, userId)
    ensures RefreshRead(cfg, log + [e], pid, token, userId)
  {
    hide Descends, Reads;
    var j :| 0 <= j < |log| && log[j].pid == pid && Reads(log[j], Key(Refresh, token), userId)
             && Descends(cfg, log[..j], token, userId);
    assert (log + [e])[j] == log[j] && (log + [e])[..j] == log[..j];
  }

  lemma BackedStays(cfg: Config, log: Log, e: Event, k: Key, userId: Id)
    requires Backed(cfg, log, k, userId)
    ensures Backed(cfg, log + [e], k, userId)
  {
    hide LoginIssues, Issues;
    if k.kind.Mfa? {
      var i :| 0 <= i < |log| && LoginIssues(cfg, log[..i], log[i], k, userId);
      assert (log + [e])[i] == log[i] && (log + [e])[..i] == log[..i];
    } else if k.kind.Refresh? {
      var i :| 0 <= i < |log| && Issues(cfg, log[..i], log[i], k.token, userId);
      assert (log + [e])[i] == log[i] && (log + [e])[..i] == log[..i];
    }
  }

  lemma KnowsStays(cfg: Config, log: Log, e: Event, pid: Pid, p: Proc)
    requires Knows(cfg, log, pid, p)
    ensures Knows(cfg, log + [e], pid, p)
  {
    hide FoundUser, PasswordMatched, CodeValid, MfaRead, RefreshRead;
    if p.Session? && LoadedBy(p.s).Some? {
      FoundStays(log, e, pid, LoadedBy(p.s).value);
    }
    if p.Session? {
      match p.s
      case LoginRehash(u, _) => MatchedStays(cfg, log, e, pid, u);
      case LoginQueueUpgrade(u, _) => MatchedStays(cfg, log, e, pid, u);
      case LoginMintMfa(u) => MatchedStays(cfg, log, e, pid, u);
      case LoginSign(u) => MatchedStays(cfg, log, e, pid, u);
      case LoginMintRefresh(u) => MatchedStays(cfg, log, e, pid, u);
      case VerifyFind(token, _, id) => MfaReadStays(cfg, log, e, pid, token, id);
      case VerifyCheck(token, _, u) => MfaReadStays(cfg, log, e, pid, token, u.id);
      case VerifyDel(token, u) =>
        MfaReadStays(cfg, log, e, pid, token, u.id);
        CodeStays(cfg, log, e, pid, token, u);
      case VerifySign(token, u) =>
        MfaReadStays(cfg, log, e, pid, token, u.id);
        CodeStays(cfg, log, e, pid, token, u);
      case VerifyMintRefresh(token, u) =>
        MfaReadStays(cfg, log, e, pid, token, u.id);
        CodeStays(cfg, log, e, pid, token, u);
      case RefreshFind(token, id) => RefreshReadStays(cfg, log, e, pid, token, id);
      case RefreshSign(token, u) => RefreshReadStays(cfg, log, e, pid, token, u.id);
      case RefreshMint(token, u) => RefreshReadStays(cfg, log, e, pid, token, u.id);
      case _ =>
    }
  }

  /** A read of a backed token leaves evidence of it. */
  lemma ReadLeavesEvidence(cfg: Config, log: Log, e: Event, k: Key, userId: Id)
    requires Reads(e, k, userId) && Backed(cfg, log, k, userId)
    ensures k.kind.Mfa? ==> MfaRead(cfg, log + [e], e.pid, k.token, userId)
    ensures k.kind.Refresh? ==> RefreshRead(cfg, log + [e], e.pid, k.token, userId)
  {
    var after := log + [e];
    assert after[|log|] == e && after[..|log|] == log;
  }

  /** A token stored by a process that knows enough is backed. */
  lemma MintIsBacked(cfg: Config, log: Log, e: Event, k: Key, userId: Id)
    requires Mints(e, k, userId) && Knows(cfg, log, e.pid, e.pc)
    ensures Backed(cfg, log + [e], k, userId)
  {
    var after := log + [e];
    assert after[|log|] == e && after[..|log|] == log;
    MintedWhere(e, k, userId);
    if k.kind.Mfa? {
      assert LoginIssues(cfg, after[..|log|], after[|log|], k, userId);
    } else if k.kind.Refresh? {
      assert Issues(cfg, after[..|log|], after[|log|], k.token, userId);
    }
  }

  /** What an answer adds to what a session process knows. */
  lemma CompareAnswers(cfg: Config, sh: Shared, u: UserState, password: string, ch: Choice)
    ensures var (t, reply) := Exec(cfg, sh, Compare(password, u.hash), ch);
            reply.Compared? && reply.matches ==> IsMatch(cfg, password, u.hash)
  {
  }

  lemma TotpAnswers(cfg: Config, sh: Shared, u: UserState, code: string, ch: Choice)
    ensures var (t, reply) := Exec(cfg, sh, CheckTotp(code, u.totpSecret), ch);
            reply == Checked(true) ==> cfg.totp(code, u.totpSecret, t.now)
  {
  }

  lemma MatchLeavesEvidence(cfg: Config, log: Log, e: Event, u: UserState, password: string)
    requires MatchesAt(cfg, e, u, password) && FoundUser(log, e.pid, u)
    ensures PasswordMatched(cfg, log + [e], e.pid, u)
  {
    var after := log + [e];
    assert after[|log|] == e && after[..|log|] == log;
  }

  lemma CodeLeavesEvidence(cfg: Config, log: Log, e: Event, token: string, u: UserState, code: string)
    requires ValidAt(cfg, e, token, u, code) && FoundUser(log, e.pid, u)
    ensures CodeValid(cfg, log + [e], e.pid, token, u)
  {
    var after := log + [e];
    assert after[|log|] == e && after[..|log|] == log;
  }

  lemma LoginLearns(cfg: Config, s: State, pid: Pid, ch: Choice)
    requires pid in s.procs && s.procs[pid].Session? && s.procs[pid].s.LoginCompare?
    requires Knows(cfg, s.log, pid, s.procs[pid])
    ensures var t := RunProc(cfg, s, pid, ch); Knows(cfg, t.log, pid, t.procs[pid])
  {
    hide FoundUser, PasswordMatched;
    var t := RunProc(cfg, s, pid, ch);
    var pc := s.procs[pid].s;
    CompareAnswers(cfg, s.sh, pc.user, pc.password, ch);
    var e := StepEvent(cfg, s, pid, ch);
    assert t.log == s.log + [e];
    FoundStays(s.log, e, pid, pc.user);
    if e.reply.Compared? && e.reply.matches {
      MatchLeavesEvidence(cfg, s.log, e, pc.user, pc.password);
    }
  }

  lemma CheckLearns(cfg: Config, s: State, pid: Pid, ch: Choice)
    requires pid in s.procs && s.procs[pid].Session? && s.procs[pid].s.VerifyCheck?
    requires Knows(cfg, s.log, pid, s.procs[pid])
    ensures var t := RunProc(cfg, s, pid, ch); Knows(cfg, t.log, pid, t.procs[pid])
  {
    hide FoundUser, MfaRead, CodeValid;
    var t := RunProc(cfg, s, pid, ch);
    var pc := s.procs[pid].s;
    TotpAnswers(cfg, s.sh, pc.user, pc.code, ch);
    var e := StepEvent(cfg, s, pid, ch);
    assert t.log == s.log + [e];
    FoundStays(s.log, e, pid, pc.user);
    MfaReadStays(cfg, s.log, e, pid, pc.token, pc.user.id);
    if e.reply == Checked(true) {
      CodeLeavesEvidence(cfg, s.log, e, pc.token, pc.user, pc.code);
    }
  }

  lemma GetLearns(cfg: Config, s: State, pid: Pid, ch: Choice)
    requires pid in s.procs && s.procs[pid].Session? && (s.procs[pid].s.VerifyGet? || s.procs[pid].s.RefreshGet?)
    requires forall k :: k in s.sh.tokens ==> Backed(cfg, s.log, k, s.sh.tokens[k].userId)
    ensures var t := RunProc(cfg, s, pid, ch); Knows(cfg, t.log, pid, t.procs[pid])
  {
    hide MfaRead, RefreshRead, Backed;
    var k := NextOp(s.procs[pid]).key;
    GetAnswers(cfg, s.sh, k, ch);
    var e := StepEvent(cfg, s, pid, ch);
    assert RunProc(cfg, s, pid, ch).log == s.log + [e];
    if e.reply.Got? {
      ReadLeavesEvidence(cfg, s.log, e, k, e.reply.userId);
    }
  }

  lemma FindLeavesEvidence(log: Log, e: Event)
    ensures e.reply.Found? && Finds(e, e.reply.user) ==> FoundUser(log + [e], e.pid, e.reply.user)
  {
    assert (log + [e])[|log|] == e;
  }

  /** Every other session operation passes on what is known. */
  lemma PassesOn(cfg: Config, log: Log, pid: Pid, pc: Sessions.Pc, reply: Reply)
    requires !pc.LoginCompare? && !pc.VerifyCheck? && !pc.VerifyGet? && !pc.RefreshGet?
    requires Knows(cfg, log, pid, Session(pc))
    requires reply.Found? && Sessions.NextOp(pc).FindByID? ==> reply.user.id == Sessions.NextOp(pc).id
    requires reply.Found? && (Sessions.NextOp(pc).FindByEmail? || Sessions.NextOp(pc).FindByID?) ==>
        FoundUser(log, pid, reply.user)
    ensures Knows(cfg, log, pid, OfSession(Sessions.Resume(pc, reply)))
  {
  }

  lemma FindsTheUser(cfg: Config, s: State, pid: Pid, ch: Choice)
    requires Inv(cfg, s) && Email.FixesEmails(cfg.normalise) && pid in s.procs && !s.procs[pid].Finished?
    ensures var reply := StepEvent(cfg, s, pid, ch).reply;
            reply.Found? && NextOp(s.procs[pid]).FindByID? ==> reply.user.id == NextOp(s.procs[pid]).id
  {
    NextOpOk(cfg, s.sh, s.procs[pid]);
    ExecOk(cfg, s.sh, NextOp(s.procs[pid]), ch);
  }

  lemma OtherLearns(cfg: Config, s: State, pid: Pid, ch: Choice)
    requires Inv(cfg, s) && Email.FixesEmails(cfg.normalise) && pid in s.procs && s.procs[pid].Session?
    requires var pc := s.procs[pid].s; !pc.LoginCompare? && !pc.VerifyCheck? && !pc.VerifyGet? && !pc.RefreshGet?
    requires Knows(cfg, s.log, pid, s.procs[pid])
    ensures var t := RunProc(cfg, s, pid, ch); Knows(cfg, t.log, pid, t.procs[pid])
  {
    hide Exec, Inv, Knows, FoundUser;
    var p, e := s.procs[pid], StepEvent(cfg, s, pid, ch);
    FindsTheUser(cfg, s, pid, ch);
    KnowsStays(cfg, s.log, e, pid, p);
    FindLeavesEvidence(s.log, e);
    PassesOn(cfg, s.log + [e], pid, p.s, e.reply);
  }

  lemma RunnerKnows(cfg: Config, s: State, pid: Pid, ch: Choice)
    requires Inv(cfg, s) && Email.FixesEmails(cfg.normalise) && OriginsOk(cfg, s)
    requires pid in s.procs && !s.procs[pid].Finished?
    ensures var t := RunProc(cfg, s, pid, ch); Knows(cfg, t.log, pid, t.procs[pid])
  {
    var p := s.procs[pid];
    if p.Session? {
      if p.s.LoginCompare? {
        LoginLearns(cfg, s, pid, ch);
      } else if p.s.VerifyCheck? {
        CheckLearns(cfg, s, pid, ch);
      } else if p.s.VerifyGet? || p.s.RefreshGet? {
        GetLearns(cfg, s, pid, ch);
      } else {
        OtherLearns(cfg, s, pid, ch);
      }
    }
  }

  lemma TokensStayBacked(cfg: Config, s: State, pid: Pid, ch: Choice)
    requires OriginsOk(cfg, s) && pid in s.procs && !s.procs[pid].Finished?
    ensures var t := RunProc(cfg, s, pid, ch);
            forall k :: k in t.sh.tokens ==> Backed(cfg, t.log, k, t.sh.tokens[k].userId)
  {
    var t := RunProc(cfg, s, pid, ch);
    var e := StepEvent(cfg, s, pid, ch);
    TokensAfter(cfg, s.sh, NextOp(s.procs[pid]), ch);
    assert t.log == s.log + [e];
    forall k | k in t.sh.tokens
      ensures Backed(cfg, t.log, k, t.sh.tokens[k].userId)
    {
      if k in s.sh.tokens && t.sh.tokens[k] == s.sh.tokens[k] {
        BackedStays(cfg, s.log, e, k, s.sh.tokens[k].userId);
      } else {
        MintIsBacked(cfg, s.log, e, k, t.sh.tokens[k].userId);
      }
    }
  }

  lemma OriginsStep(cfg: Config, s: State, pid: Pid, ch: Choice)
    requires Inv(cfg, s) && Email.FixesEmails(cfg.normalise) && OriginsOk(cfg, s)
    requires pid in s.procs && !s.procs[pid].Finished?
    ensures OriginsOk(cfg, RunProc(cfg, s, pid, ch))
  {
    var t := RunProc(cfg, s, pid, ch);
    TokensStayBacked(cfg, s, pid, ch);
    RunnerKnows(cfg, s, pid, ch);
    forall p | p in t.procs
      ensures Knows(cfg, t.log, p, t.procs[p])
    {
      if p != pid {
        KnowsStays(cfg, s.log, StepEvent(cfg, s, pid, ch), p, s.procs[p]);
      }
    }
  }

  lemma OthersKnow(cfg: Config, s: State, a: Action)
    requires OriginsOk(cfg, s) && !a.Run?
    ensures OriginsOk(cfg, Apply(cfg, s, a))
  {
    if a.Start? {
      StartsKnowing(cfg, s, a.call);
    }
  }

  lemma StartsKnowing(cfg: Config, s: State, call: Call)
    ensures Knows(cfg, s.log, s.next, Begin(cfg, call))
  {
  }

  lemma {:induction false} Origins(cfg: Config, run: seq<Action>)
    requires Email.FixesEmails(cfg.normalise)
    ensures OriginsOk(cfg, After(cfg, run))
  {
    if run != [] {
      var s, a := After(cfg, run[..|run| - 1]), run[|run| - 1];
      Origins(cfg, run[..|run| - 1]);
      if !a.Run? {
        OthersKnow(cfg, s, a);
      } else if a.pid in s.procs && !s.procs[a.pid].Finished? {
        Sound(cfg, run[..|run| - 1]);
        OriginsStep(cfg, s, a.pid, a.choice);
      }
    }
  }

  /** In every run, every stored refresh token descends, through rotations that keep the user, from a
      login whose password matched and whose user had no second factor, or from the verification of a
      valid code on an MFA token that such a login issued to the same user. */
  lemma RefreshTokensDescend(cfg: Config, run: seq<Action>, token: string)
    requires Email.FixesEmails(cfg.normalise)
    requires Key(Refresh, token) in After(cfg, run).sh.tokens
    ensures var s := After(cfg, run); Descends(cfg, s.log, token, s.sh.tokens[Key(Refresh, token)].userId)
  {
    Origins(cfg, run);
  }
}
