/** Overlapping uses of one token. A refresh and a verification read their token and delete it in separate
    operations, so from any state with a live token two of them can both succeed, without any fault. */
module Interleaving {
  import opened Wrappers
  import opened Users
  import opened Store
  import opened Invariant
  import opened Machine
  import opened Safety
  import opened Serial
  import opened Claims
  import opened MfaTokens
  import Email
  import Sessions

  lemma RefreshFinds(cfg: Config, sh: Shared, id: Id, ch: Choice, token: string) returns (t: Shared, u: UserState)
    requires ShOk(cfg, sh) && Email.FixesEmails(cfg.normalise) && id in sh.users && ch.fault.Fine?
    ensures (t, Session(Sessions.RefreshSign(token, u)))
        == Advance(cfg, sh, Session(Sessions.RefreshFind(token, id)), ch)
    ensures t == Later(sh, ch) && ShowsRow(u, sh.users[id]) && u.id == id
  {
    hide ShOk, ShowsRow;
    t := Later(sh, ch);
    RowKnown(cfg, sh, id);
    LoadShowsRow(cfg, sh.users[id], t.now);
    u := Loaded(cfg, sh.users[id], t.now).user;
    SameId(u, sh.users[id]);
  }

  lemma RefreshSigns(cfg: Config, sh: Shared, u: UserState, ch: Choice, token: string)
    requires ch.fault.Fine?
    ensures Advance(cfg, sh, Session(Sessions.RefreshSign(token, u)), ch)
        == (Later(sh, ch), Session(Sessions.RefreshMint(token, u)))
  {
  }

  lemma RefreshMints(cfg: Config, sh: Shared, u: UserState, ch: Choice, token: string)
    requires ch.fault.Fine?
    ensures var (t, q) := Advance(cfg, sh, Session(Sessions.RefreshMint(token, u)), ch);
            q == Session(Sessions.RefreshDel(token, u, Some(ch.random)))
            && t.tokens == sh.tokens[Key(Refresh, ch.random) := Entry(u.id, t.now + 604_800_000_000_000)]
            && t.users == sh.users
  {
  }

  lemma RefreshDeletes(cfg: Config, sh: Shared, u: UserState, minted: Fresh, ch: Choice, token: string)
    requires ch.fault.Fine?
    ensures var (t, q) := Advance(cfg, sh, Session(Sessions.RefreshDel(token, u, Some(minted))), ch);
            q == Finished(Success(Tokens(u, minted))) && t.tokens == sh.tokens - {Key(Refresh, token)}
                && t.users == sh.users && t.now == sh.now + ch.delay
  {
  }

  /** The refresh token is replaced by another, which was stored for this user at this time and lives a week. */
  predicate RotatedTo(before: Shared, after: Shared, token: string, minted: string, id: Id, stored: Time) {
    after.tokens
        == before.tokens[Key(Refresh, minted) := Entry(id, stored + 604_800_000_000_000)] - {Key(Refresh, token)}
  }

  /** A refresh that has read its token needs it no more. */
  lemma ReadRefreshSucceeds(cfg: Config, sh: Shared, id: Id, env: Env, n: nat, token: string) returns (u: UserState)
    requires ShOk(cfg, sh) && Email.FixesEmails(cfg.normalise) && id in sh.users && NoFaults(env, n, 4)
    ensures var end := Finish(cfg, sh, Session(Sessions.RefreshFind(token, id)), env, n);
            && end.outcome == Success(Tokens(u, env(n + 2).random)) && ShowsRow(u, sh.users[id]) && end.n == n + 4
            && RotatedTo(sh, end.sh, token, env(n + 2).random, id, end.sh.now - env(n + 3).delay)
            && end.sh.users == sh.users
  {
    hide Advance, ShOk;
    var p := Session(Sessions.RefreshFind(token, id));
    var t1;
    t1, u := RefreshFinds(cfg, sh, id, env(n), token);
    var p1 := Session(Sessions.RefreshSign(token, u));
    RefreshSigns(cfg, t1, u, env(n + 1), token);
    var (t2, p2) := Advance(cfg, t1, p1, env(n + 1));
    assert Finish(cfg, sh, p, env, n) == Finish(cfg, t1, p1, env, n + 1) == Finish(cfg, t2, p2, env, n + 2);
    MintedRefreshSucceeds(cfg, t2, u, env, n + 2, token);
  }

  lemma MintedRefreshSucceeds(cfg: Config, sh: Shared, u: UserState, env: Env, n: nat, token: string)
    requires NoFaults(env, n, 2)
    ensures var end := Finish(cfg, sh, Session(Sessions.RefreshMint(token, u)), env, n);
            && end.outcome == Success(Tokens(u, env(n).random)) && end.n == n + 2
            && RotatedTo(sh, end.sh, token, env(n).random, u.id, end.sh.now - env(n + 1).delay)
            && end.sh.users == sh.users
  {
    hide Advance;
    var p := Session(Sessions.RefreshMint(token, u));
    RefreshMints(cfg, sh, u, env(n), token);
    var (t, q) := Advance(cfg, sh, p, env(n));
    RefreshDeletes(cfg, t, u, env(n).random, env(n + 1), token);
    var (t2, r) := Advance(cfg, t, q, env(n + 1));
    assert Finish(cfg, sh, p, env, n) == Finish(cfg, t, q, env, n + 1) == Finish(cfg, t2, r, env, n + 2);
  }

  // ---------- Two requests that read the same token ----------

  /** Two requests start, and each performs its first operation. */
  ghost function BothRead(cfg: Config, s: State, first: Call, second: Call, env: Env): State {
    var started := Apply(cfg, Apply(cfg, s, Start(first)), Start(second));
    Apply(cfg, Apply(cfg, started, Run(s.next, env(0))), Run(s.next + 1, env(1)))
  }

  /** The token is stored and does not expire before both have read it. */
  predicate LiveForBoth(s: State, k: Key, env: Env) {
    k in s.sh.tokens && s.sh.now + env(0).delay + env(1).delay < s.sh.tokens[k].expires
  }

  /** Where a request that reads this token is, and where the answer takes it. */
  predicate ReadsToken(pc: Sessions.Pc, k: Key) {
    Sessions.NextOp(pc) == Get(k)
  }

  function HasRead(pc: Sessions.Pc, k: Key, id: Id): Proc {
    OfSession(Sessions.Resume(pc, Got(id)))
  }

  lemma ReadRuns(cfg: Config, s: State, pid: Pid, pc: Sessions.Pc, k: Key, ch: Choice)
    requires At(s, pid, Session(pc)) && ReadsToken(pc, k) && ch.fault.Fine?
    requires k in s.sh.tokens && s.sh.now + ch.delay < s.sh.tokens[k].expires
    ensures var t := Apply(cfg, s, Run(pid, ch));
            && t.sh == Later(s.sh, ch) && t.next == s.next
            && t.procs == s.procs[pid := HasRead(pc, k, s.sh.tokens[k].userId)]
  {
  }

  lemma BothStart(cfg: Config, s: State, first: Call, second: Call)
    requires s.next !in s.procs
    ensures Apply(cfg, Apply(cfg, s, Start(first)), Start(second))
        == s.(procs := s.procs[s.next := Begin(cfg, first)][s.next + 1 := Begin(cfg, second)], next := s.next + 2)
  {
    hide Begin;
  }

  lemma BothReadIt(cfg: Config, s: State, first: Call, second: Call, a: Sessions.Pc, b: Sessions.Pc, k: Key, env: Env)
    requires s.next !in s.procs && NoFaults(env, 0, 2) && LiveForBoth(s, k, env)
    requires Begin(cfg, first) == Session(a) && ReadsToken(a, k) && Begin(cfg, second) == Session(b) && ReadsToken(b, k)
    ensures var t, id := BothRead(cfg, s, first, second, env), s.sh.tokens[k].userId;
            && t.sh == Later(Later(s.sh, env(0)), env(1))
            && t.procs == s.procs[s.next := HasRead(a, k, id)][s.next + 1 := HasRead(b, k, id)]
  {
    hide ReadsToken, HasRead, Begin, Apply;
    BothStart(cfg, s, first, second);
    var s2 := Apply(cfg, Apply(cfg, s, Start(first)), Start(second));
    ReadRuns(cfg, s2, s.next, a, k, env(0));
    ReadRuns(cfg, Apply(cfg, s2, Run(s.next, env(0))), s.next + 1, b, k, env(1));
  }

  lemma BothReadOk(cfg: Config, s: State, env: Env)
    requires Inv(cfg, s)
    ensures s.next !in s.procs && ShOk(cfg, Later(Later(s.sh, env(0)), env(1)))
  {
    hide ShOk, HoldersOk;
    LaterOk(cfg, s.sh, env(0));
    LaterOk(cfg, Later(s.sh, env(0)), env(1));
  }

  /** The refresh token is replaced by another. */
  predicate Replaces(before: Shared, after: Shared, token: string, minted: string) {
    && after.users == before.users
    && after.tokens.Keys == before.tokens.Keys + {Key(Refresh, minted)} - {Key(Refresh, token)}
  }

  /** In any reachable state, if a refresh token can be read twice before it expires, then two refreshes
      of it that overlap without any fault both succeed, and leave two valid tokens in its place. */
  lemma OverlappingRefreshesBothSucceed(cfg: Config, s: State, token: string, env: Env)
    requires Inv(cfg, s) && Email.FixesEmails(cfg.normalise) && cfg.topology.TokensFromUserEvents()
    requires NoFaults(env, 0, 10) && LiveForBoth(s, Key(Refresh, token), env)
    requires env(4).random != token && env(8).random != token && env(4).random != env(8).random
    ensures var read := BothRead(cfg, s, RefreshToken(token), RefreshToken(token), env);
            var t := ApplyAll(cfg, ApplyAll(cfg, read, Runs(s.next, env, 2, 6)), Runs(s.next + 1, env, 6, 10));
            var p, q := s.next, s.next + 1;
            && p in t.procs && q in t.procs && t.procs[p].Finished? && t.procs[q].Finished?
            && t.procs[p].outcome.Success? && t.procs[q].outcome.Success?
            && Key(Refresh, env(4).random) in t.sh.tokens && Key(Refresh, env(8).random) in t.sh.tokens
            && Key(Refresh, token) !in t.sh.tokens
  {
    hide ApplyAll, Runs, Finish, BothRead, Inv, ShOk, Replaces;
    var k, call, pc := Key(Refresh, token), RefreshToken(token), Sessions.RefreshGet(token);
    var id := s.sh.tokens[k].userId;
    var read := BothRead(cfg, s, call, call, env);
    BothReadOk(cfg, s, env);
    BothReadIt(cfg, s, call, call, pc, pc, k, env);
    NamesUser(cfg, read.sh, k);
    ReaderFinishes(cfg, read, s.next, env, 2, token, id);
    var mid := ApplyAll(cfg, read, Runs(s.next, env, 2, 6));
    SameUsers(read.sh, mid.sh, token, env(4).random);
    ReaderFinishes(cfg, mid, s.next + 1, env, 6, token, id);
    var end := ApplyAll(cfg, mid, Runs(s.next + 1, env, 6, 10));
    ReplacedTwice(read.sh, mid.sh, end.sh, token, env(4).random, env(8).random);
  }

  lemma ReplacedTwice(a: Shared, b: Shared, c: Shared, token: string, first: string, second: string)
    requires Replaces(a, b, token, first) && Replaces(b, c, token, second) && first != token && second != token
    ensures Key(Refresh, first) in c.tokens && Key(Refresh, second) in c.tokens && Key(Refresh, token) !in c.tokens
  {
    assert Key(Refresh, first) in b.tokens.Keys;
  }

  lemma SameUsers(a: Shared, b: Shared, token: string, minted: string)
    requires Replaces(a, b, token, minted)
    ensures a.users == b.users
  {
  }

  lemma ReaderFinishes(cfg: Config, s: State, pid: Pid, env: Env, n: nat, token: string, id: Id)
    requires ShOk(cfg, s.sh) && Email.FixesEmails(cfg.normalise) && id in s.sh.users && NoFaults(env, n, 4)
    requires At(s, pid, Session(Sessions.RefreshFind(token, id)))
    ensures var t := ApplyAll(cfg, s, Runs(pid, env, n, n + 4));
            && ShOk(cfg, t.sh) && Replaces(s.sh, t.sh, token, env(n + 2).random)
            && pid in t.procs && t.procs[pid].Finished? && t.procs[pid].outcome.Success?
            && (forall q :: q != pid ==>
                (q in t.procs <==> q in s.procs) && (q in t.procs ==> t.procs[q] == s.procs[q]))
  {
    hide ApplyAll, Runs, Finish, ShOk;
    var u := ReadRefreshSucceeds(cfg, s.sh, id, env, n, token);
    FinishIsARun(cfg, s, pid, env, n);
    FinishOk(cfg, s.sh, s.procs[pid], env, n);
  }

  // ---------- Verifications ----------

  /** The code is valid for the user's secret when a verification that goes on now comes to check it. */
  predicate CodeWillDo(cfg: Config, sh: Shared, id: Id, code: string, env: Env, n: nat) {
    id in sh.users && cfg.totp(code, sh.users[id].totpSecret, sh.now + env(n).delay + env(n + 1).delay)
  }

  /** A verification that has read its token needs it no more. */
  lemma ReadVerificationSucceeds(cfg: Config, sh: Shared, id: Id, env: Env, n: nat, token: string, code: string)
    requires ShOk(cfg, sh) && Email.FixesEmails(cfg.normalise) && NoFaults(env, n, 5)
    requires CodeWillDo(cfg, sh, id, code, env, n)
    ensures var end := Finish(cfg, sh, Session(Sessions.VerifyFind(token, code, id)), env, n);
            end.outcome.Success? && end.outcome.body.Tokens? && end.n == n + 5
            && Exchanged(sh, end.sh, token, env(n + 4).random, id)
  {
    hide Advance, ShOk;
    var p := Session(Sessions.VerifyFind(token, code, id));
    var t, u := VerifyFinds(cfg, sh, id, env(n), token, code);
    var q := Session(Sessions.VerifyCheck(token, code, u));
    assert Finish(cfg, sh, p, env, n) == Finish(cfg, t, q, env, n + 1);
    VerifyChecks(cfg, t, u, env, n + 1, token, code);
  }

  lemma VerifierFinishes(cfg: Config, s: State, pid: Pid, env: Env, n: nat, token: string, code: string, id: Id)
    requires ShOk(cfg, s.sh) && Email.FixesEmails(cfg.normalise) && NoFaults(env, n, 5)
    requires At(s, pid, Session(Sessions.VerifyFind(token, code, id)))
    requires CodeWillDo(cfg, s.sh, id, code, env, n)
    ensures var t := ApplyAll(cfg, s, Runs(pid, env, n, n + 5));
            && ShOk(cfg, t.sh) && Exchanged(s.sh, t.sh, token, env(n + 4).random, id)
            && pid in t.procs && t.procs[pid].Finished?
            && t.procs[pid].outcome.Success? && t.procs[pid].outcome.body.Tokens?
            && (forall q :: q != pid ==>
                (q in t.procs <==> q in s.procs) && (q in t.procs ==> t.procs[q] == s.procs[q]))
  {
    hide ApplyAll, Runs, Finish, ShOk, Exchanged;
    ReadVerificationSucceeds(cfg, s.sh, id, env, n, token, code);
    FinishIsARun(cfg, s, pid, env, n);
    FinishOk(cfg, s.sh, s.procs[pid], env, n);
  }

  /** In any reachable state, if an MFA token can be read twice before it expires, then two verifications of
      it with valid codes that overlap without any fault, each deletion taking effect, both issue a session,
      and both sessions are valid. */
  lemma OverlappingVerificationsBothSucceed(cfg: Config, s: State, token: string, code1: string, code2: string,
        env: Env)
    requires Inv(cfg, s) && Email.FixesEmails(cfg.normalise)
    requires NoFaults(env, 0, 12) && LiveForBoth(s, Key(Mfa, token), env)
    requires var read := BothRead(cfg, s, VerifyMFA(token, code1), VerifyMFA(token, code2), env);
             var mid, id := ApplyAll(cfg, read, Runs(s.next, env, 2, 7)), s.sh.tokens[Key(Mfa, token)].userId;
             CodeWillDo(cfg, read.sh, id, code1, env, 2) && CodeWillDo(cfg, mid.sh, id, code2, env, 7)
    ensures var read := BothRead(cfg, s, VerifyMFA(token, code1), VerifyMFA(token, code2), env);
            var t := ApplyAll(cfg, ApplyAll(cfg, read, Runs(s.next, env, 2, 7)), Runs(s.next + 1, env, 7, 12));
            var p, q := s.next, s.next + 1;
            && p in t.procs && q in t.procs && t.procs[p].Finished? && t.procs[q].Finished?
            && t.procs[p].outcome.Success? && t.procs[p].outcome.body.Tokens?
            && t.procs[q].outcome.Success? && t.procs[q].outcome.body.Tokens?
            && Key(Refresh, env(6).random) in t.sh.tokens && Key(Refresh, env(11).random) in t.sh.tokens
            && Key(Mfa, token) !in t.sh.tokens
  {
    hide ApplyAll, Runs, Finish, BothRead, Inv, ShOk, CodeWillDo;
    var k, id := Key(Mfa, token), s.sh.tokens[Key(Mfa, token)].userId;
    var first, second := VerifyMFA(token, code1), VerifyMFA(token, code2);
    var read := BothRead(cfg, s, first, second, env);
    BothReadOk(cfg, s, env);
    BothReadIt(cfg, s, first, second, Sessions.VerifyGet(token, code1), Sessions.VerifyGet(token, code2), k, env);
    VerifierFinishes(cfg, read, s.next, env, 2, token, code1, id);
    var mid := ApplyAll(cfg, read, Runs(s.next, env, 2, 7));
    VerifierFinishes(cfg, mid, s.next + 1, env, 7, token, code2, id);
  }
}
