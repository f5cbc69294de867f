/** Use cases served one at a time: they only store generated tokens, and a rotation replaces one token. */
module SingleUse {
  import opened Wrappers
  import opened Users
  import opened Store
  import opened Machine
  import opened Serial
  import opened History
  import Sessions

  /** Generated values never repeat. */
  ghost predicate NoRepeats(env: Env) {
    forall i, j :: Differ(env, i, j)
  }

  predicate Differ(env: Env, i: nat, j: nat) {
    env(i).random == env(j).random ==> i == j
  }

  /** Every stored token was generated earlier. */
  ghost predicate Issued(sh: Shared, env: Env, n: nat) {
    forall k :: k in sh.tokens ==> GeneratedBefore(env, n, k.token)
  }

  ghost predicate GeneratedBefore(env: Env, n: nat, token: string) {
    exists i: nat :: i < n && env(i).random == token
  }

  /** The tokens an operation leaves. */
  lemma TokensLeft(cfg: Config, sh: Shared, op: Op, ch: Choice)
    ensures var t := Exec(cfg, sh, op, ch).0;
            && (forall k :: k in t.tokens ==> k in sh.tokens || k.token == ch.random)
            && (op.Del? && ch.fault != Lost ==> op.key !in t.tokens)
            && (!op.Mint? && !op.Del? ==> t.tokens == sh.tokens)
            && (op.Del? && ch.fault == Lost ==> t.tokens == sh.tokens)
  {
    TokensAfter(cfg, sh, op, ch);
  }

  lemma AdvanceLeaves(cfg: Config, sh: Shared, p: Proc, ch: Choice)
    requires !p.Finished?
    ensures forall k :: k in Advance(cfg, sh, p, ch).0.tokens ==> k in sh.tokens || k.token == ch.random
  {
    TokensLeft(cfg, sh, NextOp(p), ch);
  }

  ghost function AllIssued(env: Env): Property {
    (sh: Shared, n: nat) => Issued(sh, env, n)
  }

  lemma IssuedStays(cfg: Config, sh: Shared, p: Proc, env: Env, n: nat)
    requires !p.Finished? && Issued(sh, env, n)
    ensures Issued(Advance(cfg, sh, p, env(n)).0, env, n + 1)
  {
    var t := Advance(cfg, sh, p, env(n)).0;
    AdvanceLeaves(cfg, sh, p, env(n));
    forall k | k in t.tokens
      ensures GeneratedBefore(env, n + 1, k.token)
    {
      if k in sh.tokens {
        GeneratedLater(env, n, n + 1, k.token);
      }
    }
  }

  /** Jobs done one after another only ever store generated tokens. */
  lemma JobsKeepIssued(cfg: Config, sh: Shared, jobs: seq<Job>, env: Env, n: nat)
    requires Issued(sh, env, n)
    ensures var end := DoAll(cfg, sh, jobs, env, n); Issued(end.sh, env, end.n)
  {
    forall sh: Shared, p: Proc, m: nat | !p.Finished? && Issued(sh, env, m)
      ensures Issued(Advance(cfg, sh, p, env(m)).0, env, m + 1)
    {
      IssuedStays(cfg, sh, p, env, m);
    }
    forall sh: Shared, job: Job
      ensures Launch(cfg, sh, job).0.tokens == sh.tokens
    {
      LaunchKeepsTokens(cfg, sh, job);
    }
    JobsKeep(cfg, sh, jobs, env, n, AllIssued(env));
  }

  lemma GeneratedLater(env: Env, n: nat, m: nat, token: string)
    requires n <= m && GeneratedBefore(env, n, token)
    ensures GeneratedBefore(env, m, token)
  {
    var i: nat :| i < n && env(i).random == token;
    assert i < m;
  }

  lemma LaunchKeepsTokens(cfg: Config, sh: Shared, job: Job)
    ensures Launch(cfg, sh, job).0.tokens == sh.tokens
  {
  }

  // ---------- Refresh tokens ----------

  predicate Refreshing(p: Proc, token: string) {
    p.Session? && (p.s.RefreshFind? || p.s.RefreshSign? || p.s.RefreshMint? || p.s.RefreshDel?) && p.s.token == token
  }

  /** A refresh past its first read either fails, or comes to an operation that deletes the token. */
  lemma RefreshAdvances(cfg: Config, sh: Shared, p: Proc, ch: Choice, token: string)
    requires Refreshing(p, token)
    ensures var (t, q) := Advance(cfg, sh, p, ch);
            || (q.Finished? && q.outcome.Failure?)
            || (q.Finished? && p.s.RefreshDel? && Key(Refresh, token) !in t.tokens)
            || (Refreshing(q, token) && !p.s.RefreshDel?)
  {
    DelAnswers(cfg, sh, Key(Refresh, token), ch);
  }

  lemma {:induction false} RefreshDeletes(cfg: Config, sh: Shared, p: Proc, env: Env, n: nat, token: string)
    requires Refreshing(p, token)
    ensures var end := Finish(cfg, sh, p, env, n);
            end.outcome.Success? ==> Key(Refresh, token) !in end.sh.tokens
    decreases Stage(p), Left(p)
  {
    var (t, q) := Advance(cfg, sh, p, env(n));
    RefreshAdvances(cfg, sh, p, env(n), token);
    if !q.Finished? {
      RefreshDeletes(cfg, t, q, env, n + 1, token);
    }
  }

  lemma DelAnswers(cfg: Config, sh: Shared, k: Key, ch: Choice)
    ensures Exec(cfg, sh, Del(k), ch).1.Done? <==> ch.fault == Fine
    ensures ch.fault == Fine ==> k !in Exec(cfg, sh, Del(k), ch).0.tokens
  {
  }

  /** A refresh fails at its first read unless the token is stored. */
  lemma RefreshStarts(cfg: Config, sh: Shared, token: string, ch: Choice)
    ensures var (t, q) := Advance(cfg, sh, Begin(cfg, RefreshToken(token)), ch);
            t.tokens == sh.tokens
            && (if Key(Refresh, token) in sh.tokens
                then (q.Finished? ==> q.outcome.Failure?) && (!q.Finished? ==> Refreshing(q, token) && q.s.RefreshFind?)
                else q.Finished? && q.outcome.Failure?)
  {
  }

  /** A successful refresh needs the token stored, and leaves it not stored. */
  lemma RefreshUsesUp(cfg: Config, sh: Shared, token: string, env: Env, n: nat)
    ensures var end := Do(cfg, sh, Request(RefreshToken(token)), env, n);
            end.outcome.Success? ==> Key(Refresh, token) in sh.tokens && Key(Refresh, token) !in end.sh.tokens
  {
    var p := Begin(cfg, RefreshToken(token));
    RefreshStarts(cfg, sh, token, env(n));
    var (t, q) := Advance(cfg, sh, p, env(n));
    assert Do(cfg, sh, Request(RefreshToken(token)), env, n) == Finish(cfg, t, q, env, n + 1);
    if !q.Finished? {
      RefreshDeletes(cfg, t, q, env, n + 1, token);
    }
  }

  // ---------- Rotation ----------

  ghost function KeysOf(sh: Shared, kind: Kind): set<Key> {
    set k | k in sh.tokens && k.kind == kind
  }

  lemma MintLeaves(cfg: Config, sh: Shared, u: UserState, ch: Choice, token: string)
    ensures var (t, q) := Advance(cfg, sh, Session(Sessions.RefreshMint(token, u)), ch);
            q.Session? && q.s.RefreshDel? && q.s.token == token && q.s.user == u
            && (q.s.minted.Some? ==>
                  q.s.minted == Some(ch.random) && t.tokens.Keys == sh.tokens.Keys + {Key(Refresh, ch.random)})
  {
  }

  lemma DelLeaves(cfg: Config, sh: Shared, u: UserState, minted: Option<Fresh>, ch: Choice, token: string)
    ensures var (t, q) := Advance(cfg, sh, Session(Sessions.RefreshDel(token, u, minted)), ch);
            q.Finished?
            && (q.outcome.Success? ==> minted.Some? && q.outcome == Success(Tokens(u, minted.value))
                                       && t.tokens.Keys == sh.tokens.Keys - {Key(Refresh, token)})
  {
  }

  predicate Rotated(before: Shared, after: Shared, token: string, returned: string) {
    after.tokens.Keys == before.tokens.Keys + {Key(Refresh, returned)} - {Key(Refresh, token)}
  }

  lemma MintThenDelete(cfg: Config, sh: Shared, u: UserState, env: Env, n: nat, token: string)
    ensures var end := Finish(cfg, sh, Session(Sessions.RefreshMint(token, u)), env, n);
            end.outcome.Success? ==>
              end.outcome == Success(Tokens(u, env(n).random)) && Rotated(sh, end.sh, token, env(n).random)
  {
    var p := Session(Sessions.RefreshMint(token, u));
    MintLeaves(cfg, sh, u, env(n), token);
    var (t, q) := Advance(cfg, sh, p, env(n));
    DelLeaves(cfg, t, u, q.s.minted, env(n + 1), token);
    var (t2, r) := Advance(cfg, t, q, env(n + 1));
    assert Finish(cfg, sh, p, env, n) == Finish(cfg, t, q, env, n + 1) == Finish(cfg, t2, r, env, n + 2);
  }

  lemma RefreshReads(cfg: Config, sh: Shared, p: Proc, ch: Choice, token: string)
    requires Refreshing(p, token) && (p.s.RefreshFind? || p.s.RefreshSign?)
    ensures var (t, q) := Advance(cfg, sh, p, ch);
            t.tokens == sh.tokens
            && (if q.Finished? then q.outcome.Failure? else Refreshing(q, token) && !q.s.RefreshDel?)
  {
  }

  ghost predicate RotatesTo(sh: Shared, end: End, env: Env, n: nat, token: string)
    requires end.outcome.Success?
  {
    && end.outcome.body.Tokens?
    && Rotated(sh, end.sh, token, end.outcome.body.refreshToken)
    && exists i: nat :: i >= n && env(i).random == end.outcome.body.refreshToken
  }

  lemma {:induction false} RotationTokens(cfg: Config, sh: Shared, p: Proc, env: Env, n: nat, token: string)
    requires Refreshing(p, token) && !p.s.RefreshDel?
    ensures var end := Finish(cfg, sh, p, env, n); end.outcome.Success? ==> RotatesTo(sh, end, env, n, token)
    decreases Stage(p), Left(p)
  {
    if p.s.RefreshMint? {
      MintThenDelete(cfg, sh, p.s.user, env, n, token);
    } else {
      var (t, q) := Advance(cfg, sh, p, env(n));
      RefreshReads(cfg, sh, p, env(n), token);
      if !q.Finished? {
        RotationTokens(cfg, t, q, env, n + 1, token);
      }
    }
  }

  /** A successful refresh replaces exactly the redeemed token by the one it returns: the number of
      stored sessions stays the same, and no other token is touched. */
  lemma RotationReplacesOne(cfg: Config, sh: Shared, token: string, env: Env, n: nat)
    requires NoRepeats(env) && Issued(sh, env, n)
    ensures var end := Do(cfg, sh, Request(RefreshToken(token)), env, n);
            end.outcome.Success? ==>
              && end.outcome.body.Tokens?
              && var returned := Key(Refresh, end.outcome.body.refreshToken);
                 && returned !in sh.tokens
                 && end.sh.tokens.Keys == sh.tokens.Keys - {Key(Refresh, token)} + {returned}
                 && |KeysOf(end.sh, Refresh)| == |KeysOf(sh, Refresh)|
  {
    hide Advance, Issued, NoRepeats;
    var p := Begin(cfg, RefreshToken(token));
    RefreshStarts(cfg, sh, token, env(n));
    var (t, q) := Advance(cfg, sh, p, env(n));
    var end := Do(cfg, sh, Request(RefreshToken(token)), env, n);
    assert end == Finish(cfg, t, q, env, n + 1);
    if end.outcome.Success? {
      RefreshUsesUp(cfg, sh, token, env, n);
      RotationTokens(cfg, t, q, env, n + 1, token);
      CountsAfterRotation(sh, end, env, n, token);
    }
  }

  lemma NewIsNotStored(sh: Shared, env: Env, n: nat, i: nat, k: Key)
    requires NoRepeats(env) && Issued(sh, env, n) && i >= n && env(i).random == k.token
    ensures k !in sh.tokens
  {
    forall j: nat | j < n
      ensures env(j).random != k.token
    {
      assert Differ(env, i, j);
    }
  }

  lemma CountsAfterRotation(sh: Shared, end: End, env: Env, n: nat, token: string)
    requires NoRepeats(env) && Issued(sh, env, n) && Key(Refresh, token) in sh.tokens
    requires end.outcome.Success? && RotatesTo(sh, end, env, n, token)
    ensures var returned := Key(Refresh, end.outcome.body.refreshToken);
            && returned !in sh.tokens
            && end.sh.tokens.Keys == sh.tokens.Keys - {Key(Refresh, token)} + {returned}
            && |KeysOf(end.sh, Refresh)| == |KeysOf(sh, Refresh)|
  {
    var redeemed, returned := Key(Refresh, token), Key(Refresh, end.outcome.body.refreshToken);
    var i: nat :| i >= n && env(i).random == returned.token;
    NewIsNotStored(sh, env, n, i, returned);
    var a, b := KeysOf(sh, Refresh), KeysOf(end.sh, Refresh);
    assert forall k :: k in end.sh.tokens <==> k in end.sh.tokens.Keys;
    assert b == a - {redeemed} + {returned};
  }
}
