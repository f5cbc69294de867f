/** What the relay's passes get done: the effect of one pass, whatever fails in it, and passes without
    failures as one pass over the whole outbox. */
module RelayDrain {
  import opened Wrappers
  import opened Users
  import opened Store
  import opened Machine
  import opened Serial
  import opened MfaTokens

  // ---------- One pass ----------

  /** The rows of a batch whose publication was reported to work, from the n-th choice on. */
  function Reported(batch: seq<Item>, env: Env, n: nat): seq<nat> {
    if batch == [] then []
    else (if env(n).fault.Fine? then [batch[0].row] else []) + Reported(batch[1..], env, n + 1)
  }

  function MessageOf(item: Item): Message {
    Message(item.event, item.payload, item.row)
  }

  /** The messages of a batch that the broker took: also those for which an error was reported late. */
  function Taken(batch: seq<Item>, env: Env, n: nat): seq<Message> {
    if batch == [] then []
    else (if env(n).fault.Lost? then [] else [MessageOf(batch[0])]) + Taken(batch[1..], env, n + 1)
  }

  lemma PublishAdvances(cfg: Config, sh: Shared, batch: seq<Item>, toMark: seq<nat>, ch: Choice)
    requires batch != []
    ensures var (t, q) := Advance(cfg, sh, NextToPublish(batch, toMark), ch);
            && q == NextToPublish(batch[1..], toMark + (if ch.fault.Fine? then [batch[0].row] else []))
            && t.accepted == sh.accepted + (if ch.fault.Lost? then [] else [MessageOf(batch[0])])
            && t.outbox == sh.outbox
  {
    assert toMark + [] == toMark;
    assert sh.accepted + [] == sh.accepted;
  }

  lemma MarkAdvances(cfg: Config, sh: Shared, toMark: seq<nat>, ch: Choice)
    ensures var (t, q) := Advance(cfg, sh, Relay(Marking(toMark)), ch);
            && q == Finished(if ch.fault.Fine? then Success(Nothing) else Failure(Dependency))
            && t.accepted == sh.accepted
            && (if ch.fault.Lost? then t.outbox == sh.outbox else MarkedAt(sh.outbox, t.outbox, toMark, t.now))
  {
  }

  /** Exactly these rows were marked, at this time. */
  predicate MarkedAt(before: seq<OutboxRow>, after: seq<OutboxRow>, rows: seq<nat>, now: Time) {
    && |after| == |before|
    && forall r :: 0 <= r < |before| ==>
         after[r] == if r in rows then before[r].(publishedAt := Some(now)) else before[r]
  }

  lemma MarkingRuns(cfg: Config, sh: Shared, rows: seq<nat>, env: Env, n: nat)
    ensures var end := Finish(cfg, sh, Relay(Marking(rows)), env, n);
            && end.sh.accepted == sh.accepted
            && (if env(n).fault.Lost? then end.sh.outbox == sh.outbox
                else MarkedAt(sh.outbox, end.sh.outbox, rows, end.sh.now))
            && (end.outcome.Success? <==> env(n).fault.Fine?)
  {
    hide Advance;
    var p := Relay(Marking(rows));
    var (t, q) := Advance(cfg, sh, p, env(n));
    MarkAdvances(cfg, sh, rows, env(n));
    assert Finish(cfg, sh, p, env, n) == Finish(cfg, t, q, env, n + 1);
  }

  function ReportedFirst(batch: seq<Item>, ch: Choice): seq<nat>
    requires batch != []
  {
    if ch.fault.Fine? then [batch[0].row] else []
  }

  lemma ReportedSplits(batch: seq<Item>, toMark: seq<nat>, env: Env, n: nat)
    ensures batch == [] ==> toMark + Reported(batch, env, n) == toMark
    ensures batch != [] ==>
              toMark + Reported(batch, env, n)
                == toMark + ReportedFirst(batch, env(n)) + Reported(batch[1..], env, n + 1)
  {
  }

  lemma TakenSplits(batch: seq<Item>, sent: seq<Message>, env: Env, n: nat)
    ensures batch == [] ==> sent + Taken(batch, env, n) == sent
    ensures batch != [] ==>
              sent + Taken(batch, env, n)
                == sent + (if env(n).fault.Lost? then [] else [MessageOf(batch[0])]) + Taken(batch[1..], env, n + 1)
  {
  }

  /** The loop over a batch. */
  lemma {:induction false} Publishes(cfg: Config, sh: Shared, batch: seq<Item>, toMark: seq<nat>, env: Env, n: nat)
    returns (t: Shared)
    ensures t.accepted == sh.accepted + Taken(batch, env, n) && t.outbox == sh.outbox
    ensures Finish(cfg, sh, NextToPublish(batch, toMark), env, n)
         == Finish(cfg, t, NextToPublish([], toMark + Reported(batch, env, n)), env, n + |batch|)
    decreases |batch|
  {
    hide Advance, Reported, Taken;
    ReportedSplits(batch, toMark, env, n);
    TakenSplits(batch, sh.accepted, env, n);
    if batch == [] {
      t := sh;
    } else {
      var p, q := NextToPublish(batch, toMark), NextToPublish(batch[1..], toMark + ReportedFirst(batch, env(n)));
      var t1 := Advance(cfg, sh, p, env(n)).0;
      PublishAdvances(cfg, sh, batch, toMark, env(n));
      assert Finish(cfg, sh, p, env, n) == Finish(cfg, t1, q, env, n + 1);
      t := Publishes(cfg, t1, batch[1..], toMark + ReportedFirst(batch, env(n)), env, n + 1);
    }
  }

  lemma PublishingRuns(cfg: Config, sh: Shared, batch: seq<Item>, env: Env, n: nat)
    ensures var end := Finish(cfg, sh, NextToPublish(batch, []), env, n);
            var rows := Reported(batch, env, n);
            && end.sh.accepted == sh.accepted + Taken(batch, env, n)
            && (if rows == [] || env(n + |batch|).fault.Lost? then end.sh.outbox == sh.outbox
                else MarkedAt(sh.outbox, end.sh.outbox, rows, end.sh.now))
            && (end.outcome.Success? <==> rows == [] || env(n + |batch|).fault.Fine?)
  {
    hide Advance;
    var rows := Reported(batch, env, n);
    var t := Publishes(cfg, sh, batch, [], env, n);
    assert [] + rows == rows;
    if rows != [] {
      MarkingRuns(cfg, t, rows, env, n + |batch|);
    }
  }

  /** The query of a pass works. */
  ghost predicate Selects(sh: Shared, ch: Choice) {
    ch.fault.Fine? && IsBatch(sh.outbox, ch.pick, BATCH)
  }

  lemma SelectAdvances(cfg: Config, sh: Shared, ch: Choice)
    ensures Advance(cfg, sh, Begin(cfg, Tick), ch) ==
              (Later(sh, ch), if Selects(sh, ch) then NextToPublish(ItemsAt(sh.outbox, ch.pick), [])
                              else Finished(Failure(Dependency)))
  {
  }

  /** The effect of one pass, with any failures: a row is marked exactly when it is in the batch, its
      publication was reported to work and the update took effect; and the broker has every message of
      the batch but those that were lost. */
  lemma TickRuns(cfg: Config, sh: Shared, env: Env, n: nat)
    ensures var end := Do(cfg, sh, Request(Tick), env, n);
            if !Selects(sh, env(n)) then end.sh.outbox == sh.outbox && end.sh.accepted == sh.accepted
                && end.outcome.Failure?
            else
              var batch := ItemsAt(sh.outbox, env(n).pick);
              var rows := Reported(batch, env, n + 1);
              && end.sh.accepted == sh.accepted + Taken(batch, env, n + 1)
              && (if rows == [] || env(n + 1 + |batch|).fault.Lost? then end.sh.outbox == sh.outbox
                  else MarkedAt(sh.outbox, end.sh.outbox, rows, end.sh.now))
              && (end.outcome.Success? <==> rows == [] || env(n + 1 + |batch|).fault.Fine?)
  {
    hide Advance, IsBatch, Reported, Taken, ItemsAt, MarkedAt;
    var (t, q) := Advance(cfg, sh, Begin(cfg, Tick), env(n));
    SelectAdvances(cfg, sh, env(n));
    assert Do(cfg, sh, Request(Tick), env, n) == Finish(cfg, t, q, env, n + 1);
    if Selects(sh, env(n)) {
      PicksRows(sh.outbox, env(n).pick);
      var batch := ItemsAt(sh.outbox, env(n).pick);
      PublishingRuns(cfg, t, batch, env, n + 1);
    }
  }

  lemma PicksRows(outbox: seq<OutboxRow>, pick: seq<nat>)
    requires IsBatch(outbox, pick, BATCH)
    ensures forall i :: 0 <= i < |pick| ==> pick[i] < |outbox|
  {
    assert forall i :: 0 <= i < |pick| ==> Unpublished(outbox, pick[i]);
  }

  // ---------- Rows that are left ----------

  function Pending(outbox: seq<OutboxRow>): set<nat> {
    set r | 0 <= r < |outbox| && Unpublished(outbox, r)
  }

  function ToSet(rows: seq<nat>): set<nat> {
    set r | r in rows
  }

  predicate Distinct(rows: seq<nat>) {
    forall i, j :: 0 <= i < j < |rows| ==> rows[i] != rows[j]
  }

  lemma {:induction false} DistinctCount(rows: seq<nat>)
    requires Distinct(rows)
    ensures |ToSet(rows)| == |rows|
  {
    if rows != [] {
      var n := |rows| - 1;
      DistinctCount(rows[..n]);
      assert ToSet(rows) == ToSet(rows[..n]) + {rows[n]};
      assert rows[n] !in rows[..n];
    }
  }

  lemma DistinctCons(first: nat, rest: seq<nat>)
    requires Distinct(rest) && first !in rest
    ensures Distinct([first] + rest)
  {
  }

  /** The reported rows of a batch are rows of the batch, in its order. */
  lemma {:induction false} ReportedFromBatch(batch: seq<Item>, env: Env, n: nat)
    requires forall i, j :: 0 <= i < j < |batch| ==> batch[i].row != batch[j].row
    ensures Distinct(Reported(batch, env, n))
    ensures forall r :: r in Reported(batch, env, n) ==> exists i :: 0 <= i < |batch| && batch[i].row == r
    decreases |batch|
  {
    if batch != [] {
      var rest := Reported(batch[1..], env, n + 1);
      ReportedFromBatch(batch[1..], env, n + 1);
      forall r | r in rest
        ensures r != batch[0].row && exists i :: 0 <= i < |batch| && batch[i].row == r
      {
        var i :| 0 <= i < |batch[1..]| && batch[1..][i].row == r;
        assert batch[i + 1].row == r;
      }
      DistinctCons(batch[0].row, rest);
      assert Reported(batch, env, n) == (if env(n).fault.Fine? then [batch[0].row] + rest else rest);
    }
  }

  lemma MarkedLeaves(before: seq<OutboxRow>, after: seq<OutboxRow>, rows: seq<nat>, now: Time)
    requires MarkedAt(before, after, rows, now) && Distinct(rows) && forall r :: r in rows ==> Unpublished(before, r)
    ensures Pending(after) == Pending(before) - ToSet(rows) && |Pending(after)| == |Pending(before)| - |rows|
  {
    DistinctCount(rows);
    assert Pending(after) == Pending(before) - ToSet(rows);
    assert ToSet(rows) <= Pending(before);
  }

  /** With any failures, the number of unpublished rows drops by exactly the number of rows whose
      publication was reported to work in this pass, once the update takes effect, and not at all if it
      does not or if the query fails. */
  lemma TickDropsExactly(cfg: Config, sh: Shared, env: Env, n: nat)
    ensures var end := Do(cfg, sh, Request(Tick), env, n);
            |Pending(end.sh.outbox)| == |Pending(sh.outbox)| -
              (if !Selects(sh, env(n)) then 0
               else
                 var rows := Reported(ItemsAt(sh.outbox, env(n).pick), env, n + 1);
                 if env(n + 1 + |env(n).pick|).fault.Lost? then 0 else |rows|)
  {
    hide Do, IsBatch;
    TickRuns(cfg, sh, env, n);
    if Selects(sh, env(n)) {
      BatchIsDistinct(sh.outbox, env(n).pick);
      var batch := ItemsAt(sh.outbox, env(n).pick);
      var rows := Reported(batch, env, n + 1);
      ReportedFromBatch(batch, env, n + 1);
      if rows != [] && !env(n + 1 + |batch|).fault.Lost? {
        MarkedLeaves(sh.outbox, Do(cfg, sh, Request(Tick), env, n).sh.outbox, rows,
            Do(cfg, sh, Request(Tick), env, n).sh.now);
      }
    }
  }

  lemma BatchIsDistinct(outbox: seq<OutboxRow>, pick: seq<nat>)
    requires IsBatch(outbox, pick, BATCH)
    ensures forall i :: 0 <= i < |pick| ==> Unpublished(outbox, pick[i])
    ensures forall i, j :: 0 <= i < j < |ItemsAt(outbox, pick)| ==>
        ItemsAt(outbox, pick)[i].row != ItemsAt(outbox, pick)[j].row
  {
  }

  // ---------- Passes without failures ----------

  lemma {:induction false} AllReported(outbox: seq<OutboxRow>, pick: seq<nat>, env: Env, n: nat)
    requires (forall i :: 0 <= i < |pick| ==> pick[i] < |outbox|) && NoFaults(env, n, |pick|)
    ensures Reported(ItemsAt(outbox, pick), env, n) == pick
    ensures Taken(ItemsAt(outbox, pick), env, n) == MessagesOf(outbox, pick)
    decreases |pick|
  {
    if pick != [] {
      AllReported(outbox, pick[1..], env, n + 1);
      assert env(n).fault.Fine?;
      assert ItemsAt(outbox, pick)[1..] == ItemsAt(outbox, pick[1..]);
      assert MessagesOf(outbox, pick) == [MessageOf(ItemAt(outbox, pick[0]))] + MessagesOf(outbox, pick[1..]);
    }
  }

  /** The rows as messages. */
  function MessagesOf(outbox: seq<OutboxRow>, rows: seq<nat>): seq<Message>
    requires forall i :: 0 <= i < |rows| ==> rows[i] < |outbox|
  {
    seq(|rows|, i requires 0 <= i < |rows| => MessageOf(ItemAt(outbox, rows[i])))
  }

  /** Exactly the rows of `order` have been published since `before`; nothing else about the outbox has
      changed. */
  ghost predicate LeftAfter(before: seq<OutboxRow>, after: seq<OutboxRow>, order: seq<nat>) {
    && |after| == |before|
    && forall r: nat :: r < |before| ==>
         && (Unpublished(after, r) <==> Unpublished(before, r) && r !in order)
         && after[r] == before[r].(publishedAt := after[r].publishedAt)
  }

  lemma NoFaultsTick(cfg: Config, sh: Shared, env: Env, n: nat)
    requires Selects(sh, env(n)) && NoFaults(env, n, |env(n).pick| + 2)
    ensures var end, pick := Do(cfg, sh, Request(Tick), env, n), env(n).pick;
            && (forall i :: 0 <= i < |pick| ==> pick[i] < |sh.outbox|)
            && end.sh.accepted == sh.accepted + MessagesOf(sh.outbox, pick)
            && LeftAfter(sh.outbox, end.sh.outbox, pick)
  {
    hide Do, IsBatch, LeftAfter, MarkedAt, Reported, Taken, MessagesOf;
    var before, after, pick := sh.outbox, Do(cfg, sh, Request(Tick), env, n).sh.outbox, env(n).pick;
    TickRuns(cfg, sh, env, n);
    BatchIsDistinct(before, pick);
    AllReported(before, pick, env, n + 1);
    if pick == [] {
      SameIsLeft(before);
    } else {
      MarkedIsLeft(before, after, pick, Do(cfg, sh, Request(Tick), env, n).sh.now);
    }
  }

  lemma MarkedIsLeft(before: seq<OutboxRow>, after: seq<OutboxRow>, order: seq<nat>, now: Time)
    requires MarkedAt(before, after, order, now)
    ensures LeftAfter(before, after, order)
  {
  }

  lemma SameIsLeft(outbox: seq<OutboxRow>)
    ensures LeftAfter(outbox, outbox, [])
  {
  }

  lemma {:induction false} Oldest(outbox: seq<OutboxRow>, rows: set<nat>) returns (r: nat)
    requires rows != {} && forall x :: x in rows ==> x < |outbox|
    ensures r in rows && forall x :: x in rows ==> outbox[r].createdAt <= outbox[x].createdAt
    decreases |rows|
  {
    r :| r in rows;
    var rest := rows - {r};
    if rest != {} {
      var q := Oldest(outbox, rest);
      if outbox[q].createdAt < outbox[r].createdAt {
        r := q;
      }
    }
  }

  /** There is a batch of every outbox. */
  lemma {:induction false} BatchExists(outbox: seq<OutboxRow>, limit: nat) returns (pick: seq<nat>)
    ensures IsBatch(outbox, pick, limit)
  {
    hide IsBatch, Pending, ToSet;
    if limit == 0 {
      pick := [];
      NoneTaken(outbox);
    } else {
      pick := BatchExists(outbox, limit - 1);
      var rest := Pending(outbox) - ToSet(pick);
      if rest == {} {
        AllTaken(outbox, pick, limit - 1);
      } else {
        Bounded(outbox);
        var r := Oldest(outbox, rest);
        OneMore(outbox, pick, limit - 1, r);
        pick := pick + [r];
      }
    }
  }

  lemma Bounded(outbox: seq<OutboxRow>)
    ensures forall r :: r in Pending(outbox) ==> r < |outbox|
  {
  }

  lemma NoneTaken(outbox: seq<OutboxRow>)
    ensures IsBatch(outbox, [], 0)
  {
  }

  lemma AllTaken(outbox: seq<OutboxRow>, pick: seq<nat>, limit: nat)
    requires IsBatch(outbox, pick, limit) && Pending(outbox) - ToSet(pick) == {}
    ensures IsBatch(outbox, pick, limit + 1)
  {
    forall q: nat | q < |outbox| && Unpublished(outbox, q)
      ensures q in pick
    {
      assert q in Pending(outbox) && q !in Pending(outbox) - ToSet(pick);
    }
  }

  lemma OneMore(outbox: seq<OutboxRow>, pick: seq<nat>, limit: nat, r: nat)
    requires IsBatch(outbox, pick, limit) && r in Pending(outbox) - ToSet(pick)
    requires forall q :: q in Pending(outbox) - ToSet(pick) ==> outbox[r].createdAt <= outbox[q].createdAt
    ensures IsBatch(outbox, pick + [r], limit + 1)
  {
    var longer := pick + [r];
    assert Unpublished(outbox, r) && r !in pick;
    forall i | 0 <= i < |pick|
      ensures pick[i] != r && outbox[pick[i]].createdAt <= outbox[r].createdAt
    {
      assert pick[i] in pick;
    }
    forall q: nat | q < |outbox| && Unpublished(outbox, q) && q !in longer
      ensures outbox[r].createdAt <= outbox[q].createdAt && q !in pick
    {
      assert q in Pending(outbox) - ToSet(pick);
    }
  }

  /** Taking the oldest rows, and then the oldest of what is left, is taking the oldest rows. */
  lemma BatchesCompose(before: seq<OutboxRow>, mid: seq<OutboxRow>, a: seq<nat>, b: seq<nat>, limit: nat, more: nat)
    requires IsBatch(before, a, limit) && LeftAfter(before, mid, a) && IsBatch(mid, b, more)
    ensures IsBatch(before, a + b, limit + more)
  {
    var all := a + b;
    forall j | 0 <= j < |b|
      ensures Unpublished(before, b[j]) && b[j] !in a && before[b[j]].createdAt == mid[b[j]].createdAt
    {
      assert Unpublished(mid, b[j]);
    }
    forall i, j | 0 <= i < j < |all|
      ensures all[i] != all[j] && before[all[i]].createdAt <= before[all[j]].createdAt
    {
      if i < |a| && |a| <= j {
        assert all[i] == a[i] && all[j] == b[j - |a|];
      }
    }
    forall r: nat | r < |before| && Unpublished(before, r) && r !in all
      ensures |all| == limit + more && forall i :: 0 <= i < |all| ==> before[all[i]].createdAt <= before[r].createdAt
    {
      assert r !in a && r !in b;
      assert Unpublished(mid, r);
    }
  }

  lemma LeftCompose(before: seq<OutboxRow>, mid: seq<OutboxRow>, after: seq<OutboxRow>, a: seq<nat>, b: seq<nat>)
    requires LeftAfter(before, mid, a) && LeftAfter(mid, after, b)
    ensures LeftAfter(before, after, a + b)
  {
    forall r: nat | r < |before|
      ensures Unpublished(after, r) <==> Unpublished(before, r) && r !in a + b
    {
      assert Unpublished(mid, r) <==> Unpublished(before, r) && r !in a;
      assert Unpublished(after, r) <==> Unpublished(mid, r) && r !in b;
    }
  }

  function Ticks(k: nat): seq<Job> {
    seq(k, i => Request(Tick))
  }

  /** Without faults, a pass fails only if its query returns something else than a batch. */
  ghost predicate TicksSucceed(cfg: Config, sh: Shared, env: Env, n: nat, k: nat) {
    forall j :: 0 < j <= k ==> DoAll(cfg, sh, Ticks(j), env, n).outcome.Success?
  }

  /** The rows these passes published, in order: `order` is what one query without the limit of 50, but
      with that of all the passes together, may return. */
  ghost predicate OnePass(before: Shared, after: Shared, order: seq<nat>, limit: nat) {
    && IsBatch(before.outbox, order, limit)
    && (forall i :: 0 <= i < |order| ==> order[i] < |before.outbox|)
    && after.accepted == before.accepted + MessagesOf(before.outbox, order)
    && LeftAfter(before.outbox, after.outbox, order)
  }

  lemma PassesCompose(before: Shared, mid: Shared, after: Shared, a: seq<nat>, b: seq<nat>, limit: nat, more: nat)
    requires OnePass(before, mid, a, limit) && OnePass(mid, after, b, more)
    ensures OnePass(before, after, a + b, limit + more)
  {
    BatchesCompose(before.outbox, mid.outbox, a, b, limit, more);
    LeftCompose(before.outbox, mid.outbox, after.outbox, a, b);
    assert MessagesOf(mid.outbox, b) == MessagesOf(before.outbox, b);
    assert MessagesOf(before.outbox, a + b) == MessagesOf(before.outbox, a) + MessagesOf(before.outbox, b);
  }

  lemma TickIsPass(cfg: Config, sh: Shared, env: Env, n: nat)
    requires (forall i :: n <= i ==> env(i).fault.Fine?) && Do(cfg, sh, Request(Tick), env, n).outcome.Success?
    ensures OnePass(sh, Do(cfg, sh, Request(Tick), env, n).sh, env(n).pick, BATCH)
  {
    hide Do;
    TickRuns(cfg, sh, env, n);
    NoFaultsTick(cfg, sh, env, n);
  }

  /** Passes without faults are together one pass over the outbox: what they publish, in the order in
      which they publish it, is what a single query with all their limits together may return. */
  lemma {:induction false} TicksRefineOnePass(cfg: Config, sh: Shared, env: Env, n: nat, k: nat)
    returns (order: seq<nat>)
    requires (forall i :: n <= i ==> env(i).fault.Fine?) && TicksSucceed(cfg, sh, env, n, k)
    ensures OnePass(sh, DoAll(cfg, sh, Ticks(k), env, n).sh, order, BATCH * k)
  {
    hide Do;
    order := [];
    if k == 0 {
      assert sh.accepted + MessagesOf(sh.outbox, []) == sh.accepted;
    } else {
      order := TicksRefineOnePass(cfg, sh, env, n, k - 1);
      var mid := DoAll(cfg, sh, Ticks(k - 1), env, n);
      assert Ticks(k)[..k - 1] == Ticks(k - 1);
      DoAllSnoc(cfg, sh, Ticks(k), env, n);
      DoAllCounts(cfg, sh, Ticks(k - 1), env, n);
      TickIsPass(cfg, mid.sh, env, mid.n);
      var last := Do(cfg, mid.sh, Request(Tick), env, mid.n);
      PassesCompose(sh, mid.sh, last.sh, order, env(mid.n).pick, BATCH * (k - 1), BATCH);
      order := order + env(mid.n).pick;
    }
  }

  lemma {:induction false} DoAllCounts(cfg: Config, sh: Shared, jobs: seq<Job>, env: Env, n: nat)
    ensures DoAll(cfg, sh, jobs, env, n).n >= n
  {
    if jobs != [] {
      DoAllCounts(cfg, sh, jobs[..|jobs| - 1], env, n);
      var before := DoAll(cfg, sh, jobs[..|jobs| - 1], env, n);
      var (t, p) := Launch(cfg, before.sh, jobs[|jobs| - 1]);
      FinishCounts(cfg, t, p, env, before.n);
    }
  }

  // ---------- Passes that succeed ----------

  /** What a process does depends only on the choices for its own operations. */
  lemma {:induction false} FinishLocal(cfg: Config, sh: Shared, p: Proc, env: Env, other: Env, n: nat)
    requires forall i :: n <= i < Finish(cfg, sh, p, env, n).n ==> env(i) == other(i)
    ensures Finish(cfg, sh, p, other, n) == Finish(cfg, sh, p, env, n)
    decreases Stage(p), Left(p)
  {
    hide Advance;
    if !p.Finished? {
      var (t, q) := Advance(cfg, sh, p, env(n));
      FinishCounts(cfg, t, q, env, n + 1);
      FinishLocal(cfg, t, q, env, other, n + 1);
    }
  }

  lemma {:induction false} TicksLocal(cfg: Config, sh: Shared, env: Env, other: Env, n: nat, k: nat)
    requires forall i :: n <= i < DoAll(cfg, sh, Ticks(k), env, n).n ==> env(i) == other(i)
    ensures DoAll(cfg, sh, Ticks(k), other, n) == DoAll(cfg, sh, Ticks(k), env, n)
    ensures TicksSucceed(cfg, sh, env, n, k) ==> TicksSucceed(cfg, sh, other, n, k)
  {
    hide Finish;
    if k > 0 {
      var mid := DoAll(cfg, sh, Ticks(k - 1), env, n);
      assert Ticks(k)[..k - 1] == Ticks(k - 1);
      DoAllSnoc(cfg, sh, Ticks(k), env, n);
      DoAllSnoc(cfg, sh, Ticks(k), other, n);
      DoAllCounts(cfg, sh, Ticks(k - 1), env, n);
      FinishCounts(cfg, mid.sh, Begin(cfg, Tick), env, mid.n);
      TicksLocal(cfg, sh, env, other, n, k - 1);
      FinishLocal(cfg, mid.sh, Begin(cfg, Tick), env, other, mid.n);
    }
  }

  /** From every state, any number of passes can succeed one after another. */
  lemma {:induction false} TicksCanSucceed(cfg: Config, sh: Shared, n: nat, k: nat) returns (env: Env)
    ensures (forall i :: env(i).fault.Fine?) && TicksSucceed(cfg, sh, env, n, k)
  {
    hide Do, IsBatch, Finish;
    var calm := Choice(Fine, 0, "x", [], 0, [], 0);
    env := (i: nat) => calm;
    if k > 0 {
      var before := TicksCanSucceed(cfg, sh, n, k - 1);
      var mid := DoAll(cfg, sh, Ticks(k - 1), before, n);
      var pick := BatchExists(mid.sh.outbox, BATCH);
      env := (i: nat) => if i < mid.n then before(i) else calm.(pick := pick);
      TicksLocal(cfg, sh, before, env, n, k - 1);
      assert Ticks(k)[..k - 1] == Ticks(k - 1);
      DoAllSnoc(cfg, sh, Ticks(k), env, n);
      TickRuns(cfg, mid.sh, env, mid.n);
    }
  }

  lemma BatchSize(outbox: seq<OutboxRow>, pick: seq<nat>, limit: nat)
    requires IsBatch(outbox, pick, limit)
    ensures |pick| == if |Pending(outbox)| <= limit then |Pending(outbox)| else limit
    ensures |pick| < limit ==> ToSet(pick) == Pending(outbox)
  {
    DistinctCount(pick);
    assert ToSet(pick) <= Pending(outbox);
    SubsetSize(ToSet(pick), Pending(outbox));
    if ToSet(pick) != Pending(outbox) {
      var r :| r in Pending(outbox) && r !in ToSet(pick);
      assert |pick| == limit;
    }
  }

  lemma SubsetSize(a: set<nat>, b: set<nat>)
    requires a <= b
    ensures |a| <= |b| && (|a| == |b| ==> a == b)
  {
    assert b == a + (b - a);
  }

  /** The rows of `order` are among the oldest of these, each once and sorted by the time they were created. */
  predicate OldestInOrder(outbox: seq<OutboxRow>, rows: set<nat>, order: seq<nat>)
    requires forall r :: r in rows ==> r < |outbox|
  {
    && (forall i :: 0 <= i < |order| ==> order[i] in rows)
    && (forall i, j :: 0 <= i < j < |order| ==>
          order[i] != order[j] && outbox[order[i]].createdAt <= outbox[order[j]].createdAt)
    && (forall i, r :: 0 <= i < |order| && r in rows && r !in order ==>
          outbox[order[i]].createdAt <= outbox[r].createdAt)
  }

  /** The broker took a copy of each row of `order`, in that order. */
  predicate CopiesSent(outbox: seq<OutboxRow>, before: seq<Message>, after: seq<Message>, order: seq<nat>) {
    && |after| == |before| + |order| && before <= after
    && forall i :: 0 <= i < |order| ==>
         && order[i] < |outbox|
         && var message, row := after[|before| + i], outbox[order[i]];
            message.event == row.event && message.payload == row.payload && message.row == order[i]
  }

  lemma PassInOrder(before: Shared, after: Shared, order: seq<nat>, limit: nat)
    requires OnePass(before, after, order, limit)
    ensures OldestInOrder(before.outbox, Pending(before.outbox), order)
    ensures CopiesSent(before.outbox, before.accepted, after.accepted, order)
    ensures Pending(after.outbox) == Pending(before.outbox) - ToSet(order)
  {
    forall i | 0 <= i < |order|
      ensures order[i] in Pending(before.outbox)
    {
      assert Unpublished(before.outbox, order[i]);
    }
  }

  /** So k passes without faults publish the min(50 k, n) oldest of n unpublished rows, each once and
      sorted by the time they were created, and leave the others: the outbox is drained exactly when
      50 k reaches n. */
  lemma DrainedExactlyWhen(cfg: Config, sh: Shared, env: Env, n: nat, k: nat) returns (order: seq<nat>)
    requires (forall i :: n <= i ==> env(i).fault.Fine?) && TicksSucceed(cfg, sh, env, n, k)
    ensures var end, pending := DoAll(cfg, sh, Ticks(k), env, n).sh, Pending(sh.outbox);
            && OldestInOrder(sh.outbox, pending, order) && CopiesSent(sh.outbox, sh.accepted, end.accepted, order)
            && LeftAfter(sh.outbox, end.outbox, order)
            && Pending(end.outbox) == pending - ToSet(order)
            && |order| == (if |pending| <= 50 * k then |pending| else 50 * k)
            && (Pending(end.outbox) == {} <==> |pending| <= 50 * k)
  {
    hide DoAll, IsBatch;
    order := TicksRefineOnePass(cfg, sh, env, n, k);
    var after := DoAll(cfg, sh, Ticks(k), env, n).sh;
    PassInOrder(sh, after, order, BATCH * k);
    PassSize(sh.outbox, order, BATCH * k);
  }

  lemma PassSize(outbox: seq<OutboxRow>, order: seq<nat>, limit: nat)
    requires IsBatch(outbox, order, limit)
    ensures |order| == if |Pending(outbox)| <= limit then |Pending(outbox)| else limit
    ensures Pending(outbox) - ToSet(order) == {} <==> |Pending(outbox)| <= limit
  {
    BatchSize(outbox, order, limit);
    DistinctCount(order);
    var published, pending := ToSet(order), Pending(outbox);
    SubsetSize(published, pending);
    assert |pending - published| == |pending| - |published|;
  }

  /** One pass without a fault that succeeds publishes, and marks with its time, exactly the min(50, n) oldest of n
      unpublished rows. */
  lemma TickMarksFifty(cfg: Config, sh: Shared, env: Env, n: nat)
    requires (forall i :: n <= i ==> env(i).fault.Fine?) && Do(cfg, sh, Request(Tick), env, n).outcome.Success?
    ensures var end, pick, pending := Do(cfg, sh, Request(Tick), env, n).sh, env(n).pick, Pending(sh.outbox);
            && |pick| == (if |pending| <= 50 then |pending| else 50)
            && OldestInOrder(sh.outbox, pending, pick) && CopiesSent(sh.outbox, sh.accepted, end.accepted, pick)
            && MarkedAt(sh.outbox, end.outbox, pick, end.now)
  {
    hide Do, IsBatch, Reported, Taken, ItemsAt, MarkedAt, OldestInOrder, CopiesSent, OnePass, Pending;
    var end, pick := Do(cfg, sh, Request(Tick), env, n).sh, env(n).pick;
    TickRuns(cfg, sh, env, n);
    TickIsPass(cfg, sh, env, n);
    PassInOrder(sh, end, pick, BATCH);
    PassSize(sh.outbox, pick, BATCH);
    PicksRows(sh.outbox, pick);
    AllReported(sh.outbox, pick, env, n + 1);
    if pick == [] {
      NoneMarked(sh.outbox, end.now);
    }
  }

  lemma NoneMarked(outbox: seq<OutboxRow>, now: Time)
    ensures MarkedAt(outbox, outbox, [], now)
  {
  }
}
