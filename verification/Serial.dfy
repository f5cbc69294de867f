/** One use case at a time: a process run to its end with nothing in between, and that as a special
    case of the interleaved system. */
module Serial {
  import opened Users
  import opened Store
  import opened Invariant
  import opened Machine
  import opened Safety
  import Email
  import Sessions
  import Accounts
  import Handlers

  /** The environment's choice for the n-th operation. */
  type Env = nat -> Choice

  /** What gets smaller with every operation of a process. */
  function Stage(p: Proc): nat {
    match p
    case Session(_) => 3
    case Account(_) => 3
    case Handling(_, _) => 3
    case Settling(_, _) => 2
    case Relay(r) => (match r case Select => 3 case Publishing(_, _) => 2 case Marking(_) => 1)
    case Finished(_) => 0
  }

  function Left(p: Proc): nat {
    match p
    case Session(s) => Sessions.Rank(s)
    case Account(a) => Accounts.Rank(a)
    case Handling(_, h) => Handlers.Rank(h)
    case Settling(_, _) => 0
    case Relay(r) => if r.Publishing? then |r.batch| else 0
    case Finished(_) => 0
  }

  predicate Shorter(q: Proc, p: Proc) {
    Stage(q) < Stage(p) || (Stage(q) == Stage(p) && Left(q) < Left(p))
  }

  lemma SessionShorter(pc: Sessions.Pc, reply: Reply)
    ensures var n := Sessions.Resume(pc, reply); n.Go? ==> Sessions.Rank(n.pc) < Sessions.Rank(pc)
  {
  }

  lemma AccountShorter(cfg: Config, pc: Accounts.Pc, reply: Reply, now: Time)
    ensures var n := Accounts.Resume(cfg, pc, reply, now); n.Go? ==> Accounts.Rank(n.pc) < Accounts.Rank(pc)
  {
  }

  lemma HandlerShorter(pc: Handlers.Pc, reply: Reply, now: Time)
    ensures var n := Handlers.Resume(pc, reply, now); n.Go? ==> Handlers.Rank(n.pc) < Handlers.Rank(pc)
  {
  }

  lemma ResumeShorter(cfg: Config, p: Proc, reply: Reply, now: Time)
    requires !p.Finished?
    ensures Shorter(Resume(cfg, p, reply, now), p)
  {
    match p
    case Session(s) => SessionShorter(s, reply);
    case Account(a) => AccountShorter(cfg, a, reply, now);
    case Handling(_, h) => HandlerShorter(h, reply, now);
    case Settling(_, _) =>
    case Relay(_) =>
  }

  /** One operation of a process; one that is finished performs none. */
  ghost function Advance(cfg: Config, sh: Shared, p: Proc, ch: Choice): (r: (Shared, Proc))
    ensures !p.Finished? ==> Shorter(r.1, p)
  {
    if p.Finished? then (sh, p)
    else
      var (t, reply) := Exec(cfg, sh, NextOp(p), ch);
      ResumeShorter(cfg, p, reply, t.now);
      (t, Resume(cfg, p, reply, t.now))
  }

  datatype End = End(sh: Shared, outcome: Outcome, n: nat)

  /** The process run to its end, from the n-th choice on. */
  ghost function Finish(cfg: Config, sh: Shared, p: Proc, env: Env, n: nat): End
    decreases Stage(p), Left(p)
  {
    if p.Finished? then End(sh, p.outcome, n)
    else
      var (t, q) := Advance(cfg, sh, p, env(n));
      Finish(cfg, t, q, env, n + 1)
  }

  /** Work that is done one piece after another. */
  datatype Job = Request(call: Call) | Delivery(message: nat)

  /** The state in which a piece of work starts, and its process. */
  function Launch(cfg: Config, sh: Shared, job: Job): (Shared, Proc) {
    match job
    case Request(call) => (sh, Begin(cfg, call))
    case Delivery(m) =>
      if m in sh.ready && m < |sh.accepted| then
        (sh.(ready := sh.ready - {m}, unacked := sh.unacked + {m}), OfHandler(m, Handlers.Handle(cfg, sh.accepted[m])))
      else (sh, Finished(Success(Nothing)))
  }

  ghost function Do(cfg: Config, sh: Shared, job: Job, env: Env, n: nat): End {
    var (t, p) := Launch(cfg, sh, job);
    Finish(cfg, t, p, env, n)
  }

  /** All jobs in turn; the outcome is that of the last one. */
  ghost function DoAll(cfg: Config, sh: Shared, jobs: seq<Job>, env: Env, n: nat): End {
    if jobs == [] then End(sh, Success(Nothing), n)
    else
      var before := DoAll(cfg, sh, jobs[..|jobs| - 1], env, n);
      Do(cfg, before.sh, jobs[|jobs| - 1], env, before.n)
  }

  // ---------- Induction over operations ----------

  type Property = (Shared, nat) -> bool

  /** Every operation of every process keeps the property, and so does starting a job. */
  ghost predicate Kept(cfg: Config, env: Env, holds: Property) {
    && (forall sh: Shared, p: Proc, n: nat :: !p.Finished? && holds(sh, n) ==>
        holds(Advance(cfg, sh, p, env(n)).0, n + 1))
    && (forall sh: Shared, job: Job, n: nat :: holds(sh, n) ==> holds(Launch(cfg, sh, job).0, n))
  }

  lemma {:induction false} FinishKeeps(cfg: Config, sh: Shared, p: Proc, env: Env, n: nat, holds: Property)
    requires Kept(cfg, env, holds) && holds(sh, n)
    ensures var end := Finish(cfg, sh, p, env, n); holds(end.sh, end.n)
    decreases Stage(p), Left(p)
  {
    if !p.Finished? {
      var (t, q) := Advance(cfg, sh, p, env(n));
      FinishKeeps(cfg, t, q, env, n + 1, holds);
    }
  }

  /** What every operation keeps, jobs done one after another keep. */
  lemma {:induction false} JobsKeep(cfg: Config, sh: Shared, jobs: seq<Job>, env: Env, n: nat, holds: Property)
    requires Kept(cfg, env, holds) && holds(sh, n)
    ensures var end := DoAll(cfg, sh, jobs, env, n); holds(end.sh, end.n)
  {
    if jobs != [] {
      JobsKeep(cfg, sh, jobs[..|jobs| - 1], env, n, holds);
      var before := DoAll(cfg, sh, jobs[..|jobs| - 1], env, n);
      var (t, p) := Launch(cfg, before.sh, jobs[|jobs| - 1]);
      FinishKeeps(cfg, t, p, env, before.n, holds);
    }
  }

  // ---------- The invariant ----------

  lemma AdvanceOk(cfg: Config, sh: Shared, p: Proc, ch: Choice)
    requires ShOk(cfg, sh) && Email.FixesEmails(cfg.normalise) && !p.Finished? && ProcOk(cfg, sh, p)
    ensures var (t, q) := Advance(cfg, sh, p, ch); ShOk(cfg, t) && ProcOk(cfg, t, q) && Grows(sh, t)
  {
    hide Exec, ShOk, ReplyOk, OpOk;
    var (t, reply) := Exec(cfg, sh, NextOp(p), ch);
    NextOpOk(cfg, sh, p);
    ExecOk(cfg, sh, NextOp(p), ch);
    if !p.Settling? {
      SettlesItsOwn(p);
      ReleasesOnlyItsOwn(cfg, sh, NextOp(p), ch);
      ProcStays(cfg, sh, t, p);
      ProcResumes(cfg, t, p, reply, t.now);
    }
  }

  /** A process run to its end keeps the invariant of the whole system. */
  lemma {:induction false} FinishOk(cfg: Config, sh: Shared, p: Proc, env: Env, n: nat)
    requires ShOk(cfg, sh) && Email.FixesEmails(cfg.normalise) && ProcOk(cfg, sh, p)
    ensures var end := Finish(cfg, sh, p, env, n); ShOk(cfg, end.sh) && Grows(sh, end.sh)
    decreases Stage(p), Left(p)
  {
    hide Advance, ShOk, ProcOk;
    if !p.Finished? {
      var (t, q) := Advance(cfg, sh, p, env(n));
      AdvanceOk(cfg, sh, p, env(n));
      FinishOk(cfg, t, q, env, n + 1);
      GrowsTransitive(sh, t, Finish(cfg, t, q, env, n + 1).sh);
    }
  }

  lemma LaunchOk(cfg: Config, sh: Shared, job: Job)
    requires ShOk(cfg, sh)
    ensures var (t, p) := Launch(cfg, sh, job); ShOk(cfg, t) && ProcOk(cfg, t, p) && Grows(sh, t)
  {
    var (t, p) := Launch(cfg, sh, job);
    match job
    case Request(call) => BeginOk(cfg, sh, call);
    case Delivery(m) =>
      if m in sh.ready && m < |sh.accepted| {
        MoveOk(cfg, sh, t);
        HandleOk(cfg, t, m);
      }
  }

  lemma DoOk(cfg: Config, sh: Shared, job: Job, env: Env, n: nat)
    requires ShOk(cfg, sh) && Email.FixesEmails(cfg.normalise)
    ensures var end := Do(cfg, sh, job, env, n); ShOk(cfg, end.sh) && Grows(sh, end.sh)
  {
    hide ShOk, ProcOk, Finish, Launch;
    var (t, p) := Launch(cfg, sh, job);
    LaunchOk(cfg, sh, job);
    FinishOk(cfg, t, p, env, n);
    GrowsTransitive(sh, t, Finish(cfg, t, p, env, n).sh);
  }

  // ---------- A special case of the interleaved system ----------

  ghost function ApplyAll(cfg: Config, s: State, actions: seq<Action>): State
    decreases |actions|
  {
    if actions == [] then s else ApplyAll(cfg, Apply(cfg, s, actions[0]), actions[1..])
  }

  function Runs(pid: Pid, env: Env, from: nat, to: nat): seq<Action>
    decreases to - from
  {
    if from >= to then [] else [Run(pid, env(from))] + Runs(pid, env, from + 1, to)
  }

  lemma {:induction false} FinishCounts(cfg: Config, sh: Shared, p: Proc, env: Env, n: nat)
    ensures Finish(cfg, sh, p, env, n).n >= n
    ensures !p.Finished? ==> Finish(cfg, sh, p, env, n).n > n
    decreases Stage(p), Left(p)
  {
    if !p.Finished? {
      var (t, q) := Advance(cfg, sh, p, env(n));
      FinishCounts(cfg, t, q, env, n + 1);
    }
  }

  /** Running a process to its end is letting it, and no other, perform its next operations: so all that
      holds of every run of the system holds of use cases done one at a time. */
  lemma {:induction false} FinishIsARun(cfg: Config, s: State, pid: Pid, env: Env, n: nat)
    requires pid in s.procs
    ensures var end := Finish(cfg, s.sh, s.procs[pid], env, n);
            var t := ApplyAll(cfg, s, Runs(pid, env, n, end.n));
            t.sh == end.sh && At(t, pid, Finished(end.outcome)) && t.next == s.next
            && (forall q :: q != pid ==>
                (q in t.procs <==> q in s.procs) && (q in t.procs ==> t.procs[q] == s.procs[q]))
    decreases Stage(s.procs[pid]), Left(s.procs[pid])
  {
    var p := s.procs[pid];
    FinishCounts(cfg, s.sh, p, env, n);
    if !p.Finished? {
      var (sh, q) := Advance(cfg, s.sh, p, env(n));
      var s1 := Apply(cfg, s, Run(pid, env(n)));
      assert s1.sh == sh && s1.procs == s.procs[pid := q];
      FinishIsARun(cfg, s1, pid, env, n + 1);
      var end := Finish(cfg, s.sh, p, env, n);
      assert end == Finish(cfg, s1.sh, s1.procs[pid], env, n + 1);
      var runs := Runs(pid, env, n, end.n);
      assert runs[0] == Run(pid, env(n)) && runs[1..] == Runs(pid, env, n + 1, end.n);
    }
  }

  lemma OneAction(cfg: Config, s: State, a: Action)
    ensures ApplyAll(cfg, s, [a]) == Apply(cfg, s, a)
  {
    hide Apply;
    assert [a][1..] == [];
  }

  lemma TwoActions(cfg: Config, s: State, a: Action, b: Action)
    ensures ApplyAll(cfg, s, [a, b]) == Apply(cfg, Apply(cfg, s, a), b)
  {
    hide Apply;
    assert [a, b][1..] == [b];
    OneAction(cfg, Apply(cfg, s, a), b);
  }

  lemma {:induction false} AfterAll(cfg: Config, run: seq<Action>, more: seq<Action>)
    ensures After(cfg, run + more) == ApplyAll(cfg, After(cfg, run), more)
    decreases |more|
  {
    if more == [] {
      assert run + more == run;
    } else {
      assert (run + [more[0]])[..|run|] == run;
      AfterAll(cfg, run + [more[0]], more[1..]);
      assert run + [more[0]] + more[1..] == run + more;
    }
  }

  lemma {:induction false} ThenAll(cfg: Config, s: State, a: seq<Action>, b: seq<Action>)
    ensures ApplyAll(cfg, s, a + b) == ApplyAll(cfg, ApplyAll(cfg, s, a), b)
    decreases |a|
  {
    hide Apply;
    if a == [] {
      assert a + b == b;
    } else {
      ThenAll(cfg, Apply(cfg, s, a[0]), a[1..], b);
      assert (a + b)[1..] == a[1..] + b;
    }
  }

  /** The invariant of the system holds along every continuation of a state in which it holds, whether or not
      that state was reached under the same configuration. */
  lemma {:induction false} SoundFrom(cfg: Config, s: State, actions: seq<Action>)
    requires Inv(cfg, s) && Email.FixesEmails(cfg.normalise)
    ensures Inv(cfg, ApplyAll(cfg, s, actions))
    decreases |actions|
  {
    hide Inv;
    if actions != [] {
      ApplyKeeps(cfg, s, actions[0]);
      SoundFrom(cfg, Apply(cfg, s, actions[0]), actions[1..]);
    }
  }

  lemma ProcessFrom(cfg: Config, s: State, first: Action, p: Proc, env: Env, n: nat) returns (more: seq<Action>)
    requires var t := Apply(cfg, s, first); At(t, s.next, p)
    ensures ApplyAll(cfg, s, more).sh == Finish(cfg, Apply(cfg, s, first).sh, p, env, n).sh
  {
    hide Apply, Finish;
    var started := Apply(cfg, s, first);
    FinishIsARun(cfg, started, s.next, env, n);
    var runs := Runs(s.next, env, n, Finish(cfg, started.sh, p, env, n).n);
    more := [first] + runs;
    assert more[1..] == runs;
  }

  /** A job is a sequence of actions, from any state. */
  lemma JobFrom(cfg: Config, s: State, job: Job, env: Env, n: nat) returns (more: seq<Action>)
    ensures ApplyAll(cfg, s, more).sh == Do(cfg, s.sh, job, env, n).sh
  {
    var (t, p) := Launch(cfg, s.sh, job);
    if job.Request? {
      more := ProcessFrom(cfg, s, Start(job.call), p, env, n);
    } else if job.message in s.sh.ready && job.message < |s.sh.accepted| {
      more := ProcessFrom(cfg, s, Deliver(job.message), p, env, n);
    } else {
      more := [];
    }
  }

  lemma JobIsARun(cfg: Config, run: seq<Action>, job: Job, env: Env, n: nat) returns (more: seq<Action>)
    ensures After(cfg, run + more).sh == Do(cfg, After(cfg, run).sh, job, env, n).sh
  {
    more := JobFrom(cfg, After(cfg, run), job, env, n);
    AfterAll(cfg, run, more);
  }

  lemma DoAllSnoc(cfg: Config, sh: Shared, jobs: seq<Job>, env: Env, n: nat)
    requires jobs != []
    ensures var before := DoAll(cfg, sh, jobs[..|jobs| - 1], env, n);
            DoAll(cfg, sh, jobs, env, n) == Do(cfg, before.sh, jobs[|jobs| - 1], env, before.n)
  {
  }

  /** Jobs done one after another, following some run of the system, are themselves a run of it. */
  lemma {:induction false} JobsAreARun(cfg: Config, run: seq<Action>, jobs: seq<Job>, env: Env, n: nat)
    returns (more: seq<Action>)
    ensures After(cfg, run + more).sh == DoAll(cfg, After(cfg, run).sh, jobs, env, n).sh
  {
    more := [];
    if jobs == [] {
      assert run + more == run;
    } else {
      var init, sh := jobs[..|jobs| - 1], After(cfg, run).sh;
      var first := JobsAreARun(cfg, run, init, env, n);
      DoAllSnoc(cfg, sh, jobs, env, n);
      more := ThenJob(cfg, run, first, DoAll(cfg, sh, init, env, n), jobs[|jobs| - 1], env);
    }
  }

  lemma ThenJob(cfg: Config, run: seq<Action>, first: seq<Action>, mid: End, job: Job, env: Env)
    returns (more: seq<Action>)
    requires After(cfg, run + first).sh == mid.sh
    ensures After(cfg, run + more).sh == Do(cfg, mid.sh, job, env, mid.n).sh
  {
    hide Do;
    var last := JobIsARun(cfg, run + first, job, env, mid.n);
    more := first + last;
    assert run + first + last == run + more;
  }
}
