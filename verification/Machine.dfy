/** The whole system: any number of use cases, message handlers and relays at once, interleaved one
    operation at a time, each of which may fail, be delayed or be cut short by a crash. */
module Machine {
  import opened Wrappers
  import opened Users
  import opened Store
  import Sessions
  import Accounts
  import Handlers

  type Pid = nat

  datatype RelayPc =
    | Select
    | Publishing(batch: seq<Item>, toMark: seq<nat>)
    | Marking(toMark: seq<nat>)

  datatype Proc =
    | Session(s: Sessions.Pc)
    | Account(a: Accounts.Pc)
    | Handling(message: nat, h: Handlers.Pc)
    | Settling(message: nat, result: Outcome)
    | Relay(r: RelayPc)
    | Finished(outcome: Outcome)

  /** One pass of the relay: after the batch is read, each row is published, and those for which that
      worked are marked together. */
  function RelayOp(pc: RelayPc): Op {
    match pc
    case Select => SelectBatch
    case Publishing(batch, toMark) => if batch == [] then Mark(toMark) else Publish(batch[0])
    case Marking(toMark) => Mark(toMark)
  }

  function NextToPublish(batch: seq<Item>, toMark: seq<nat>): Proc {
    if batch != [] then Relay(Publishing(batch, toMark))
    else if toMark != [] then Relay(Marking(toMark))
    else Finished(Success(Nothing))
  }

  function RelayResume(pc: RelayPc, reply: Reply): Proc {
    match pc
    case Select => if reply.Rows? then NextToPublish(reply.items, []) else Finished(Failure(Dependency))
    case Publishing(batch, toMark) =>
      if batch == [] then Finished(Success(Nothing))
      else if reply.Done? then NextToPublish(batch[1..], toMark + [batch[0].row])
      else NextToPublish(batch[1..], toMark)
    case Marking(_) => Finished(if reply.Done? then Success(Nothing) else Failure(Dependency))
  }

  /** The operation a process that is not finished performs next. A settled message is acknowledged
      exactly when its handler succeeded. */
  function NextOp(p: Proc): Op
    requires !p.Finished?
  {
    match p
    case Session(s) => Sessions.NextOp(s)
    case Account(a) => Accounts.NextOp(a)
    case Handling(_, h) => Handlers.NextOp(h)
    case Settling(m, result) => if result.Success? then Ack(m) else Nack(m)
    case Relay(r) => RelayOp(r)
  }

  function OfSession(n: Next<Sessions.Pc>): Proc {
    match n
    case Go(s) => Session(s)
    case Return(outcome) => Finished(outcome)
  }

  function OfAccount(n: Next<Accounts.Pc>): Proc {
    match n
    case Go(a) => Account(a)
    case Return(outcome) => Finished(outcome)
  }

  function OfHandler(m: nat, n: Next<Handlers.Pc>): Proc {
    match n
    case Go(h) => Handling(m, h)
    case Return(outcome) => Settling(m, outcome)
  }

  function Resume(cfg: Config, p: Proc, reply: Reply, now: Time): Proc
    requires !p.Finished?
  {
    match p
    case Session(s) => OfSession(Sessions.Resume(s, reply))
    case Account(a) => OfAccount(Accounts.Resume(cfg, a, reply, now))
    case Handling(m, h) => OfHandler(m, Handlers.Resume(h, reply, now))
    case Settling(_, result) => Finished(result)
    case Relay(r) => RelayResume(r, reply)
  }

  /** A request to one of the APIs, or a tick of a relay. */
  datatype Call =
    | Login(email: string, password: string)
    | VerifyMFA(token: string, code: string)
    | RefreshToken(token: string)
    | Logout(token: string)
    | Register(email: string, password: string)
    | ChangeRoles(userId: Id, roles: Option<seq<string>>)
    | ForgotPassword(email: string)
    | ResetPassword(token: string, password: string)
    | ConfirmEmail(token: string)
    | SetupMFA(userId: Id)
    | QueryProfile(id: Id)
    | Tick

  function Begin(cfg: Config, call: Call): Proc {
    match call
    case Login(email, password) => OfSession(Sessions.Login(cfg, email, password))
    case VerifyMFA(token, code) => OfSession(Sessions.VerifyMFA(token, code))
    case RefreshToken(token) => OfSession(Sessions.RefreshToken(token))
    case Logout(token) => OfSession(Sessions.Logout(token))
    case Register(email, password) => OfAccount(Accounts.Register(cfg, email, password))
    case ChangeRoles(id, roles) => OfAccount(Accounts.ChangeRoles(id, roles))
    case ForgotPassword(email) => OfAccount(Accounts.ForgotPassword(cfg, email))
    case ResetPassword(token, password) => OfAccount(Accounts.ResetPassword(token, password))
    case ConfirmEmail(token) => OfAccount(Accounts.ConfirmEmail(token))
    case SetupMFA(id) => OfAccount(Accounts.SetupMFA(id))
    case QueryProfile(id) => OfAccount(Accounts.GetProfileOf(id))
    case Tick => Relay(Select)
  }

  /** One performed operation: which process, where it was, the environment's choice, the reply, and
      the time at which it took place. */
  datatype Event = Event(pid: Pid, at: Time, pc: Proc, choice: Choice, reply: Reply)

  datatype State = State(sh: Shared, procs: map<Pid, Proc>, next: Pid, log: seq<Event>)

  const INIT := State(START, map[], 0, [])

  datatype Action =
    | Start(call: Call)                   // a request arrives, or a ticker fires
    | Deliver(message: nat)               // the broker hands a waiting message to a consumer
    | Run(pid: Pid, choice: Choice)       // a process performs its next operation
    | Crash(pid: Pid)                     // a process dies; a message it holds goes back to the queue

  function Spawn(s: State, p: Proc): State {
    s.(procs := s.procs[s.next := p], next := s.next + 1)
  }

  /** Where a process is. */
  predicate At(s: State, pid: Pid, p: Proc) {
    pid in s.procs && s.procs[pid] == p
  }

  /** The message a process holds. */
  function Holds(p: Proc): Option<nat> {
    match p
    case Handling(m, _) => Some(m)
    case Settling(m, _) => Some(m)
    case _ => None
  }

  /** An action that is not possible leaves the state as it is. */
  ghost function Apply(cfg: Config, s: State, a: Action): State {
    match a
    case Start(call) => Spawn(s, Begin(cfg, call))
    case Deliver(m) =>
      if m in s.sh.ready && m < |s.sh.accepted| then
        Spawn(s.(sh := s.sh.(ready := s.sh.ready - {m}, unacked := s.sh.unacked + {m})),
              OfHandler(m, Handlers.Handle(cfg, s.sh.accepted[m])))
      else s
    case Run(pid, ch) =>
      if pid in s.procs && !s.procs[pid].Finished? then RunProc(cfg, s, pid, ch) else s
    case Crash(pid) =>
      if pid in s.procs then
        var m := Holds(s.procs[pid]);
        var sh := if m.Some? then s.sh.(unacked := s.sh.unacked - {m.value}, ready := s.sh.ready + {m.value}) else s.sh;
        s.(sh := sh, procs := s.procs - {pid})
      else s
  }

  ghost function RunProc(cfg: Config, s: State, pid: Pid, ch: Choice): State
    requires pid in s.procs && !s.procs[pid].Finished?
  {
    var p := s.procs[pid];
    var (sh, reply) := Exec(cfg, s.sh, NextOp(p), ch);
    State(sh, s.procs[pid := Resume(cfg, p, reply, sh.now)], s.next, s.log + [Event(pid, sh.now, p, ch, reply)])
  }

  /** The state a sequence of actions leads to from the start: every run of the system is one. */
  ghost function After(cfg: Config, run: seq<Action>): State {
    if run == [] then INIT else Apply(cfg, After(cfg, run[..|run| - 1]), run[|run| - 1])
  }
}
