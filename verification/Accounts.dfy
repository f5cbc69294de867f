/** The account use cases of the two APIs: register, roles, forgot and reset password, confirm e-mail,
    MFA setup and the profile query. */
module Accounts {
  import opened Wrappers
  import opened Users
  import opened Store
  import opened Topology
  import Email

  datatype Pc =
    | RegisterFind(email: string, command: Payload)
    | RegisterQueue(command: Payload)
    | RolesFind(userId: Id, roles: Option<seq<string>>)
    | RolesQueue(userId: Id, roles: Option<seq<string>>)
    | ForgotFind(email: string)
    | ForgotQueue(user: UserState)
    | ResetGet(token: string, password: string)
    | ResetFind(token: string, password: string, userId: Id)
    | ResetHash(token: string, password: string, user: UserState)
    | ResetUpdate(token: string, user: UserState)
    | ResetDel(token: string)
    | ConfirmGet(token: string)
    | ConfirmFind(token: string, userId: Id)
    | ConfirmUpdate(token: string, user: UserState)
    | ConfirmDel(token: string)
    | SetupFind(userId: Id)
    | SetupSecret(user: UserState)
    | SetupUpdate(user: UserState)
    | ProfileGet(id: Id)
    | ProfileFind(id: Id)
    | ProfileFill(profile: Profile)

  function Register(cfg: Config, email: string, password: string): Next<Pc> {
    match Email.NewEmail(cfg.normalise, email)
    case Err(_) => Return(Failure(InvalidEmail))
    case Ok(e) => Go(RegisterFind(e, RegisterPayload(email, password)))
  }

  function ChangeRoles(userId: Id, roles: Option<seq<string>>): Next<Pc> {
    Go(RolesFind(userId, roles))
  }

  function ForgotPassword(cfg: Config, email: string): Next<Pc> {
    match Email.NewEmail(cfg.normalise, email)
    case Err(_) => Return(Failure(InvalidEmail))
    case Ok(e) => Go(ForgotFind(e))
  }

  function ResetPassword(token: string, password: string): Next<Pc> {
    Go(ResetGet(token, password))
  }

  function ConfirmEmail(token: string): Next<Pc> {
    Go(ConfirmGet(token))
  }

  function SetupMFA(userId: Id): Next<Pc> {
    Go(SetupFind(userId))
  }

  function GetProfileOf(id: Id): Next<Pc> {
    Go(ProfileGet(id))
  }

  function NextOp(pc: Pc): Op {
    match pc
    case RegisterFind(email, _) => FindByEmail(email)
    case RegisterQueue(command) => SaveCommand(RegisterCommand, command)
    case RolesFind(id, _) => FindByID(id)
    case RolesQueue(id, roles) => SaveCommand(RolesCommand, RolesPayload(id, roles))
    case ForgotFind(email) => FindByEmail(email)
    case ForgotQueue(u) => SaveCommand(EventType.ForgotPassword, ForgotPayload(u.id, u.email))
    case ResetGet(token, _) => Get(Key(Reset, token))
    case ResetFind(_, _, id) => FindByID(id)
    case ResetHash(_, password, _) => Hash(password)
    case ResetUpdate(_, u) => Update(u)
    case ResetDel(token) => Del(Key(Reset, token))
    case ConfirmGet(token) => Get(Key(Confirm, token))
    case ConfirmFind(_, id) => FindByID(id)
    case ConfirmUpdate(_, u) => Update(u)
    case ConfirmDel(token) => Del(Key(Confirm, token))
    case SetupFind(id) => FindByID(id)
    case SetupSecret(_) => NewSecret
    case SetupUpdate(u) => Update(u)
    case ProfileGet(id) => GetProfile(id)
    case ProfileFind(id) => ReplicaFind(id)
    case ProfileFill(p) => SetProfile(p)
  }

  /** `now` is the time the process reads when the reply arrives. */
  function Resume(cfg: Config, pc: Pc, reply: Reply, now: Time): Next<Pc> {
    match pc
    case RegisterFind(_, command) =>
      (match reply
       case Absent => Go(RegisterQueue(command))
       case Found(_) => Return(Failure(UserAlreadyExists))
       case _ => Return(Failure(Dependency)))
    case RegisterQueue(_) => Answered(reply)
    case RolesFind(id, roles) =>
      (match reply
       case Found(_) => Go(RolesQueue(id, roles))
       case Absent => Return(Failure(UserNotFound))
       case _ => Return(Failure(Dependency)))
    case RolesQueue(_, _) => Answered(reply)
    case ForgotFind(_) =>
      (match reply
       case Found(u) => Go(ForgotQueue(u))
       case Absent => Return(Success(Nothing))  // an unknown address is not told apart
       case _ => Return(Failure(Dependency)))
    case ForgotQueue(_) => Answered(reply)
    case ResetGet(token, password) =>
      (match reply
       case Got(id) => Go(ResetFind(token, password, id))
       case Absent => Return(Failure(InvalidResetToken))
       case _ => Return(Failure(Dependency)))
    case ResetFind(token, password, _) =>
      (match reply
       case Found(u) => Go(ResetHash(token, password, u))
       case Absent => Return(Failure(UserNotFound))
       case _ => Return(Failure(Dependency)))
    case ResetHash(token, _, u) =>
      if reply.Hashed? && reply.hash != "" then Go(ResetUpdate(token, u.UpdatePassword(reply.hash, now)))
      else Return(Failure(Dependency))
    case ResetUpdate(token, _) => if reply.Done? then Go(ResetDel(token)) else Return(Failure(Dependency))
    case ResetDel(_) => Return(Success(Nothing))  // whether or not the deletion worked
    case ConfirmGet(token) =>
      (match reply
       case Got(id) => Go(ConfirmFind(token, id))
       case Absent => Return(Failure(InvalidVerificationToken))
       case _ => Return(Failure(Dependency)))
    case ConfirmFind(token, _) =>
      (match reply
       case Found(u) => Go(ConfirmUpdate(token, u.ConfirmEmail(now)))
       case Absent => Return(Failure(UserNotFound))
       case _ => Return(Failure(Dependency)))
    case ConfirmUpdate(token, _) => if reply.Done? then Go(ConfirmDel(token)) else Return(Failure(Dependency))
    case ConfirmDel(_) => Return(Success(Nothing))
    case SetupFind(_) =>
      (match reply
       case Found(u) => Go(SetupSecret(u))
       case Absent => Return(Failure(UserNotFound))
       case _ => Return(Failure(Dependency)))
    case SetupSecret(u) =>
      if reply.Minted? then Go(SetupUpdate(u.EnableMFA(reply.token, now))) else Return(Failure(Dependency))
    case SetupUpdate(u) => if reply.Done? then Return(Success(Secret(u.totpSecret))) else Return(Failure(Dependency))
    case ProfileGet(id) => if reply.Cached? then Return(Success(ProfileBody(reply.profile))) else Go(ProfileFind(id))
    case ProfileFind(_) =>
      if reply.Found? then Go(ProfileFill(ProfileOf(cfg, reply.user))) else Return(Failure(UserNotFound))
    case ProfileFill(p) => Return(Success(ProfileBody(p)))  // the caller does not wait for it
  }

  /** Operations left at most, counting the one at hand. */
  function Rank(pc: Pc): nat {
    match pc
    case RegisterFind(_, _) => 2
    case RegisterQueue(_) => 1
    case RolesFind(_, _) => 2
    case RolesQueue(_, _) => 1
    case ForgotFind(_) => 2
    case ForgotQueue(_) => 1
    case ResetGet(_, _) => 5
    case ResetFind(_, _, _) => 4
    case ResetHash(_, _, _) => 3
    case ResetUpdate(_, _) => 2
    case ResetDel(_) => 1
    case ConfirmGet(_) => 4
    case ConfirmFind(_, _) => 3
    case ConfirmUpdate(_, _) => 2
    case ConfirmDel(_) => 1
    case SetupFind(_) => 3
    case SetupSecret(_) => 2
    case SetupUpdate(_) => 1
    case ProfileGet(_) => 3
    case ProfileFind(_) => 2
    case ProfileFill(_) => 1
  }
}
