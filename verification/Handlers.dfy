/** The worker's message handlers. */
module Handlers {
  import opened Wrappers
  import opened Users
  import opened Store
  import Email

  datatype Pc =
    | RegistrationFind(email: string, password: string)
    | RegistrationHash(email: string, password: string)
    | RegistrationSave(email: string, hash: string)
    | RolesFind(userId: Id, roles: Option<seq<string>>)
    | RolesWrite(userId: Id, roles: Option<seq<string>>)
    | ConfirmationMint(userId: Id)
    | ResetMint(userId: Id)
    | UpgradeFind(userId: Id, newHash: string)
    | UpgradeUpdate(user: UserState)

  function ProcessUserRegistration(cfg: Config, payload: Payload): Next<Pc> {
    if payload.Malformed? then Return(Failure(BadPayload))
    else
      match Email.NewEmail(cfg.normalise, payload.email)
      case Err(_) => Return(Success(Nothing))  // dropped, or it would come back for ever
      case Ok(e) => Go(RegistrationFind(e, payload.password))
  }

  function ProcessRolesUpdate(payload: Payload): Next<Pc> {
    if payload.Malformed? then Return(Failure(BadPayload)) else Go(RolesFind(payload.userId, payload.roles))
  }

  function SendConfirmation(payload: Payload): Next<Pc> {
    if payload.Malformed? then Return(Failure(BadPayload)) else Go(ConfirmationMint(payload.id))
  }

  function SendPasswordReset(payload: Payload): Next<Pc> {
    if payload.Malformed? then Return(Failure(BadPayload)) else Go(ResetMint(payload.id))
  }

  function ProcessPasswordUpgrade(payload: Payload): Next<Pc> {
    if payload.Malformed? then Return(Failure(BadPayload)) else Go(UpgradeFind(payload.userId, payload.newHash))
  }

  /** The worker's dispatch of one message, up to the first operation of its handler. */
  function Handle(cfg: Config, m: Message): Next<Pc> {
    match cfg.topology.JobOf(m.event)
    case Registration => ProcessUserRegistration(cfg, m.payload)
    case RolesUpdate => ProcessRolesUpdate(m.payload)
    case Confirmation => SendConfirmation(m.payload)
    case ResetEmail => SendPasswordReset(m.payload)
    case Upgrade => ProcessPasswordUpgrade(m.payload)
    case Unknown => Return(Success(Nothing))
  }

  function NextOp(pc: Pc): Op {
    match pc
    case RegistrationFind(email, _) => FindByEmail(email)
    case RegistrationHash(_, password) => Hash(password)
    case RegistrationSave(email, hash) => Save(email, hash)
    case RolesFind(id, _) => FindByID(id)
    case RolesWrite(id, roles) => UpdateRoles(id, roles)
    case ConfirmationMint(id) => Mint(Confirm, id)
    case ResetMint(id) => Mint(Reset, id)
    case UpgradeFind(id, _) => FindByID(id)
    case UpgradeUpdate(u) => Update(u)
  }

  function Resume(pc: Pc, reply: Reply, now: Time): Next<Pc> {
    match pc
    case RegistrationFind(email, password) =>
      (match reply
       case Absent => Go(RegistrationHash(email, password))
       case Found(_) => Return(Success(Nothing))  // a duplicate is dropped
       case _ => Return(Failure(Dependency)))
    case RegistrationHash(email, _) =>
      if reply.Hashed? && reply.hash != "" then Go(RegistrationSave(email, reply.hash)) else Return(Failure(Dependency))
    case RegistrationSave(_, _) => Answered(reply)
    case RolesFind(id, roles) =>
      (match reply
       case Found(u) => Go(RolesWrite(u.id, roles))
       case Absent => Return(Failure(UserNotFound))
       case _ => Return(Failure(Dependency)))
    case RolesWrite(_, _) => Answered(reply)
    case ConfirmationMint(_) => Stored(reply)
    case ResetMint(_) => Stored(reply)
    case UpgradeFind(_, newHash) =>
      (match reply
       case Found(u) =>
         if newHash == "" then Return(Failure(BadHash)) else Go(UpgradeUpdate(u.UpdatePassword(newHash, now)))
       case Absent => Return(Failure(UserNotFound))
       case _ => Return(Failure(Dependency)))
    case UpgradeUpdate(_) => Answered(reply)
  }

  function Stored(reply: Reply): Next<Pc> {
    if reply.Minted? then Return(Success(Nothing)) else Return(Failure(Dependency))
  }

  /** Operations left at most, counting the one at hand. */
  function Rank(pc: Pc): nat {
    match pc
    case RegistrationFind(_, _) => 3
    case RegistrationHash(_, _) => 2
    case RegistrationSave(_, _) => 1
    case RolesFind(_, _) => 2
    case RolesWrite(_, _) => 1
    case ConfirmationMint(_) => 1
    case ResetMint(_) => 1
    case UpgradeFind(_, _) => 2
    case UpgradeUpdate(_) => 1
  }
}
