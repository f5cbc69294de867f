/** The session use cases - login, verify-mfa, refresh, logout - as automata: where each one is, the
    operation it performs there, and where the answer takes it. */
module Sessions {
  import opened Wrappers
  import opened Users
  import opened Store
  import opened Topology
  import Email

  datatype Pc =
    | LoginFind(email: string, password: string)
    | LoginCompare(user: UserState, password: string)
    | LoginRehash(user: UserState, password: string)
    | LoginQueueUpgrade(user: UserState, newHash: string)
    | LoginMintMfa(user: UserState)
    | LoginSign(user: UserState)
    | LoginMintRefresh(user: UserState)
    | VerifyGet(token: string, code: string)
    | VerifyFind(token: string, code: string, userId: Id)
    | VerifyCheck(token: string, code: string, user: UserState)
    | VerifyDel(token: string, user: UserState)
    | VerifySign(token: string, user: UserState)
    | VerifyMintRefresh(token: string, user: UserState)
    | RefreshGet(token: string)
    | RefreshFind(token: string, userId: Id)
    | RefreshSign(token: string, user: UserState)
    | RefreshMint(token: string, user: UserState)
    | RefreshDel(token: string, user: UserState, minted: Option<Fresh>)
    | LogoutDel(token: string)

  function Login(cfg: Config, email: string, password: string): Next<Pc> {
    match Email.NewEmail(cfg.normalise, email)
    case Err(_) => Return(Failure(InvalidLogin))
    case Ok(e) => Go(LoginFind(e, password))
  }

  function VerifyMFA(token: string, code: string): Next<Pc> {
    Go(VerifyGet(token, code))
  }

  function RefreshToken(token: string): Next<Pc> {
    Go(RefreshGet(token))
  }

  function Logout(token: string): Next<Pc> {
    Go(LogoutDel(token))
  }

  function NextOp(pc: Pc): Op {
    match pc
    case LoginFind(email, _) => FindByEmail(email)
    case LoginCompare(u, password) => Compare(password, u.hash)
    case LoginRehash(_, password) => Hash(password)
    case LoginQueueUpgrade(u, newHash) => SaveCommand(PasswordUpgrade, UpgradePayload(u.id, newHash))
    case LoginMintMfa(u) => Mint(Mfa, u.id)
    case LoginSign(u) => Sign(u)
    case LoginMintRefresh(u) => Mint(Refresh, u.id)
    case VerifyGet(token, _) => Get(Key(Mfa, token))
    case VerifyFind(_, _, id) => FindByID(id)
    case VerifyCheck(_, code, u) => CheckTotp(code, u.totpSecret)
    case VerifyDel(token, _) => Del(Key(Mfa, token))
    case VerifySign(_, u) => Sign(u)
    case VerifyMintRefresh(_, u) => Mint(Refresh, u.id)
    case RefreshGet(token) => Get(Key(Refresh, token))
    case RefreshFind(_, id) => FindByID(id)
    case RefreshSign(_, u) => Sign(u)
    case RefreshMint(_, u) => Mint(Refresh, u.id)
    case RefreshDel(token, _, _) => Del(Key(Refresh, token))
    case LogoutDel(token) => Del(Key(Refresh, token))
  }

  /** After the password matched and any upgrade was dealt with. */
  function SecondFactor(u: UserState): Next<Pc> {
    if u.mfaEnabled then Go(LoginMintMfa(u)) else Go(LoginSign(u))
  }

  function Resume(pc: Pc, reply: Reply): Next<Pc> {
    match pc
    case LoginFind(_, password) =>
      (match reply
       case Found(u) => if u.hash == "" then Return(Failure(InvalidLogin)) else Go(LoginCompare(u, password))
       case Absent => Return(Failure(InvalidLogin))
       case _ => Return(Failure(Dependency)))
    case LoginCompare(u, password) =>
      (match reply
       case Compared(true, needsUpgrade) => if needsUpgrade then Go(LoginRehash(u, password)) else SecondFactor(u)
       case _ => Return(Failure(InvalidLogin)))
    case LoginRehash(u, _) =>
      if reply.Hashed? then Go(LoginQueueUpgrade(u, reply.hash)) else SecondFactor(u)
    case LoginQueueUpgrade(u, _) => SecondFactor(u)
    case LoginMintMfa(u) =>
      if reply.Minted? then Return(Success(MFARequired(u.id, reply.token))) else Return(Failure(Dependency))
    case LoginSign(u) => if reply.Done? then Go(LoginMintRefresh(u)) else Return(Failure(Dependency))
    case LoginMintRefresh(u) =>
      if reply.Minted? then Return(Success(Tokens(u, reply.token))) else Return(Failure(Dependency))
    case VerifyGet(token, code) =>
      (match reply
       case Got(id) => Go(VerifyFind(token, code, id))
       case Absent => Return(Failure(InvalidMFAToken))
       case _ => Return(Failure(Dependency)))
    case VerifyFind(token, code, _) =>
      (match reply
       case Found(u) => Go(VerifyCheck(token, code, u))
       case Absent => Return(Failure(UserNotFound))
       case _ => Return(Failure(Dependency)))
    case VerifyCheck(token, _, u) =>
      if reply == Checked(true) then Go(VerifyDel(token, u)) else Return(Failure(InvalidTOTPCode))
    case VerifyDel(token, u) => Go(VerifySign(token, u))  // whether or not the deletion worked
    case VerifySign(token, u) => if reply.Done? then Go(VerifyMintRefresh(token, u)) else Return(Failure(Dependency))
    case VerifyMintRefresh(_, u) =>
      if reply.Minted? then Return(Success(Tokens(u, reply.token))) else Return(Failure(Dependency))
    case RefreshGet(token) =>
      (match reply
       case Got(id) => Go(RefreshFind(token, id))
       case Absent => Return(Failure(InvalidRefreshToken))
       case _ => Return(Failure(Dependency)))
    case RefreshFind(token, _) =>
      (match reply
       case Found(u) => Go(RefreshSign(token, u))
       case Absent => Return(Failure(UserNotFound))
       case _ => Return(Failure(Dependency)))
    case RefreshSign(token, u) => if reply.Done? then Go(RefreshMint(token, u)) else Return(Failure(Dependency))
    case RefreshMint(token, u) =>
      // Both commands of the pipeline are sent, whatever the first one answers.
      Go(RefreshDel(token, u, if reply.Minted? then Some(reply.token) else None))
    case RefreshDel(_, u, minted) =>
      if reply.Done? && minted.Some? then Return(Success(Tokens(u, minted.value))) else Return(Failure(Dependency))
    case LogoutDel(_) => if reply.Done? then Return(Success(Nothing)) else Return(Failure(Dependency))
  }

  /** Operations left at most, counting the one at hand. */
  function Rank(pc: Pc): nat {
    match pc
    case LoginFind(_, _) => 7
    case LoginCompare(_, _) => 6
    case LoginRehash(_, _) => 5
    case LoginQueueUpgrade(_, _) => 4
    case LoginMintMfa(_) => 1
    case LoginSign(_) => 2
    case LoginMintRefresh(_) => 1
    case VerifyGet(_, _) => 6
    case VerifyFind(_, _, _) => 5
    case VerifyCheck(_, _, _) => 4
    case VerifyDel(_, _) => 3
    case VerifySign(_, _) => 2
    case VerifyMintRefresh(_, _) => 1
    case RefreshGet(_) => 5
    case RefreshFind(_, _) => 4
    case RefreshSign(_, _) => 3
    case RefreshMint(_, _) => 2
    case RefreshDel(_, _, _) => 1
    case LogoutDel(_) => 1
  }
}
