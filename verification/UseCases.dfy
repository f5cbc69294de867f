/** The use cases of the two APIs as they run, on the stores and on user entities: each performs exactly
    the operations of its automaton, so that all that is proved of whole runs holds of them. */
module UseCases {
  import opened Wrappers
  import opened Users
  import opened Store
  import opened Topology
  import opened Machine
  import opened Serial
  import B = Backend
  import Email
  import Sessions
  import Accounts

  // ---------- Sessions ----------

  method LoginUser(b: B.Backend, email: string, password: string) returns (out: Outcome)
    requires b.Valid()
    modifies b
    ensures b.Valid()
    ensures End(b.View(), out, b.n) == old(b.Rest(Begin(b.cfg, Login(email, password))))
  {
    hide Exec, Finish, B.Backend.Rest, B.Backend.View;
    var address := Email.NewEmail(b.cfg.normalise, email);
    if address.Err? {
      return Failure(InvalidLogin);
    }
    ghost var p := Session(Sessions.LoginFind(address.value, password));
    var found, user := b.FindByEmail(address.value, p);
    if user == null {
      return Failure(if found.Absent? then InvalidLogin else Dependency);
    }
    if user.password == "" {
      return Failure(InvalidLogin);
    }
    p := Session(Sessions.LoginCompare(user.View(), password));
    var compared := b.Compare(password, user.password, p);
    if !compared.Compared? || !compared.matches {
      return Failure(InvalidLogin);
    }
    if compared.needsUpgrade {
      RequestUpgrade(b, user, password);
    }
    out := FinishLogin(b, user);
  }

  /** Queues the new hash of the password; that it worked is not looked at. */
  method RequestUpgrade(b: B.Backend, user: User, password: string)
    requires b.Valid()
    modifies b
    ensures b.Valid()
    ensures b.Rest(OfSession(Sessions.SecondFactor(user.View())))
         == old(b.Rest(Session(Sessions.LoginRehash(user.View(), password))))
  {
    hide Exec, Finish, B.Backend.Rest, B.Backend.View;
    var hashed := b.Hash(password, Session(Sessions.LoginRehash(user.View(), password)));
    if hashed.Hashed? {
      ghost var p := Session(Sessions.LoginQueueUpgrade(user.View(), hashed.hash));
      var queued := b.SaveCommand(PasswordUpgrade, UpgradePayload(user.id, hashed.hash), p);
    }
  }

  method FinishLogin(b: B.Backend, user: User) returns (out: Outcome)
    requires b.Valid()
    modifies b
    ensures b.Valid()
    ensures End(b.View(), out, b.n) == old(b.Rest(OfSession(Sessions.SecondFactor(user.View()))))
  {
    hide Exec, Finish, B.Backend.Rest, B.Backend.View;
    if user.mfaEnabled {
      var stored := b.Mint(Mfa, user.id, Session(Sessions.LoginMintMfa(user.View())));
      return if stored.Minted? then Success(MFARequired(user.id, stored.token)) else Failure(Dependency);
    }
    out := IssueSession(b, user, Session(Sessions.LoginSign(user.View())),
        Session(Sessions.LoginMintRefresh(user.View())));
  }

  /** Signs an access token and stores a new refresh token: `signing` and `storing` are where the process
      is before each. */
  method IssueSession(b: B.Backend, user: User, ghost signing: Proc, ghost storing: Proc) returns (out: Outcome)
    requires b.Valid() && signing.Session? && storing.Session?
    requires NextOp(signing) == Sign(user.View()) && NextOp(storing) == Mint(Refresh, user.id)
    requires forall r :: OfSession(Sessions.Resume(signing.s, r)) == if r.Done? then storing
        else Finished(Failure(Dependency))
    requires forall r :: OfSession(Sessions.Resume(storing.s, r))
               == Finished(if r.Minted? then Success(Tokens(user.View(), r.token)) else Failure(Dependency))
    modifies b
    ensures b.Valid()
    ensures End(b.View(), out, b.n) == old(b.Rest(signing))
  {
    var signed := b.Sign(user, signing);
    if !signed.Done? {
      return Failure(Dependency);
    }
    var stored := b.Mint(Refresh, user.id, storing);
    out := if stored.Minted? then Success(Tokens(user.View(), stored.token)) else Failure(Dependency);
  }

  method VerifyMFA(b: B.Backend, token: string, code: string) returns (out: Outcome)
    requires b.Valid()
    modifies b
    ensures b.Valid()
    ensures End(b.View(), out, b.n) == old(b.Rest(Begin(b.cfg, Call.VerifyMFA(token, code))))
  {
    hide Exec, Finish, B.Backend.Rest, B.Backend.View;
    ghost var p := Session(Sessions.VerifyGet(token, code));
    ghost var goal := b.Rest(p);
    var key := Key(Mfa, token);
    var got := b.Get(key, p);
    if !got.Got? {
      return Failure(if got.Absent? then InvalidMFAToken else Dependency);
    }
    p := Session(Sessions.VerifyFind(token, code, got.userId));
    assert b.Rest(p) == goal;
    var found, user := b.FindByID(got.userId, p);
    if user == null {
      return Failure(if found.Absent? then UserNotFound else Dependency);
    }
    p := Session(Sessions.VerifyCheck(token, code, user.View()));
    assert b.Rest(p) == goal;
    var valid := b.CheckTotp(code, user.totpSecret, p);
    if valid != Checked(true) {
      return Failure(InvalidTOTPCode);
    }
    p := Session(Sessions.VerifyDel(token, user.View()));
    assert b.Rest(p) == goal;
    out := BurnAndIssue(b, user, token);
  }

  /** Deletes the MFA token, without looking at whether that works, and issues the session. */
  method BurnAndIssue(b: B.Backend, user: User, token: string) returns (out: Outcome)
    requires b.Valid()
    modifies b
    ensures b.Valid()
    ensures End(b.View(), out, b.n) == old(b.Rest(Session(Sessions.VerifyDel(token, user.View()))))
  {
    hide Exec, Finish, B.Backend.Rest, B.Backend.View;
    var deleted := b.Del(Key(Mfa, token), Session(Sessions.VerifyDel(token, user.View())));
    ghost var p := Session(Sessions.VerifySign(token, user.View()));
    out := IssueSession(b, user, p, Session(Sessions.VerifyMintRefresh(token, user.View())));
  }

  method RefreshToken(b: B.Backend, token: string) returns (out: Outcome)
    requires b.Valid()
    modifies b
    ensures b.Valid()
    ensures End(b.View(), out, b.n) == old(b.Rest(Begin(b.cfg, Call.RefreshToken(token))))
  {
    hide Exec, Finish, B.Backend.Rest, B.Backend.View;
    ghost var p := Session(Sessions.RefreshGet(token));
    ghost var goal := b.Rest(p);
    var oldKey := Key(Refresh, token);
    var got := b.Get(oldKey, p);
    if !got.Got? {
      return Failure(if got.Absent? then InvalidRefreshToken else Dependency);
    }
    p := Session(Sessions.RefreshFind(token, got.userId));
    assert b.Rest(p) == goal;
    var found, user := b.FindByID(got.userId, p);
    if user == null {
      return Failure(if found.Absent? then UserNotFound else Dependency);
    }
    p := Session(Sessions.RefreshSign(token, user.View()));
    assert b.Rest(p) == goal;
    var signed := b.Sign(user, p);
    if !signed.Done? {
      return Failure(Dependency);
    }
    p := Session(Sessions.RefreshMint(token, user.View()));
    assert b.Rest(p) == goal;
    out := Rotate(b, user, token);
  }

  /** Stores a new token and deletes the old one: both commands of the pipeline are sent, and both have to
      work. */
  method Rotate(b: B.Backend, user: User, token: string) returns (out: Outcome)
    requires b.Valid()
    modifies b
    ensures b.Valid()
    ensures End(b.View(), out, b.n) == old(b.Rest(Session(Sessions.RefreshMint(token, user.View()))))
  {
    hide Exec, Finish, B.Backend.Rest, B.Backend.View;
    var stored := b.Mint(Refresh, user.id, Session(Sessions.RefreshMint(token, user.View())));
    var newToken := if stored.Minted? then Some(stored.token) else None;
    var deleted := b.Del(Key(Refresh, token), Session(Sessions.RefreshDel(token, user.View(), newToken)));
    if newToken == None || !deleted.Done? {
      return Failure(Dependency);
    }
    out := Success(Tokens(user.View(), newToken.value));
  }

  method Logout(b: B.Backend, token: string) returns (out: Outcome)
    requires b.Valid()
    modifies b
    ensures b.Valid()
    ensures End(b.View(), out, b.n) == old(b.Rest(Begin(b.cfg, Call.Logout(token))))
  {
    var deleted := b.Del(Key(Refresh, token), Session(Sessions.LogoutDel(token)));
    out := if deleted.Done? then Success(Nothing) else Failure(Dependency);
  }

  // ---------- Accounts ----------

  method RegisterUser(b: B.Backend, email: string, password: string) returns (out: Outcome)
    requires b.Valid()
    modifies b
    ensures b.Valid()
    ensures End(b.View(), out, b.n) == old(b.Rest(Begin(b.cfg, Register(email, password))))
  {
    hide Exec, Finish, B.Backend.Rest, B.Backend.View;
    var address := Email.NewEmail(b.cfg.normalise, email);
    if address.Err? {
      return Failure(InvalidEmail);
    }
    var command := RegisterPayload(email, password);
    var found, existingUser := b.FindByEmail(address.value, Account(Accounts.RegisterFind(address.value, command)));
    if !found.Absent? {
      return Failure(if existingUser != null then UserAlreadyExists else Dependency);
    }
    var queued := b.SaveCommand(RegisterCommand, command, Account(Accounts.RegisterQueue(command)));
    out := if queued.Done? then Success(Nothing) else Failure(Dependency);
  }

  method UpdateUserRoles(b: B.Backend, userId: Id, roles: Option<seq<string>>) returns (out: Outcome)
    requires b.Valid()
    modifies b
    ensures b.Valid()
    ensures End(b.View(), out, b.n) == old(b.Rest(Begin(b.cfg, ChangeRoles(userId, roles))))
  {
    hide Exec, Finish, B.Backend.Rest, B.Backend.View;
    var found, user := b.FindByID(userId, Account(Accounts.RolesFind(userId, roles)));
    if user == null {
      return Failure(if found.Absent? then UserNotFound else Dependency);
    }
    var queued := b.SaveCommand(RolesCommand, RolesPayload(userId, roles), Account(Accounts.RolesQueue(userId, roles)));
    out := if queued.Done? then Success(Nothing) else Failure(Dependency);
  }

  method ForgotPassword(b: B.Backend, email: string) returns (out: Outcome)
    requires b.Valid()
    modifies b
    ensures b.Valid()
    ensures End(b.View(), out, b.n) == old(b.Rest(Begin(b.cfg, Call.ForgotPassword(email))))
  {
    hide Exec, Finish, B.Backend.Rest, B.Backend.View;
    var address := Email.NewEmail(b.cfg.normalise, email);
    if address.Err? {
      return Failure(InvalidEmail);
    }
    var found, user := b.FindByEmail(address.value, Account(Accounts.ForgotFind(address.value)));
    if user == null {
      return if found.Absent? then Success(Nothing) else Failure(Dependency);
    }
    var event := ForgotPayload(user.id, user.email);
    var queued := b.SaveCommand(EventType.ForgotPassword, event, Account(Accounts.ForgotQueue(user.View())));
    out := if queued.Done? then Success(Nothing) else Failure(Dependency);
  }

  method ResetPassword(b: B.Backend, token: string, newPassword: string) returns (out: Outcome)
    requires b.Valid()
    modifies b
    ensures b.Valid()
    ensures End(b.View(), out, b.n) == old(b.Rest(Begin(b.cfg, Call.ResetPassword(token, newPassword))))
  {
    hide Exec, Finish, B.Backend.Rest, B.Backend.View;
    ghost var p := Account(Accounts.ResetGet(token, newPassword));
    ghost var goal := b.Rest(p);
    var key := Key(Reset, token);
    var got := b.Get(key, p);
    if !got.Got? {
      return Failure(if got.Absent? then InvalidResetToken else Dependency);
    }
    p := Account(Accounts.ResetFind(token, newPassword, got.userId));
    assert b.Rest(p) == goal;
    var found, user := b.FindByID(got.userId, p);
    if user == null {
      return Failure(if found.Absent? then UserNotFound else Dependency);
    }
    p := Account(Accounts.ResetHash(token, newPassword, user.View()));
    assert b.Rest(p) == goal;
    out := ReplacePassword(b, user, token, newPassword);
  }

  method ReplacePassword(b: B.Backend, user: User, token: string, newPassword: string) returns (out: Outcome)
    requires b.Valid()
    modifies b, user
    ensures b.Valid()
    ensures End(b.View(), out, b.n) == old(b.Rest(Account(Accounts.ResetHash(token, newPassword, user.View()))))
  {
    hide Exec, Finish, B.Backend.Rest, B.Backend.View;
    ghost var p := Account(Accounts.ResetHash(token, newPassword, user.View()));
    ghost var goal := b.Rest(p);
    var hashed := b.Hash(newPassword, p);
    if !hashed.Hashed? || hashed.hash == "" {
      return Failure(Dependency);
    }
    user.UpdatePassword(hashed.hash, b.now);
    p := Account(Accounts.ResetUpdate(token, user.View()));
    assert b.Rest(p) == goal;
    out := WriteBack(b, user, Key(Reset, token), p);
  }

  /** Writes the user back; once that worked, the token is deleted, and whether that works is not looked
      at. */
  method WriteBack(b: B.Backend, user: User, key: Key, ghost p: Proc) returns (out: Outcome)
    requires b.Valid() && user as object != b
    requires p.Account? && NextOp(p) == Update(user.View())
    requires p.a.ResetUpdate? || p.a.ConfirmUpdate?
    requires key == Key(if p.a.ResetUpdate? then Reset else Confirm, p.a.token)
    modifies b
    ensures b.Valid()
    ensures End(b.View(), out, b.n) == old(b.Rest(p))
  {
    hide Exec, Finish, B.Backend.Rest, B.Backend.View;
    var updated := b.Update(user, p);
    if !updated.Done? {
      return Failure(Dependency);
    }
    var deleted := b.Del(key, Resume(b.cfg, p, updated, b.now));
    out := Success(Nothing);
  }

  method ConfirmEmail(b: B.Backend, token: string) returns (out: Outcome)
    requires b.Valid()
    modifies b
    ensures b.Valid()
    ensures End(b.View(), out, b.n) == old(b.Rest(Begin(b.cfg, Call.ConfirmEmail(token))))
  {
    hide Exec, Finish, B.Backend.Rest, B.Backend.View;
    ghost var p := Account(Accounts.ConfirmGet(token));
    ghost var goal := b.Rest(p);
    var key := Key(Confirm, token);
    var got := b.Get(key, p);
    if !got.Got? {
      return Failure(if got.Absent? then InvalidVerificationToken else Dependency);
    }
    p := Account(Accounts.ConfirmFind(token, got.userId));
    assert b.Rest(p) == goal;
    var found, user := b.FindByID(got.userId, p);
    if user == null {
      return Failure(if found.Absent? then UserNotFound else Dependency);
    }
    user.ConfirmEmail(b.now);
    p := Account(Accounts.ConfirmUpdate(token, user.View()));
    assert b.Rest(p) == goal;
    out := WriteBack(b, user, key, p);
  }

  method SetupMFA(b: B.Backend, userId: Id) returns (out: Outcome)
    requires b.Valid()
    modifies b
    ensures b.Valid()
    ensures End(b.View(), out, b.n) == old(b.Rest(Begin(b.cfg, Call.SetupMFA(userId))))
  {
    hide Exec, Finish, B.Backend.Rest, B.Backend.View;
    ghost var p := Account(Accounts.SetupFind(userId));
    ghost var goal := b.Rest(p);
    var found, user := b.FindByID(userId, p);
    if user == null {
      return Failure(if found.Absent? then UserNotFound else Dependency);
    }
    assert b.Rest(Account(Accounts.SetupSecret(user.View()))) == goal;
    out := GiveSecret(b, user);
  }

  /** Draws a secret and saves it with the user, which turns the second factor on. */
  method GiveSecret(b: B.Backend, user: User) returns (out: Outcome)
    requires b.Valid()
    modifies b, user
    ensures b.Valid()
    ensures End(b.View(), out, b.n) == old(b.Rest(Account(Accounts.SetupSecret(user.View()))))
  {
    hide Exec, Finish, B.Backend.Rest, B.Backend.View;
    ghost var p := Account(Accounts.SetupSecret(user.View()));
    ghost var goal := b.Rest(p);
    var secret := b.NewSecret(p);
    if !secret.Minted? {
      return Failure(Dependency);
    }
    user.EnableMFA(secret.token, b.now);
    p := Account(Accounts.SetupUpdate(user.View()));
    assert b.Rest(p) == goal;
    var updated := b.Update(user, p);
    out := if updated.Done? then Success(Secret(secret.token)) else Failure(Dependency);
  }

  /** The cache is filled in the background: the caller gets its answer whatever becomes of that. */
  method GetUserProfile(b: B.Backend, id: Id) returns (out: Outcome)
    requires b.Valid()
    modifies b
    ensures b.Valid()
    ensures End(b.View(), out, b.n) == old(b.Rest(Begin(b.cfg, QueryProfile(id))))
  {
    hide Exec, Finish, B.Backend.Rest, B.Backend.View;
    ghost var p := Account(Accounts.ProfileGet(id));
    ghost var goal := b.Rest(p);
    var cached := b.GetProfile(id, p);
    if cached.Cached? {
      return Success(ProfileBody(cached.profile));
    }
    p := Account(Accounts.ProfileFind(id));
    assert b.Rest(p) == goal;
    var found, user := b.FindInReplica(id, p);
    if user == null {
      return Failure(UserNotFound);
    }
    var profile := Profile(user.id, user.email, b.cfg.formatTime(user.createdAt));
    p := Account(Accounts.ProfileFill(profile));
    assert b.Rest(p) == goal;
    var filled := b.SetProfile(profile, p);
    out := Success(ProfileBody(profile));
  }
}
