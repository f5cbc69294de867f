/** The user aggregate: the values it can take, the entity whose methods change it, and its
    restoration from a stored row. */
module Users {
  import opened Wrappers
  import Email

  type Id = string

  /** Nanoseconds, as in `time.Duration`. */
  type Time = int

  /** The fields of a user, which are also the columns of its row. */
  datatype UserState = UserState(
    id: Id,
    email: string,
    hash: string,
    roles: seq<string>,
    emailVerified: bool,
    mfaEnabled: bool,
    totpSecret: string,
    createdAt: Time,
    updatedAt: Time)
  {
    function AddRole(role: string, now: Time): UserState {
      if role in roles then this else this.(roles := roles + [role], updatedAt := now)
    }

    function AddRoles(more: seq<string>, now: Time): UserState
      decreases |more|
    {
      if more == [] then this else AddRole(more[0], now).AddRoles(more[1..], now)
    }

    function RemoveRole(role: string, now: Time): UserState {
      this.(roles := Without(roles, role), updatedAt := now)
    }

    function UpdatePassword(newHash: string, now: Time): UserState {
      this.(hash := newHash, updatedAt := now)
    }

    function EnableMFA(secret: string, now: Time): UserState {
      this.(mfaEnabled := true, totpSecret := secret, updatedAt := now)
    }

    function DisableMFA(now: Time): UserState {
      this.(mfaEnabled := false, totpSecret := "", updatedAt := now)
    }

    function ConfirmEmail(now: Time): UserState {
      this.(emailVerified := true, updatedAt := now)
    }
  }

  const DEFAULT_ROLES := ["user"]

  function Without(roles: seq<string>, role: string): seq<string> {
    if roles == [] then []
    else Without(roles[..|roles| - 1], role) + (if roles[|roles| - 1] == role then [] else [roles[|roles| - 1]])
  }

  /** Removing a role removes all of it and leaves every other role as often as it was there. */
  lemma {:induction false} WithoutRemovesOnly(roles: seq<string>, role: string)
    ensures multiset(Without(roles, role)) == multiset(roles)[role := 0]
  {
    if roles != [] {
      WithoutRemovesOnly(roles[..|roles| - 1], role);
      assert roles == roles[..|roles| - 1] + [roles[|roles| - 1]];
    }
  }

  lemma WithoutLast(roles: seq<string>, last: string, role: string)
    ensures Without(roles + [last], role) == Without(roles, role) + (if last == role then [] else [last])
  {
    assert (roles + [last])[..|roles|] == roles;
  }

  /** And what it leaves stays in order: removing from two lists in a row is removing from each, and one role stays
      exactly if it is another. */
  lemma {:induction false} WithoutKeepsOrder(roles: seq<string>, more: seq<string>, role: string)
    ensures Without(roles + more, role) == Without(roles, role) + Without(more, role)
    ensures |more| == 1 ==> Without(more, role) == if more[0] == role then [] else more
  {
    hide Without;
    if more == [] {
      assert roles + more == roles;
      assert Without(more, role) == [] by {
        NothingLeft(role);
      }
    } else {
      var init, last := more[..|more| - 1], more[|more| - 1];
      WithoutKeepsOrder(roles, init, role);
      assert more == init + [last] && roles + more == roles + init + [last];
      WithoutLast(roles + init, last, role);
      WithoutLast(init, last, role);
      NothingLeft(role);
    }
  }

  lemma NothingLeft(role: string)
    ensures Without([], role) == []
  {
  }

  /** `NewUser`, for the identifier and the time it drew. */
  function NewUser(id: Id, email: string, hash: string, now: Time): UserState {
    UserState(id, email, hash, DEFAULT_ROLES, false, false, "", now, now)
  }

  datatype Error = BadEmail | EmptyHash

  /** `RestoreUser`: the stored roles are not part of it. */
  function RestoreUser(normalise: Email.Normaliser, row: UserState): Result<UserState, Error> {
    match Email.NewEmail(normalise, row.email)
    case Err(_) => Err(BadEmail)
    case Ok(email) =>
      if row.hash == "" then Err(EmptyHash)
      else Ok(row.(email := email, roles := DEFAULT_ROLES))
  }

  /** What a repository lookup makes of the row it found. */
  function Load(normalise: Email.Normaliser, row: UserState, now: Time): Result<UserState, Error> {
    match RestoreUser(normalise, row)
    case Err(e) => Err(e)
    case Ok(u) => Ok(u.AddRoles(row.roles, now))
  }

  /** A row that restores without error to a user with the same fields. */
  ghost predicate Restorable(row: UserState) {
    && Email.IsEmail(row.email)
    && row.hash != ""
    && (row.mfaEnabled <==> row.totpSecret != "")
  }

  ghost predicate NoDuplicates(roles: seq<string>) {
    forall i, j :: 0 <= i < j < |roles| ==> roles[i] != roles[j]
  }

  /** `roles` lists the distinct values of `all` in the order in which each first occurs. */
  ghost predicate FirstOccurrences(roles: seq<string>, all: seq<string>) {
    && NoDuplicates(roles)
    && (forall r :: r in roles <==> r in all)
    && (forall i, j :: 0 <= i < j < |roles| ==> OccursBefore(all, roles[i], roles[j]))
  }

  ghost predicate OccursBefore(all: seq<string>, a: string, b: string) {
    exists k :: 0 <= k < |all| && all[k] == a && b !in all[..k]
  }

  lemma {:induction false} AddRolesKeepsRest(u: UserState, more: seq<string>, now: Time)
    ensures var v := u.AddRoles(more, now);
            u.(roles := v.roles, updatedAt := v.updatedAt) == v
    decreases |more|
  {
    if more != [] {
      AddRolesKeepsRest(u.AddRole(more[0], now), more[1..], now);
    }
  }

  lemma {:induction false} AddRolesInOrder(u: UserState, seen: seq<string>, more: seq<string>, now: Time)
    requires FirstOccurrences(u.roles, seen)
    ensures FirstOccurrences(u.AddRoles(more, now).roles, seen + more)
    decreases |more|
  {
    if more == [] {
      assert seen + more == seen;
    } else {
      var next := seen + [more[0]];
      AddRoleInOrder(u, seen, more[0], now);
      AddRolesInOrder(u.AddRole(more[0], now), next, more[1..], now);
      assert next + more[1..] == seen + more;
    }
  }

  lemma AddRoleInOrder(u: UserState, seen: seq<string>, role: string, now: Time)
    requires FirstOccurrences(u.roles, seen)
    ensures FirstOccurrences(u.AddRole(role, now).roles, seen + [role])
  {
    var all, v := seen + [role], u.AddRole(role, now);
    assert forall k :: 0 <= k <= |seen| ==> all[..k] == seen[..k];
    forall i, j | 0 <= i < j < |v.roles|
      ensures OccursBefore(all, v.roles[i], v.roles[j])
    {
      if j < |u.roles| {
        assert OccursBefore(seen, u.roles[i], u.roles[j]);
        var k :| 0 <= k < |seen| && seen[k] == u.roles[i] && u.roles[j] !in seen[..k];
        assert all[k] == v.roles[i] && v.roles[j] !in all[..k];
      } else {
        assert v.roles[i] in seen && role !in seen;
        var k :| 0 <= k < |seen| && seen[k] == v.roles[i];
        assert all[k] == v.roles[i] && v.roles[j] !in all[..k];
      }
    }
  }

  /** A loaded user has every column of its row, and exactly the duplicate-free list, in first-occurrence
      order, of "user" followed by the stored roles. */
  lemma LoadedUser(normalise: Email.Normaliser, row: UserState, now: Time)
    requires Email.FixesEmails(normalise) && Restorable(row)
    ensures Load(normalise, row, now).Ok?
    ensures var u := Load(normalise, row, now).value;
            && u == row.(roles := u.roles, updatedAt := u.updatedAt)
            && FirstOccurrences(u.roles, ["user"] + row.roles)
  {
    var u := RestoreUser(normalise, row).value;
    AddRolesKeepsRest(u, row.roles, now);
    assert DEFAULT_ROLES[..0] == [] && DEFAULT_ROLES[0] == "user";
    AddRolesInOrder(u, DEFAULT_ROLES, row.roles, now);
  }

  /** The entity. Each method takes the time that `time.Now()` gave it. */
  class User {
    var id: Id
    var email: string
    var password: string
    var roles: seq<string>
    var emailVerified: bool
    var mfaEnabled: bool
    var totpSecret: string
    var createdAt: Time
    var updatedAt: Time

    function View(): UserState
      reads this
    {
      UserState(id, email, password, roles, emailVerified, mfaEnabled, totpSecret, createdAt, updatedAt)
    }

    constructor (u: UserState)
      ensures View() == u
    {
      id, email, password, roles := u.id, u.email, u.hash, u.roles;
      emailVerified, mfaEnabled, totpSecret := u.emailVerified, u.mfaEnabled, u.totpSecret;
      createdAt, updatedAt := u.createdAt, u.updatedAt;
    }

    method AddRole(role: string, now: Time)
      modifies this
      ensures View() == old(View()).AddRole(role, now)
      ensures View() == if role in old(roles) then old(View())
                        else old(View()).(roles := old(roles) + [role], updatedAt := now)
    {
      for i := 0 to |roles|
        invariant role !in roles[..i]
        invariant View() == old(View())
      {
        if roles[i] == role {
          return;
        }
      }
      roles := roles + [role];
      updatedAt := now;
    }

    method RemoveRole(role: string, now: Time)
      modifies this
      ensures View() == old(View()).RemoveRole(role, now)
      ensures View() == old(View()).(roles := Without(old(roles), role), updatedAt := now)
    {
      var newRoles: seq<string> := [];
      for i := 0 to |roles|
        invariant newRoles == Without(roles[..i], role)
        invariant View() == old(View())
      {
        assert roles[..i + 1][..i] == roles[..i];
        if roles[i] != role {
          newRoles := newRoles + [roles[i]];
        }
      }
      assert roles[..|roles|] == roles;
      roles := newRoles;
      updatedAt := now;
    }

    method UpdatePassword(newPassword: string, now: Time)
      modifies this
      ensures View() == old(View()).UpdatePassword(newPassword, now)
      ensures View() == old(View()).(hash := newPassword, updatedAt := now)
    {
      password, updatedAt := newPassword, now;
    }

    method EnableMFA(secret: string, now: Time)
      modifies this
      ensures View() == old(View()).EnableMFA(secret, now)
      ensures View() == old(View()).(mfaEnabled := true, totpSecret := secret, updatedAt := now)
    {
      mfaEnabled, totpSecret, updatedAt := true, secret, now;
    }

    method DisableMFA(now: Time)
      modifies this
      ensures View() == old(View()).DisableMFA(now)
      ensures View() == old(View()).(mfaEnabled := false, totpSecret := "", updatedAt := now)
    {
      mfaEnabled, totpSecret, updatedAt := false, "", now;
    }

    method ConfirmEmail(now: Time)
      modifies this
      ensures View() == old(View()).ConfirmEmail(now)
      ensures View() == old(View()).(emailVerified := true, updatedAt := now)
    {
      emailVerified, updatedAt := true, now;
    }
  }

  /** What the repository does with a row it has read: restore it, then add each stored role. */
  method Restored(normalise: Email.Normaliser, row: UserState, now: Time) returns (user: User?)
    ensures user == null <==> Load(normalise, row, now).Err?
    ensures user != null ==> fresh(user) && Load(normalise, row, now) == Ok(user.View())
  {
    var restored := RestoreUser(normalise, row);
    if restored.Err? {
      return null;
    }
    var u := new User(restored.value);
    for i := 0 to |row.roles|
      invariant u.View().AddRoles(row.roles[i..], now) == restored.value.AddRoles(row.roles, now)
    {
      assert row.roles[i..][1..] == row.roles[i + 1..];
      u.AddRole(row.roles[i], now);
    }
    user := u;
  }
}
