/**
  Accounts: the user row and its flags, the profile created with it, the string helpers
  built from them, and the user manager's factory methods over the `users` and `profiles`
  tables.
*/
module Account {
  import opened Common
  import opened Text

  /** The stored password: unusable (`set_unusable_password`) or set from a raw password. */
  datatype Password = Unusable | Hashed(raw: string)

  /** A user row; `id` is `None` until the row is first inserted. */
  datatype User = User(
    id: Option<nat>, email: string, active: bool, staff: bool, admin: bool,
    password: Password, verifiedEmail: bool)
  {
    predicate IsActive() { active }

    predicate IsStaff() { staff }

    predicate IsAdmin() { admin }

    /** `get_emailname`: the part of the email before its first `@` (all of it if there is none). */
    function EmailName(): (r: string)
      ensures r <= email && '@' !in r
      ensures |r| < |email| ==> email[|r|] == '@'
    {
      PrefixBefore(email, '@')
    }
  }

  /** For an address `local@domain`, `get_emailname` gives back exactly `local`. */
  lemma EmailNameOfAddress(u: User, local: string, domain: string)
    requires '@' !in local && u.email == local + "@" + domain
    ensures u.EmailName() == local
  {
    PrefixBeforeJoin(local, '@', domain);
  }

  /** A profile row, keyed by its user's id (the one-to-one `user` field). */
  datatype Profile = Profile(
    user: nat, username: string, firstName: string, lastName: string, phone: string,
    accountType: string, approved: bool)
  {
    /** `fullname`: the first name, one space, the last name. */
    function FullName(): (r: string)
      ensures |r| == |firstName| + 1 + |lastName|
      ensures r[..|firstName|] == firstName && r[|firstName|] == ' ' && r[|firstName| + 1..] == lastName
    {
      firstName + " " + lastName
    }

    /** `get_user_name_with_id`: the joined names, a `-`, and the user's id in decimal. */
    function UserNameWithId(): (r: string)
      ensures |r| > |firstName + lastName| + 1
      ensures r[..|firstName + lastName|] == firstName + lastName
      ensures r[|firstName + lastName|] == '-'
      ensures AllDigits(r[|firstName + lastName| + 1..])
      ensures ParseDigits(r[|firstName + lastName| + 1..]) == user
    {
      ParseNatToString(user);
      var digits := NatToString(user);
      assert (firstName + lastName + "-" + digits)[|firstName + lastName| + 1..] == digits;
      firstName + lastName + "-" + digits
    }
  }

  /**
    The full name splits back at the space: the first name is what precedes the first space
    when the first name has none, the last name what follows the last space when it has none.
  */
  lemma FullNameParts(p: Profile)
    ensures ' ' !in p.firstName ==> PrefixBefore(p.FullName(), ' ') == p.firstName
    ensures ' ' !in p.lastName ==> AfterLast(p.FullName(), ' ') == p.lastName
    ensures |p.FullName()| == |p.firstName| + |p.lastName| + 1
  {
    if ' ' !in p.firstName {
      PrefixBeforeJoin(p.firstName, ' ', p.lastName);
    }
    if ' ' !in p.lastName {
      AfterLastJoin(p.firstName, ' ', p.lastName);
    }
  }

  /**
    The id is recoverable from `get_user_name_with_id`: it is the decimal number after the
    last `-`; the name before the first `-` is the concatenated names when they hold no `-`.
  */
  lemma UserNameWithIdParts(p: Profile)
    ensures AllDigits(AfterLast(p.UserNameWithId(), '-'))
    ensures ParseDigits(AfterLast(p.UserNameWithId(), '-')) == p.user
    ensures '-' !in p.firstName + p.lastName ==>
              PrefixBefore(p.UserNameWithId(), '-') == p.firstName + p.lastName
  {
    var digits := NatToString(p.user);
    assert '-' !in digits by {
      assert forall i :: 0 <= i < |digits| ==> IsDigit(digits[i]);
    }
    AfterLastJoin(p.firstName + p.lastName, '-', digits);
    ParseNatToString(p.user);
    if '-' !in p.firstName + p.lastName {
      PrefixBeforeJoin(p.firstName + p.lastName, '-', digits);
    }
  }

  /** Writing a key twice leaves the second value. */
  lemma UpdateTwice<K, V>(m: map<K, V>, k: K, a: V, b: V)
    ensures m[k := a][k := b] == m[k := b]
  {
  }

  /** Deleting a key just written removes the write too. */
  lemma RemoveUpdated<K, V>(m: map<K, V>, k: K, v: V)
    ensures m[k := v] - {k} == m - {k}
  {
  }

  /** What the manager's operations raise. */
  datatype AccountError =
    | MissingEmail            // "User must provide an email"
    | MissingPassword         // "User must provide a password"
    | DuplicateEmail          // the unique constraint on `User.email`
    | ProfileCreationFailed   // `Profile.objects.create` raised; the user was deleted again

  /** The profile `User.save` creates for a new user: only the user and the username are set. */
  function NewProfile(id: nat, username: string): (p: Profile)
    ensures p.user == id && p.username == username
    ensures p.firstName == "" && p.lastName == "" && p.phone == "" && !p.approved
  {
    Profile(id, username, "", "", "", "", false)
  }

  /**
    The integrity of the account tables: rows sit under their own id below the next
    auto-increment value, profiles belong to stored users, emails and usernames are unique.
  */
  ghost predicate Tables(users: map<nat, User>, profiles: map<nat, Profile>, nextId: nat) {
    && nextId >= 1
    && (forall id :: id in users ==> id < nextId && users[id].id == Some(id))
    && (forall id :: id in profiles ==> id in users && profiles[id].user == id)
    && (forall a, b :: a in users && b in users && users[a].email == users[b].email ==> a == b)
    && (forall a, b :: a in profiles && b in profiles && profiles[a].username == profiles[b].username ==> a == b)
  }

  /** Writing a user whose email no other stored user has keeps the tables consistent. */
  lemma PutUserKeepsTables(users: map<nat, User>, profiles: map<nat, Profile>, nextId: nat,
                           id: nat, u: User, nextId': nat)
    requires Tables(users, profiles, nextId)
    requires u.id == Some(id) && id < nextId' && nextId <= nextId'
    requires forall k :: k in users && k != id ==> users[k].email != u.email
    ensures Tables(users[id := u], profiles, nextId')
  {
  }

  /** Adding the profile of a stored user, under a username nobody else has, keeps them consistent. */
  lemma PutProfileKeepsTables(users: map<nat, User>, profiles: map<nat, Profile>, nextId: nat,
                              id: nat, p: Profile)
    requires Tables(users, profiles, nextId)
    requires id in users && p.user == id
    requires forall k :: k in profiles && k != id ==> profiles[k].username != p.username
    ensures Tables(users, profiles[id := p], nextId)
  {
  }

  /** Deleting a user together with its profile keeps them consistent. */
  lemma DeleteKeepsTables(users: map<nat, User>, profiles: map<nat, Profile>, nextId: nat, id: nat)
    requires Tables(users, profiles, nextId)
    ensures Tables(users - {id}, profiles - {id}, nextId)
  {
  }

  /**
    The `users` and `profiles` tables with the manager's operations. `normalizeEmail` stands
    for `BaseUserManager.normalize_email` and `nameFromEmail` for `get_name_from_email`.
    `nextId` is the next value of the user table's auto-increment key.
  */
  class UserManager {
    var users: map<nat, User>
    var profiles: map<nat, Profile>
    var nextId: nat
    const normalizeEmail: string -> string
    const nameFromEmail: string -> string

    /** The tables' integrity. */
    ghost predicate Valid()
      reads this
    {
      Tables(users, profiles, nextId)
    }

    constructor (normalizeEmail: string -> string, nameFromEmail: string -> string)
      ensures Valid()
      ensures users == map[] && profiles == map[] && nextId == 1
      ensures this.normalizeEmail == normalizeEmail && this.nameFromEmail == nameFromEmail
    {
      users, profiles, nextId := map[], map[], 1;
      this.normalizeEmail, this.nameFromEmail := normalizeEmail, nameFromEmail;
    }

    /** A stored user other than the one with id `self` has this email. */
    predicate EmailTaken(email: string, self: Option<nat>)
      reads this
    {
      exists id | id in users :: users[id].email == email && Some(id) != self
    }

    /** Some stored profile has this username. */
    predicate UsernameTaken(username: string)
      reads this
    {
      exists id | id in profiles :: profiles[id].username == username
    }

    /** The username `User.save` gives the profile of `u`. */
    function UsernameFor(u: User): string
    {
      nameFromEmail(u.EmailName())
    }

    /** Why saving the not-yet-stored user `u` would raise now, if it would. */
    function NewUserError(u: User): (e: Option<AccountError>)
      reads this
      ensures e.Some? ==> e.value == DuplicateEmail || e.value == ProfileCreationFailed
    {
      if EmailTaken(u.email, None) then Some(DuplicateEmail)
      else if UsernameTaken(UsernameFor(u)) then Some(ProfileCreationFailed)
      else None
    }

    /** The key `u` is stored under: a fresh one when it has none. */
    function RowId(u: User): nat
      reads this
    {
      if u.id.None? then nextId else u.id.value
    }

    /** The auto-increment value after storing `u`: it moves past every key used. */
    function NextIdAfter(u: User): nat
      reads this
    {
      if u.id.None? then nextId + 1 else if u.id.value >= nextId then u.id.value + 1 else nextId
    }

    /**
      The model's own `save` (`super().save()`): the row is inserted under a fresh id when `u`
      has none, and otherwise written under its id; another user with the same email makes it
      raise with nothing written.
    */
    method WriteRow(u: User) returns (r: Result<User, AccountError>)
      requires Valid()
      modifies this
      ensures Valid() && profiles == old(profiles)
      ensures old(EmailTaken(u.email, u.id)) ==> r == Err(DuplicateEmail) && unchanged(this)
      ensures !old(EmailTaken(u.email, u.id)) ==>
                && r == Ok(u.(id := Some(old(RowId(u)))))
                && users == old(users)[old(RowId(u)) := r.value]
                && nextId == old(NextIdAfter(u))
    {
      if EmailTaken(u.email, u.id) {
        return Err(DuplicateEmail);
      }
      var id := RowId(u);
      var saved := u.(id := Some(id));
      PutUserKeepsTables(users, profiles, nextId, id, saved, NextIdAfter(u));
      users, nextId := users[id := saved], NextIdAfter(u);
      r := Ok(saved);
    }

    /**
      `User.save`. The user counts as created when `not self.id` holds, that is when its id is
      absent or 0. After the row is written, a profile is created for a created user; when that
      raises (the user already has a profile, or the username is taken) the user (and, by
      cascade, any profile of it) is deleted and the error re-raised.
    */
    method Save(u: User) returns (r: Result<User, AccountError>)
      requires Valid()
      modifies this
      ensures Valid()
      ensures old(EmailTaken(u.email, u.id)) ==> r == Err(DuplicateEmail) && unchanged(this)
      ensures !old(EmailTaken(u.email, u.id)) ==>
                var id := old(RowId(u));
                var created := u.id.None? || u.id == Some(0);
                var profileFails := created && (id in old(profiles) || old(UsernameTaken(UsernameFor(u))));
                && nextId == old(NextIdAfter(u))
                && (profileFails ==>
                      r == Err(ProfileCreationFailed)
                      && users == old(users) - {id} && profiles == old(profiles) - {id})
                && (!profileFails ==>
                      && r == Ok(u.(id := Some(id)))
                      && users == old(users)[id := r.value]
                      && profiles == (if created then old(profiles)[id := NewProfile(id, UsernameFor(u))]
                                      else old(profiles)))
    {
      var created := u.id.None? || u.id.value == 0;
      ghost var users0, profiles0 := users, profiles;
      r := WriteRow(u);
      if r.Err? {
        return;
      }
      var saved := r.value;
      var id := saved.id.value;
      assert users == users0[id := saved] && profiles == profiles0;
      if created {
        var username := nameFromEmail(saved.EmailName());
        var ok := CreateProfile(id, username);
        if !ok {
          RemoveUpdated(users0, id, saved);
          return Err(ProfileCreationFailed);
        }
      }
    }

    /**
      The profile step of `User.save` for a created user: `Profile.objects.create` succeeds
      unless the user already has a profile or the username is taken, and on that failure the
      user is deleted (with any profile of it, by cascade).
    */
    method CreateProfile(id: nat, username: string) returns (ok: bool)
      requires Valid() && id in users
      modifies this
      ensures Valid() && nextId == old(nextId)
      ensures ok <==> id !in old(profiles) && !old(UsernameTaken(username))
      ensures ok ==> users == old(users) && profiles == old(profiles)[id := NewProfile(id, username)]
      ensures !ok ==> users == old(users) - {id} && profiles == old(profiles) - {id}
    {
      if id in profiles || UsernameTaken(username) {
        // self.delete(); raise e
        DeleteKeepsTables(users, profiles, nextId, id);
        users, profiles := users - {id}, profiles - {id};
        return false;
      }
      PutProfileKeepsTables(users, profiles, nextId, id, NewProfile(id, username));
      profiles := profiles[id := NewProfile(id, username)];
      ok := true;
    }

    /** The user `create_base_user` builds before saving it. */
    function BaseUser(email: string, isActive: bool, isStaff: bool, isAdmin: bool): (u: User)
      ensures u.id.None? && u.email == normalizeEmail(email) && u.password == Unusable
      ensures u.IsActive() == isActive && u.IsStaff() == isStaff && u.IsAdmin() == isAdmin
      ensures !u.verifiedEmail
    {
      User(None, normalizeEmail(email), isActive, isStaff, isAdmin, Unusable, false)
    }

    /**
      `create_base_user`: refuses a missing or empty email before anything is stored; otherwise
      saves a new user with the given flags, the normalized email and an unusable password.
    */
    method CreateBaseUser(email: Option<string>, isActive: bool, isStaff: bool, isAdmin: bool)
      returns (r: Result<User, AccountError>)
      requires Valid()
      modifies this
      ensures Valid()
      ensures email.None? || email == Some("") ==> r == Err(MissingEmail) && unchanged(this)
      ensures email.Some? && email.value != "" ==>
                var u := BaseUser(email.value, isActive, isStaff, isAdmin);
                var id := old(nextId);
                && (old(NewUserError(u)) == Some(DuplicateEmail) ==> r == Err(DuplicateEmail) && unchanged(this))
                && (old(NewUserError(u)) == Some(ProfileCreationFailed) ==>
                      r == Err(ProfileCreationFailed)
                      && users == old(users) && profiles == old(profiles) && nextId == id + 1)
                && (old(NewUserError(u)).None? ==>
                      && r == Ok(u.(id := Some(id)))
                      && users == old(users)[id := r.value]
                      && profiles == old(profiles)[id := NewProfile(id, UsernameFor(u))]
                      && nextId == id + 1)
      ensures r.Ok? ==>
                && r.value.IsActive() == isActive && r.value.IsStaff() == isStaff
                && r.value.IsAdmin() == isAdmin && r.value.password == Unusable
    {
      if email.None? || email.value == "" {
        return Err(MissingEmail);
      }
      var u := BaseUser(email.value, isActive, isStaff, isAdmin);
      r := Save(u);
    }

    /**
      `set_password` followed by `save` on a user that `create_base_user` stored: only its
      password changes, and no profile is created since its id is a non-zero one.
    */
    method SetPassword(u: User, raw: string) returns (r: Result<User, AccountError>)
      requires Valid()
      requires u.id.Some? && u.id.value != 0 && u.id.value in users && users[u.id.value] == u
      modifies this
      ensures Valid()
      ensures r == Ok(u.(password := Hashed(raw)))
      ensures users == old(users)[u.id.value := r.value]
      ensures profiles == old(profiles) && nextId == old(nextId)
    {
      var id := u.id.value;
      assert !EmailTaken(u.email, Some(id));
      r := Save(u.(password := Hashed(raw)));
    }

    /**
      `create_user`: creates the base user, and only then refuses a missing or empty password,
      so that refusal leaves the new user (with its unusable password and its profile) stored;
      otherwise the password is set and the user saved again.
    */
    method CreateUser(email: Option<string>, password: Option<string>,
                      isActive: bool, isStaff: bool, isAdmin: bool)
      returns (r: Result<User, AccountError>)
      requires Valid()
      modifies this
      ensures Valid()
      ensures email.None? || email == Some("") ==> r == Err(MissingEmail) && unchanged(this)
      ensures email.Some? && email.value != "" ==>
                var u := BaseUser(email.value, isActive, isStaff, isAdmin);
                var id := old(nextId);
                var noPassword := password.None? || password == Some("");
                var stored := if noPassword then u.(id := Some(id))
                              else u.(id := Some(id), password := Hashed(password.value));
                && (old(NewUserError(u)) == Some(DuplicateEmail) ==> r == Err(DuplicateEmail) && unchanged(this))
                && (old(NewUserError(u)) == Some(ProfileCreationFailed) ==>
                      r == Err(ProfileCreationFailed)
                      && users == old(users) && profiles == old(profiles) && nextId == id + 1)
                && (old(NewUserError(u)).None? ==>
                      && r == (if noPassword then Err(MissingPassword) else Ok(stored))
                      && users == old(users)[id := stored]
                      && profiles == old(profiles)[id := NewProfile(id, UsernameFor(u))]
                      && nextId == id + 1)
      ensures r.Ok? ==>
                && r.value.IsActive() == isActive && r.value.IsStaff() == isStaff
                && r.value.IsAdmin() == isAdmin && password.Some?
                && r.value.password == Hashed(password.value)
    {
      ghost var users0 := users;
      r := CreateBaseUser(email, isActive, isStaff, isAdmin);
      if r.Err? {
        return;
      }
      if password.None? || password.value == "" {
        return Err(MissingPassword);
      }
      var base := r.value;
      r := SetPassword(base, password.value);
      UpdateTwice(users0, base.id.value, base, r.value);
    }

    /** `create_staff`: an active staff user who is not an admin. */
    method CreateStaff(email: Option<string>, password: Option<string>)
      returns (r: Result<User, AccountError>)
      requires Valid()
      modifies this
      ensures Valid()
      ensures email.None? || email == Some("") ==> r == Err(MissingEmail) && unchanged(this)
      ensures email.Some? && email.value != "" ==>
                var u := BaseUser(email.value, true, true, false);
                var id := old(nextId);
                var noPassword := password.None? || password == Some("");
                var stored := if noPassword then u.(id := Some(id))
                              else u.(id := Some(id), password := Hashed(password.value));
                && (old(NewUserError(u)) == Some(DuplicateEmail) ==> r == Err(DuplicateEmail) && unchanged(this))
                && (old(NewUserError(u)) == Some(ProfileCreationFailed) ==>
                      r == Err(ProfileCreationFailed)
                      && users == old(users) && profiles == old(profiles) && nextId == id + 1)
                && (old(NewUserError(u)).None? ==>
                      && stored.IsActive() && stored.IsStaff() && !stored.IsAdmin()
                      && r == (if noPassword then Err(MissingPassword) else Ok(stored))
                      && users == old(users)[id := stored]
                      && profiles == old(profiles)[id := NewProfile(id, UsernameFor(u))]
                      && nextId == id + 1)
      ensures r.Ok? ==>
                && r.value.IsActive() && r.value.IsStaff() && !r.value.IsAdmin()
                && password.Some? && r.value.password == Hashed(password.value)
    {
      r := CreateUser(email, password, true, true, false);
    }

    /** `create_superuser`: an active user who is both staff and admin. */
    method CreateSuperuser(email: Option<string>, password: Option<string>)
      returns (r: Result<User, AccountError>)
      requires Valid()
      modifies this
      ensures Valid()
      ensures email.None? || email == Some("") ==> r == Err(MissingEmail) && unchanged(this)
      ensures email.Some? && email.value != "" ==>
                var u := BaseUser(email.value, true, true, true);
                var id := old(nextId);
                var noPassword := password.None? || password == Some("");
                var stored := if noPassword then u.(id := Some(id))
                              else u.(id := Some(id), password := Hashed(password.value));
                && (old(NewUserError(u)) == Some(DuplicateEmail) ==> r == Err(DuplicateEmail) && unchanged(this))
                && (old(NewUserError(u)) == Some(ProfileCreationFailed) ==>
                      r == Err(ProfileCreationFailed)
                      && users == old(users) && profiles == old(profiles) && nextId == id + 1)
                && (old(NewUserError(u)).None? ==>
                      && stored.IsActive() && stored.IsStaff() && stored.IsAdmin()
                      && r == (if noPassword then Err(MissingPassword) else Ok(stored))
                      && users == old(users)[id := stored]
                      && profiles == old(profiles)[id := NewProfile(id, UsernameFor(u))]
                      && nextId == id + 1)
      ensures r.Ok? ==>
                && r.value.IsActive() && r.value.IsStaff() && r.value.IsAdmin()
                && password.Some? && r.value.password == Hashed(password.value)
    {
      r := CreateUser(email, password, true, true, true);
    }
  }
}
