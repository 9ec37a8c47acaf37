/** The account serializers (apps/authentication/serializers.py):
    registration checks and creation, the login decision, and the
    `is_online` field. Password hashing and `check_password` are parameters. */
module AuthSerializers {
  import opened Common
  import opened Database
  import opened Presence

  const PASSWORDS_DO_NOT_MATCH: string := "Passwords do not match."
  const INVALID_CREDENTIALS: string := "Invalid credentials."
  const ACCOUNT_DISABLED: string := "Account is disabled."

  /** The message of the unique validator DRF derives from the `username`
      field's `unique=True` and the model's verbose name `User`. */
  const USERNAME_TAKEN: string := "User with this username already exists."

  /** The registration attributes after field parsing. */
  datatype Registration = Registration(username: string, password: string, passwordConfirm: string)

  /** A validation error keyed by field, as DRF reports it. */
  datatype FieldError = FieldError(field: string, message: string)

  /** No two rows share a username, as the `unique=True` column demands. */
  predicate UniqueUsernames(users: seq<User>) {
    forall i, j :: 0 <= i < j < |users| ==> users[i].username != users[j].username
  }

  /** `UserRegistrationSerializer.is_valid` against the table `users`: the
      field validators run first, so a taken username is reported and
      `validate` never runs; otherwise `validate` compares the passwords. */
  function ValidateRegistration(users: seq<User>, attrs: Registration): (r: Result<Registration, FieldError>)
    ensures r.Ok? <==> FindUserByName(users, attrs.username).None? && attrs.password == attrs.passwordConfirm
    ensures r.Ok? ==> r.value == attrs && forall i :: 0 <= i < |users| ==> users[i].username != attrs.username
    ensures r.Err? && FindUserByName(users, attrs.username).Some? ==> r.error == FieldError("username", USERNAME_TAKEN)
    ensures r.Err? && FindUserByName(users, attrs.username).None? ==>
      r.error == FieldError("password_confirm", PASSWORDS_DO_NOT_MATCH)
  {
    if FindUserByName(users, attrs.username).Some? then Err(FieldError("username", USERNAME_TAKEN))
    else if attrs.password != attrs.passwordConfirm then Err(FieldError("password_confirm", PASSWORDS_DO_NOT_MATCH))
    else Ok(attrs)
  }

  /** The row `create` saves: the username, the hash of the password, an
      active account that has never been seen; `id` is the generated key and
      `now` the `created_at` stamp. */
  function NewUserRow(attrs: Registration, id: UserId, hash: string -> string, now: int): User {
    User(id, attrs.username, hash(attrs.password), true, None, now)
  }

  /** `UserRegistrationSerializer.create`: both password fields are popped
      and only the password's hash reaches the table. The insert is refused
      (`IntegrityError`, `None` here) when the username is already taken. */
  method RegisterUser(store: ChatStore, attrs: Registration, id: UserId, hash: string -> string, now: int)
    returns (r: Option<User>)
    modifies store
    ensures r.Some? <==> FindUserByName(old(store.users), attrs.username).None?
    ensures r.Some? ==> r.value == NewUserRow(attrs, id, hash, now) &&
                        store.Snapshot() == old(store.Snapshot()).(users := old(store.users) + [r.value])
    ensures r.None? ==> store.Snapshot() == old(store.Snapshot())
  {
    if FindUserByName(store.users, attrs.username).Some? {
      return None;
    }
    var u := User(id, attrs.username, "", true, None, now);
    u := u.(passwordHash := hash(attrs.password));
    store.AddUser(u);
    r := Some(u);
  }

  /** A successful registration keeps the usernames unique, and the new
      account is then the one a login by that username finds. */
  lemma RegistrationKeepsUsernamesUnique(users: seq<User>, attrs: Registration, id: UserId,
                                         hash: string -> string, now: int)
    requires UniqueUsernames(users)
    requires ValidateRegistration(users, attrs).Ok?
    ensures UniqueUsernames(users + [NewUserRow(attrs, id, hash, now)])
    ensures FindUserByName(users + [NewUserRow(attrs, id, hash, now)], attrs.username) ==
      Some(NewUserRow(attrs, id, hash, now))
  {
    var u := NewUserRow(attrs, id, hash, now);
    FindByAppend(users, UsernameOf, u, attrs.username);
  }

  /** The saved row depends on the password only through its hash, and not
      on the confirmation at all. */
  lemma StoredRowKeepsOnlyTheHash(a1: Registration, a2: Registration, id: UserId, hash: string -> string, now: int)
    requires a1.username == a2.username && hash(a1.password) == hash(a2.password)
    ensures NewUserRow(a1, id, hash, now) == NewUserRow(a2, id, hash, now)
    ensures NewUserRow(a1, id, hash, now).passwordHash == hash(a1.password)
    ensures NewUserRow(a1, id, hash, now).username == a1.username && NewUserRow(a1, id, hash, now).isActive
  {
  }

  /** `UserLoginSerializer.validate`; `checkPassword(hash, raw)` is
      `user.check_password(raw)`. Success adds the user to the attributes. */
  function ValidateLogin(users: seq<User>, username: string, password: string,
                         checkPassword: (string, string) -> bool): (r: Result<User, string>)
    ensures r.Ok? ==> r.value in users && r.value.username == username
  {
    match FindUserByName(users, username)
    case None => Err(INVALID_CREDENTIALS)
    case Some(u) =>
      if !checkPassword(u.passwordHash, password) then Err(INVALID_CREDENTIALS)
      else if !u.isActive then Err(ACCOUNT_DISABLED)
      else Ok(u)
  }

  /** An unknown username and a wrong password give the same error; only a
      user whose password checks out learns that the account is disabled;
      success means the password checked out for an active account. */
  lemma LoginDecisionOrder(users: seq<User>, username: string, password: string,
                           checkPassword: (string, string) -> bool)
    ensures var r := ValidateLogin(users, username, password, checkPassword);
      var found := FindUserByName(users, username);
      && (r == Err(INVALID_CREDENTIALS) <==>
           found.None? || !checkPassword(found.value.passwordHash, password))
      && (r == Err(ACCOUNT_DISABLED) <==>
           found.Some? && checkPassword(found.value.passwordHash, password) && !found.value.isActive)
      && (r.Ok? <==>
           found.Some? && checkPassword(found.value.passwordHash, password) && found.value.isActive)
      && (r.Ok? ==> r.value == found.value)
  {
  }

  /** `UserSerializer.get_is_online`: the cached value is not `None`. */
  predicate IsOnlineField(entries: Entries, u: User, now: int) {
    OnlineIn(entries, u.id, now)
  }

  /** The `is_online` field is looser than the bulk lookup's `is True`
      test: whenever the bulk lookup says online, so does the field, but a
      cached `False` (or any other non-`None` value) reads as online here
      and as offline there. */
  lemma IsOnlineFieldIsLooser(entries: Entries, u: User, now: int)
    ensures StrictlyOnlineIn(entries, u.id, now) ==> IsOnlineField(entries, u, now)
    ensures var cached := map[PresenceKey(u.id) := Entry(Flag(false), now + 1)];
      IsOnlineField(cached, u, now) && !StrictlyOnlineIn(cached, u.id, now)
  {
    StrictImpliesOnline(entries, u.id, now);
  }
}
