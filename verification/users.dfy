/**
 * The backend's user record and its builder (backend/app/models/user.py).
 * The password hashing pair is a parameter: a hash function of the
 * password and a salt (the salt stands for the randomness the real hash
 * draws) and a check of a password against a stored hash.
 */
module Users {
  import opened Wrappers

  /** `generate_password_hash` and `check_password_hash`. */
  datatype Hasher = Hasher(hash: (string, string) -> string, check: (string, string) -> bool)

  /** What the backend relies on: a hash is never empty and checks against its own password. */
  ghost predicate Sound(h: Hasher) {
    forall pw, salt :: h.hash(pw, salt) != "" && h.check(h.hash(pw, salt), pw)
  }

  /** Python truthiness of an optional string: present and non-empty. */
  predicate Truthy(s: Option<string>) {
    s.Some? && s.value != ""
  }

  /** `bool(address and passport)`: both are present and non-empty. */
  function Verified(address: Option<string>, passport: Option<string>): (b: bool)
    ensures b <==> Truthy(address) && Truthy(passport)
  {
    if !Truthy(address) then false else Truthy(passport)
  }

  /** `check_password` on a stored hash: no (or an empty) hash never matches. */
  function CheckAgainst(h: Hasher, passwordHash: Option<string>, password: string): (b: bool)
    ensures !Truthy(passwordHash) ==> !b
    ensures Truthy(passwordHash) ==> b == h.check(passwordHash.value, password)
  {
    if Truthy(passwordHash) then h.check(passwordHash.value, password) else false
  }

  /** A password checks against the hash made of it, whatever the salt. */
  lemma HashedPasswordChecks(h: Hasher, password: string, salt: string)
    requires Sound(h)
    ensures CheckAgainst(h, Some(h.hash(password, salt)), password)
  {
  }

  const NAMES_REQUIRED := "Имя и фамилия обязательны для создания пользователя"
  const EMAIL_REQUIRED := "Email обязателен для регистрации"
  const PASSWORD_REQUIRED := "Пароль обязателен для регистрации"

  /**
   * The checks `build` makes, in order: both names truthy, then an email
   * and a password present (an empty one passes, as only `None` is
   * refused). The message of the first failing check, if any.
   */
  function BuildError(firstName: Option<string>, lastName: Option<string>, email: Option<string>, password: Option<string>): (e: Option<string>)
    ensures e.None? <==> Truthy(firstName) && Truthy(lastName) && email.Some? && password.Some?
    ensures !Truthy(firstName) || !Truthy(lastName) ==> e == Some(NAMES_REQUIRED)
    ensures Truthy(firstName) && Truthy(lastName) && email.None? ==> e == Some(EMAIL_REQUIRED)
    ensures Truthy(firstName) && Truthy(lastName) && email.Some? && password.None? ==> e == Some(PASSWORD_REQUIRED)
  {
    if !Truthy(firstName) || !Truthy(lastName) then Some(NAMES_REQUIRED)
    else if email.None? then Some(EMAIL_REQUIRED)
    else if password.None? then Some(PASSWORD_REQUIRED)
    else None
  }

  /** An empty email or password is accepted: only a missing one is refused. */
  lemma EmptyCredentialsPass()
    ensures BuildError(Some("A"), Some("B"), Some(""), Some("")).None?
  {
  }

  /** `User`. */
  class User {
    var firstName: string
    var lastName: string
    var address: Option<string>
    var passport: Option<string>
    var isVerified: bool
    var email: Option<string>
    var passwordHash: Option<string>
    var id: Option<int>

    /** `User.__init__`: the fields as given, verified when address and passport are both truthy, no id. */
    constructor (firstName: string, lastName: string, address: Option<string>, passport: Option<string>,
                 email: Option<string>, passwordHash: Option<string>)
      ensures this.firstName == firstName && this.lastName == lastName
      ensures this.address == address && this.passport == passport
      ensures this.email == email && this.passwordHash == passwordHash
      ensures isVerified <==> Truthy(address) && Truthy(passport)
      ensures id.None?
    {
      this.firstName := firstName;
      this.lastName := lastName;
      this.address := address;
      this.passport := passport;
      this.isVerified := Verified(address, passport);
      this.email := email;
      this.passwordHash := passwordHash;
      this.id := None;
    }

    /** `check_password` */
    function CheckPassword(h: Hasher, password: string): (b: bool)
      reads this
      ensures b == CheckAgainst(h, passwordHash, password)
    {
      CheckAgainst(h, passwordHash, password)
    }
  }

  /** `UserBuilder`: the fields collected so far. */
  class UserBuilder {
    var firstName: Option<string>
    var lastName: Option<string>
    var address: Option<string>
    var passport: Option<string>
    var email: Option<string>
    var password: Option<string>

    /** A new builder has nothing set. */
    constructor ()
      ensures firstName.None? && lastName.None? && address.None?
      ensures passport.None? && email.None? && password.None?
    {
      firstName := None;
      lastName := None;
      address := None;
      passport := None;
      email := None;
      password := None;
    }

    method SetFirstName(v: string)
      modifies this`firstName
      ensures firstName == Some(v)
    {
      firstName := Some(v);
    }

    method SetLastName(v: string)
      modifies this`lastName
      ensures lastName == Some(v)
    {
      lastName := Some(v);
    }

    method SetAddress(v: string)
      modifies this`address
      ensures address == Some(v)
    {
      address := Some(v);
    }

    method SetPassport(v: string)
      modifies this`passport
      ensures passport == Some(v)
    {
      passport := Some(v);
    }

    method SetEmail(v: string)
      modifies this`email
      ensures email == Some(v)
    {
      email := Some(v);
    }

    method SetPassword(v: string)
      modifies this`password
      ensures password == Some(v)
    {
      password := Some(v);
    }

    /**
     * `build`: the first failing check's error, or a new user with the
     * builder's fields and the hash of the password, which then checks
     * against that password.
     */
    method Build(h: Hasher, salt: string) returns (r: Result<User, string>)
      ensures r.Err? <==> BuildError(firstName, lastName, email, password).Some?
      ensures r.Err? ==> r.error == BuildError(firstName, lastName, email, password).value
      ensures r.Ok? ==> fresh(r.value)
      ensures r.Ok? ==> r.value.firstName == firstName.value && r.value.lastName == lastName.value
      ensures r.Ok? ==> r.value.address == address && r.value.passport == passport && r.value.email == email
      ensures r.Ok? ==> r.value.passwordHash == Some(h.hash(password.value, salt))
      ensures r.Ok? ==> (r.value.isVerified <==> Truthy(address) && Truthy(passport))
      ensures r.Ok? && Sound(h) ==> r.value.CheckPassword(h, password.value)
    {
      var err := BuildError(firstName, lastName, email, password);
      if err.Some? {
        return Err(err.value);
      }
      var passwordHash := h.hash(password.value, salt);
      var user := new User(firstName.value, lastName.value, address, passport, email, Some(passwordHash));
      return Ok(user);
    }
  }

  /**
   * The builder use `test_create_valid_user` makes: names, address and
   * passport but neither email nor password. The code refuses it for the
   * missing email, where that test expects a verified user.
   */
  method TestCreateValidUser(h: Hasher, salt: string) returns (r: Result<User, string>)
    ensures r == Err(EMAIL_REQUIRED)
  {
    var b := new UserBuilder();
    b.SetFirstName("Test");
    b.SetLastName("User");
    b.SetAddress("Test Address");
    b.SetPassport("TestPassport");
    r := b.Build(h, salt);
  }

  /** A builder missing either name is refused for the names, whatever else is set. */
  method TestMissingName(h: Hasher, salt: string, setFirst: bool) returns (r: Result<User, string>)
    ensures r == Err(NAMES_REQUIRED)
  {
    var b := new UserBuilder();
    if setFirst {
      b.SetFirstName("Test");
    } else {
      b.SetLastName("User");
    }
    r := b.Build(h, salt);
  }
}
