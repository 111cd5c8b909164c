/** The login use case (`controller.ControllerLogin`): two input checks, then a lookup by the
    trimmed e-mail and a comparison of the typed password's hash with the stored one. The
    repository is a table of answers and `EncryptionService.hashPassword` a deterministic
    function `hash`, whose `Err(m)` is the exception it throws with message `m`. */
module ControllerLogin {
  import opened Common
  import opened JavaString
  import opened Entities

  const EMAIL_REQUIRED := "E-mail é obrigatório."
  const PASSWORD_REQUIRED := "Senha é obrigatória."
  const BAD_CREDENTIALS := "E-mail ou senha inválidos."
  const DB_FAILED := "Erro ao acessar o banco durante o login."
  const UNEXPECTED := "Erro inesperado ao realizar login: "

  /** The two checks `login` makes before its `try`, in order. */
  function LoginCheck(email: Option<string>, password: Option<seq<char>>): (r: Option<Failure>)
    ensures r.None? <==> !NullOrEmptyTrimmed(email) && password.Some? && |password.value| > 0
    ensures NullOrEmptyTrimmed(email) ==> r == Some(Validation(EMAIL_REQUIRED))
    ensures !NullOrEmptyTrimmed(email) && (password.None? || |password.value| == 0) ==> r == Some(Validation(PASSWORD_REQUIRED))
  {
    if NullOrEmptyTrimmed(email) then Some(Validation(EMAIL_REQUIRED))
    else if password.None? || |password.value| == 0 then Some(Validation(PASSWORD_REQUIRED))
    else None
  }

  /** The body of the `try` with its handlers as the method's documentation describes them:
      bad credentials throw `AuthenticationException`, a database error becomes a
      `DataAccessException`, and so does a failure of the hash. */
  function Authenticate(em: string, pw: seq<char>, users: map<string, Lookup<User>>,
                        hash: seq<char> -> Result<string, string>): (r: Result<User, Failure>)
    ensures r.Ok? <==> Fetch(users, em).Found? && hash(pw).Ok? && Fetch(users, em).value.passwordHash == Some(hash(pw).value)
    ensures r.Ok? ==> r == Ok(Fetch(users, em).value)
    ensures r == Err(Authentication(BAD_CREDENTIALS)) <==>
      Fetch(users, em).Absent? || (Fetch(users, em).Found? && hash(pw).Ok? && Fetch(users, em).value.passwordHash != Some(hash(pw).value))
    ensures Fetch(users, em).SqlError? <==> r == Err(DataAccess(DB_FAILED))
    ensures Fetch(users, em).Found? && hash(pw).Err? ==> r == Err(DataAccess(UNEXPECTED + hash(pw).error))
  {
    match Fetch(users, em)
    case SqlError => Err(DataAccess(DB_FAILED))
    case Absent => Err(Authentication(BAD_CREDENTIALS))
    case Found(u) =>
      match hash(pw)
      case Err(m) =>
        assert (UNEXPECTED + m)[5] != DB_FAILED[5];
        Err(DataAccess(UNEXPECTED + m))
      case Ok(h) => if u.passwordHash == Some(h) then Ok(u) else Err(Authentication(BAD_CREDENTIALS))
  }

  /** The same `try` as the code has it: the `AuthenticationException` it throws itself is caught
      by `catch (Exception e)` and rethrown as a `DataAccessException` whose message is prefixed. */
  function AuthenticateAsWritten(em: string, pw: seq<char>, users: map<string, Lookup<User>>,
                                 hash: seq<char> -> Result<string, string>): (r: Result<User, Failure>)
    ensures r.Err? ==> r.error.DataAccess?
  {
    match Fetch(users, em)
    case SqlError => Err(DataAccess(DB_FAILED))
    case Absent => Err(DataAccess(UNEXPECTED + BAD_CREDENTIALS))
    case Found(u) =>
      match hash(pw)
      case Err(m) => Err(DataAccess(UNEXPECTED + m))
      case Ok(h) => if u.passwordHash == Some(h) then Ok(u) else Err(DataAccess(UNEXPECTED + BAD_CREDENTIALS))
  }

  /** What `login(email, password)` returns or throws (`password` is `None` for a null array). */
  function LoginResult(email: Option<string>, password: Option<seq<char>>, users: map<string, Lookup<User>>,
                       hash: seq<char> -> Result<string, string>): (r: Result<User, Failure>)
    ensures r.Ok? ==>
      && email.Some? && password.Some? && Fetch(users, Trim(email.value)) == Found(r.value)
      && hash(password.value).Ok? && r.value.passwordHash == Some(hash(password.value).value)
    ensures LoginCheck(email, password).Some? ==> r.Err? && r.error.Validation?
  {
    match LoginCheck(email, password)
    case Some(f) => Err(f)
    case None => Authenticate(Trim(email.value), password.value, users, hash)
  }

  /** The same, as written: no input ever makes it throw `AuthenticationException`. */
  function LoginResultAsWritten(email: Option<string>, password: Option<seq<char>>, users: map<string, Lookup<User>>,
                                hash: seq<char> -> Result<string, string>): (r: Result<User, Failure>)
    ensures r.Err? ==> !r.error.Authentication?
    ensures LoginCheck(email, password).Some? ==> r.Err? && r.error.Validation?
  {
    match LoginCheck(email, password)
    case Some(f) => Err(f)
    case None => AuthenticateAsWritten(Trim(email.value), password.value, users, hash)
  }

  /** `Arrays.fill(a, '\0')`. */
  method ZeroFill(a: array<char>)
    modifies a
    ensures forall i :: 0 <= i < a.Length ==> a[i] == '\0'
  {
    var i := 0;
    while i < a.Length
      invariant 0 <= i <= a.Length
      invariant forall j :: 0 <= j < i ==> a[j] == '\0'
    {
      a[i] := '\0';
      i := i + 1;
    }
  }

  /** `login(email, password)`: the checks run before the `try`, so a rejected input leaves the
      caller's array as it was; once past them the `finally` blanks the array on every exit. */
  method Login(email: Option<string>, password: array?<char>, users: map<string, Lookup<User>>,
               hash: seq<char> -> Result<string, string>) returns (r: Result<User, Failure>)
    modifies password
    ensures r == LoginResult(email, if password == null then None else Some(old(password[..])), users, hash)
    ensures password != null && LoginCheck(email, Some(old(password[..]))).Some? ==> password[..] == old(password[..])
    ensures password != null && LoginCheck(email, Some(old(password[..]))).None? ==>
      forall i :: 0 <= i < password.Length ==> password[i] == '\0'
  {
    ghost var pw := if password == null then None else Some(password[..]);
    if email.None? || Trim(email.value) == [] {
      assert LoginCheck(email, pw) == Some(Validation(EMAIL_REQUIRED));
      return Err(Validation(EMAIL_REQUIRED));
    }
    var em := Trim(email.value);
    if password == null || password.Length == 0 {
      assert LoginCheck(email, pw) == Some(Validation(PASSWORD_REQUIRED));
      return Err(Validation(PASSWORD_REQUIRED));
    }
    var typed := password[..];
    assert LoginCheck(email, pw) == None;
    r := Authenticate(em, typed, users, hash);
    ZeroFill(password);
  }

  // ----- What login promises -----

  /** The e-mail is trimmed before the lookup: padding it with whitespace changes nothing. */
  lemma PaddingIgnored(w1: string, email: string, w2: string, password: Option<seq<char>>,
                       users: map<string, Lookup<User>>, hash: seq<char> -> Result<string, string>)
    requires AllTrimmable(w1) && AllTrimmable(w2)
    ensures LoginResult(Some(w1 + email + w2), password, users, hash) == LoginResult(Some(email), password, users, hash)
  {
    TrimPadded(w1, email, w2);
  }

  /** With a repository that files each user under its own e-mail, a successful login is the
      user of the typed (trimmed) address, and its stored hash is the typed password's. */
  lemma SuccessIsThatUser(email: Option<string>, password: Option<seq<char>>, users: map<string, Lookup<User>>,
                          hash: seq<char> -> Result<string, string>)
    requires forall k :: k in users && users[k].Found? ==> users[k].value.email == Some(k)
    requires LoginResult(email, password, users, hash).Ok?
    ensures var u := LoginResult(email, password, users, hash).value;
      && email.Some? && password.Some?
      && u.email == Some(Trim(email.value))
      && u.passwordHash == Some(hash(password.value).value)
  {
    var em := Trim(email.value);
    assert Fetch(users, em).Found?;
    assert em in users;
  }

  /** An unknown e-mail and a wrong password give the same answer, so the reply does not tell
      which addresses are registered. */
  lemma UnknownLooksLikeWrong(em: string, pw: seq<char>, u: User, hash: seq<char> -> Result<string, string>)
    requires Trim(em) != [] && |pw| > 0 && hash(pw).Ok? && u.passwordHash != Some(hash(pw).value)
    ensures LoginResult(Some(em), Some(pw), map[], hash) == LoginResult(Some(em), Some(pw), map[Trim(em) := Found(u)], hash)
    ensures LoginResult(Some(em), Some(pw), map[], hash) == Err(Authentication(BAD_CREDENTIALS))
  {
  }

  // ----- The catch-all as written -----

  /** The code as written and the intended result differ exactly on bad credentials: there the
      written code reports an unexpected database error instead of an authentication failure. */
  lemma AsWrittenDiffersOnlyOnBadCredentials(email: Option<string>, password: Option<seq<char>>,
                                             users: map<string, Lookup<User>>, hash: seq<char> -> Result<string, string>)
    ensures LoginResultAsWritten(email, password, users, hash) != LoginResult(email, password, users, hash) <==>
      LoginResult(email, password, users, hash) == Err(Authentication(BAD_CREDENTIALS))
    ensures LoginResult(email, password, users, hash) == Err(Authentication(BAD_CREDENTIALS)) ==>
      LoginResultAsWritten(email, password, users, hash) == Err(DataAccess(UNEXPECTED + BAD_CREDENTIALS))
  {
    if LoginCheck(email, password).None? {
      var em := Trim(email.value);
      var a := Authenticate(em, password.value, users, hash);
      var w := AuthenticateAsWritten(em, password.value, users, hash);
      assert a != w <==> a == Err(Authentication(BAD_CREDENTIALS));
    }
  }

  /** An address that is not registered: the written code throws
      `DataAccessException("Erro inesperado ao realizar login: E-mail ou senha inválidos.")`,
      which the login screen's `AuthenticationException` handler never sees. */
  lemma UnknownEmailAsWritten(em: string, pw: seq<char>, hash: seq<char> -> Result<string, string>)
    requires em != [] && !Trimmable(em[0]) && !Trimmable(em[|em| - 1]) && |pw| > 0
    ensures LoginResultAsWritten(Some(em), Some(pw), map[], hash) == Err(DataAccess(UNEXPECTED + BAD_CREDENTIALS))
    ensures LoginResult(Some(em), Some(pw), map[], hash) == Err(Authentication(BAD_CREDENTIALS))
  {
    TrimOfTrimmed(em);
    var none: map<string, Lookup<User>> := map[];
    assert Fetch(none, em) == Absent;
  }
}
