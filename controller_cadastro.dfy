/** The sign-up use case (`controller.ControllerCadastro`): a chain of input checks, a duplicate
    e-mail check and an area lookup, then three dependent inserts (address, person, user) with
    no transaction around them. Repositories are tables of answers (lookups) and the replies
    of the three inserts; the `User` constructor's password hashing is the function `hash`. */
module ControllerCadastro {
  import opened Common
  import opened JavaString
  import opened Entities
  import opened Factories
  import ControllerLogin

  /** The form fields `register` receives besides the password. */
  datatype SignUp = SignUp(
    firstName: Option<string>,
    lastName: Option<string>,
    email: Option<string>,
    idArea: Option<int>,
    street: Option<string>,
    number: Option<int>,
    cep: Option<string>,
    complement: Option<string>,
    reference: Option<string>)

  /** The answer of an insert that hands back the generated key: the key, `null` (nothing was
      stored), or an `SQLException`. */
  datatype KeyReply = NewKey(key: int) | NoKey | KeySqlError

  /** The answer of `createUser`: `true`, `false`, or an `SQLException`. */
  datatype InsertReply = Inserted | NotInserted | InsertSqlError

  /** The database's answers to the three inserts, in the order they are made. */
  datatype WriteReplies = WriteReplies(address: KeyReply, person: KeyReply, user: InsertReply)

  /** What one call of `register` does: its outcome and the row each insert stored, if any. */
  datatype Registration = Registration(
    result: Result<(), Failure>,
    address: Option<Address>,
    person: Option<Person>,
    user: Option<User>)

  const NAME_REQUIRED := "Nome é obrigatório."
  const EMAIL_REQUIRED := "E-mail é obrigatório."
  const EMAIL_INVALID := "E-mail inválido."
  const AREA_REQUIRED := "Selecione um bairro (região)."
  const EMAIL_TAKEN := "E-mail já cadastrado no sistema."
  const AREA_UNKNOWN := "O bairro selecionado é inválido."
  const DB_FAILED := "Erro ao acessar o banco durante o cadastro."
  const ADDRESS_NOT_SAVED := "Erro ao salvar o endereço no banco de dados."
  const PERSON_NOT_SAVED := "Erro ao salvar dados pessoais. O e-mail pode já estar em uso."
  const USER_NOT_CREATED := "Erro crítico ao criar o usuário de login."

  /** The stored row of an insert as a list: empty when nothing was stored. */
  function Stored<T>(row: Option<T>): (s: seq<T>)
    ensures |s| <= 1 && (s == [] <==> row.None?)
  {
    if row.Some? then [row.value] else []
  }

  /** The input checks of `register`, in order: the first that fails, or none. */
  function RegisterCheck(form: SignUp, password: Option<seq<char>>): (r: Option<Failure>)
    ensures r.None? <==>
      && !NullOrEmptyTrimmed(form.firstName) && !NullOrEmptyTrimmed(form.email)
      && EmailLooksValid(Trim(form.email.value))
      && password.Some? && |password.value| >= 4
      && form.idArea.Some? && form.idArea.value > 0
      && !NullOrEmptyTrimmed(form.street)
    ensures r.Some? ==> r.value.Validation?
    ensures NullOrEmptyTrimmed(form.firstName) ==> r == Some(Validation(NAME_REQUIRED))
    ensures !NullOrEmptyTrimmed(form.firstName) && NullOrEmptyTrimmed(form.email) ==> r == Some(Validation(EMAIL_REQUIRED))
    ensures (!NullOrEmptyTrimmed(form.firstName) && !NullOrEmptyTrimmed(form.email)
             && !EmailLooksValid(Trim(form.email.value))) ==> r == Some(Validation(EMAIL_INVALID))
    ensures (!NullOrEmptyTrimmed(form.firstName) && !NullOrEmptyTrimmed(form.email) && EmailLooksValid(Trim(form.email.value))
             && (password.None? || |password.value| < 4)) ==> r == Some(Validation(PASSWORD_TOO_SHORT))
    ensures (!NullOrEmptyTrimmed(form.firstName) && !NullOrEmptyTrimmed(form.email) && EmailLooksValid(Trim(form.email.value))
             && password.Some? && |password.value| >= 4 && (form.idArea.None? || form.idArea.value <= 0)) ==>
      r == Some(Validation(AREA_REQUIRED))
    ensures (!NullOrEmptyTrimmed(form.firstName) && !NullOrEmptyTrimmed(form.email) && EmailLooksValid(Trim(form.email.value))
             && password.Some? && |password.value| >= 4 && form.idArea.Some? && form.idArea.value > 0
             && NullOrEmptyTrimmed(form.street)) ==> r == Some(Validation(STREET_REQUIRED))
  {
    if NullOrEmptyTrimmed(form.firstName) then Some(Validation(NAME_REQUIRED))
    else if NullOrEmptyTrimmed(form.email) then Some(Validation(EMAIL_REQUIRED))
    else if !EmailLooksValid(Trim(form.email.value)) then Some(Validation(EMAIL_INVALID))
    else if password.None? || |password.value| < 4 then Some(Validation(PASSWORD_TOO_SHORT))
    else if form.idArea.None? || form.idArea.value <= 0 then Some(Validation(AREA_REQUIRED))
    else if NullOrEmptyTrimmed(form.street) then Some(Validation(STREET_REQUIRED))
    else None
  }

  /** The checks pass, the e-mail is free and the area exists: `persistUser` is reached. */
  predicate ReachesPersist(form: SignUp, password: Option<seq<char>>,
                           persons: map<string, Lookup<Person>>, areas: map<int, Lookup<Area>>) {
    && RegisterCheck(form, password).None?
    && Fetch(persons, Trim(form.email.value)).Absent?
    && Fetch(areas, form.idArea.value).Found?
  }

  /** The last insert of `persistUser`: the user, with the person's new key. */
  function UserStep(firstName: string, form: SignUp, em: string, pw: seq<char>, a: Address, p: Person,
                    reply: InsertReply, hash: seq<char> -> Option<string>): (o: Registration)
    requires p.id.Some?
    ensures o.address == Some(a) && o.person == Some(p)
    ensures o.user.Some? ==> o.user.value.idPerson == p.id && o.user.value.idUser.None?
    ensures o.result.Ok? <==> o.user.Some?
    ensures o.result.Ok? ==> reply == Inserted && hash(pw).Some?
  {
    match CreateUser(None, p.id, Some(firstName), form.lastName, Some(em), Some(pw), hash)
    case Err(f) => Registration(Err(f), Some(a), Some(p), None)
    case Ok(user) =>
      match reply
      case InsertSqlError => Registration(Err(DataAccess(DB_FAILED)), Some(a), Some(p), None)
      case NotInserted => Registration(Err(DataAccess(USER_NOT_CREATED)), Some(a), Some(p), None)
      case Inserted => Registration(Ok(()), Some(a), Some(p), Some(user))
  }

  /** The second insert of `persistUser`: the person, pointing at the stored address. */
  function PersonStep(firstName: string, form: SignUp, em: string, pw: seq<char>, a: Address,
                      replies: WriteReplies, hash: seq<char> -> Option<string>): (o: Registration)
    ensures o.address == Some(a)
    ensures o.person.Some? ==> replies.person.NewKey? && o.person.value.id == Some(replies.person.key) && o.person.value.address == Some(a)
    ensures o.user.Some? ==> o.person.Some? && o.user.value.idPerson == o.person.value.id
    ensures o.result.Ok? <==> o.user.Some?
  {
    match CreatePerson(None, Some(firstName), form.lastName, Some(em), Some(a))
    case Err(f) => Registration(Err(f), Some(a), None, None)
    case Ok(person) =>
      match replies.person
      case KeySqlError => Registration(Err(DataAccess(DB_FAILED)), Some(a), None, None)
      case NoKey => Registration(Err(DataAccess(PERSON_NOT_SAVED)), Some(a), None, None)
      case NewKey(idPerson) => UserStep(firstName, form, em, pw, a, person.(id := Some(idPerson)), replies.user, hash)
  }

  /** `persistUser`: the address, then the person pointing at the address's new key, then the
      user pointing at the person's new key. A failing step stops the sequence, and the rows
      already stored stay. */
  function Persist(firstName: string, form: SignUp, em: string, pw: seq<char>, area: Area,
                   replies: WriteReplies, hash: seq<char> -> Option<string>): (o: Registration)
    ensures o.person.Some? ==> o.address.Some? && o.person.value.address == o.address
    ensures o.address.Some? ==> replies.address.NewKey? && o.address.value.id == Some(replies.address.key) && o.address.value.area == Some(area)
    ensures o.person.Some? ==> replies.person.NewKey? && o.person.value.id == Some(replies.person.key)
    ensures o.user.Some? ==> o.person.Some? && o.user.value.idPerson == o.person.value.id
    ensures o.result.Ok? <==> o.user.Some?
  {
    match CreateAddress(None, Some(area), form.cep, form.street, form.number, form.complement, form.reference)
    case Err(f) => Registration(Err(f), None, None, None)
    case Ok(address) =>
      match replies.address
      case KeySqlError => Registration(Err(DataAccess(DB_FAILED)), None, None, None)
      case NoKey => Registration(Err(DataAccess(ADDRESS_NOT_SAVED)), None, None, None)
      case NewKey(idAddress) => PersonStep(firstName, form, em, pw, address.(id := Some(idAddress)), replies, hash)
  }

  /** What `register` does with this form and password, these lookup answers and these insert
      replies. */
  function RegisterOutcome(form: SignUp, password: Option<seq<char>>, persons: map<string, Lookup<Person>>,
                           areas: map<int, Lookup<Area>>, replies: WriteReplies,
                           hash: seq<char> -> Option<string>): (o: Registration)
    ensures o.result.Ok? <==> o.user.Some?
    ensures o.person.Some? ==> o.address.Some? && o.person.value.address == o.address
    ensures o.user.Some? ==> o.person.Some? && o.user.value.idPerson == o.person.value.id
  {
    match RegisterCheck(form, password)
    case Some(f) => Registration(Err(f), None, None, None)
    case None =>
      var em := Trim(form.email.value);
      match Fetch(persons, em)
      case SqlError => Registration(Err(DataAccess(DB_FAILED)), None, None, None)
      case Found(_) => Registration(Err(Conflict(EMAIL_TAKEN)), None, None, None)
      case Absent =>
        match Fetch(areas, form.idArea.value)
        case SqlError => Registration(Err(DataAccess(DB_FAILED)), None, None, None)
        case Absent => Registration(Err(NotFound(AREA_UNKNOWN)), None, None, None)
        case Found(area) => Persist(Trim(form.firstName.value), form, em, password.value, area, replies, hash)
  }

  /** The tables the three inserts write to. */
  class AccountStore {
    var addresses: seq<Address>
    var persons: seq<Person>
    var users: seq<User>

    constructor ()
      ensures addresses == [] && persons == [] && users == []
    {
      addresses := [];
      persons := [];
      users := [];
    }

    /** The user insert of `persistUser`. */
    method SaveUser(firstName: string, form: SignUp, em: string, pw: seq<char>, a: Address, p: Person,
                    reply: InsertReply, hash: seq<char> -> Option<string>) returns (result: Result<(), Failure>)
      requires p.id.Some?
      modifies this
      ensures var o := UserStep(firstName, form, em, pw, a, p, reply, hash);
        && result == o.result && addresses == old(addresses) && persons == old(persons)
        && users == old(users) + Stored(o.user)
    {
      ghost var o := UserStep(firstName, form, em, pw, a, p, reply, hash);
      assert old(users) + Stored(None) == old(users);
      var user := CreateUser(None, p.id, Some(firstName), form.lastName, Some(em), Some(pw), hash);
      if user.Err? {
        assert o == Registration(Err(user.error), Some(a), Some(p), None);
        return Err(user.error);
      }
      if reply.InsertSqlError? {
        assert o == Registration(Err(DataAccess(DB_FAILED)), Some(a), Some(p), None);
        return Err(DataAccess(DB_FAILED));
      }
      if reply.NotInserted? {
        assert o == Registration(Err(DataAccess(USER_NOT_CREATED)), Some(a), Some(p), None);
        return Err(DataAccess(USER_NOT_CREATED));
      }
      assert o == Registration(Ok(()), Some(a), Some(p), Some(user.value));
      users := users + [user.value];
      return Ok(());
    }

    /** The person insert of `persistUser`, then `setId` with the new key. */
    method SavePerson(firstName: string, form: SignUp, em: string, pw: seq<char>, a: Address,
                      replies: WriteReplies, hash: seq<char> -> Option<string>) returns (result: Result<(), Failure>)
      modifies this
      ensures var o := PersonStep(firstName, form, em, pw, a, replies, hash);
        && result == o.result && addresses == old(addresses)
        && persons == old(persons) + Stored(o.person)
        && users == old(users) + Stored(o.user)
    {
      ghost var o := PersonStep(firstName, form, em, pw, a, replies, hash);
      assert old(persons) + Stored(None) == old(persons) && old(users) + Stored(None) == old(users);
      var person := CreatePerson(None, Some(firstName), form.lastName, Some(em), Some(a));
      if person.Err? {
        assert o == Registration(Err(person.error), Some(a), None, None);
        return Err(person.error);
      }
      if replies.person.KeySqlError? {
        assert o == Registration(Err(DataAccess(DB_FAILED)), Some(a), None, None);
        return Err(DataAccess(DB_FAILED));
      }
      if replies.person.NoKey? {
        assert o == Registration(Err(DataAccess(PERSON_NOT_SAVED)), Some(a), None, None);
        return Err(DataAccess(PERSON_NOT_SAVED));
      }
      var p := person.value.(id := Some(replies.person.key));
      assert o == UserStep(firstName, form, em, pw, a, p, replies.user, hash);
      persons := persons + [p];
      result := SaveUser(firstName, form, em, pw, a, p, replies.user, hash);
      assert o.person == Some(p);
    }

    /** `persistUser`: the address insert, then `setInteger` with the new key, then the rest. */
    method PersistUser(firstName: string, form: SignUp, em: string, pw: seq<char>, area: Area,
                       replies: WriteReplies, hash: seq<char> -> Option<string>) returns (result: Result<(), Failure>)
      modifies this
      ensures var o := Persist(firstName, form, em, pw, area, replies, hash);
        && result == o.result
        && addresses == old(addresses) + Stored(o.address)
        && persons == old(persons) + Stored(o.person)
        && users == old(users) + Stored(o.user)
    {
      ghost var o := Persist(firstName, form, em, pw, area, replies, hash);
      assert old(addresses) + Stored(None) == old(addresses) && old(persons) + Stored(None) == old(persons)
        && old(users) + Stored(None) == old(users);
      var address := CreateAddress(None, Some(area), form.cep, form.street, form.number, form.complement, form.reference);
      if address.Err? {
        assert o == Registration(Err(address.error), None, None, None);
        return Err(address.error);
      }
      if replies.address.KeySqlError? {
        assert o == Registration(Err(DataAccess(DB_FAILED)), None, None, None);
        return Err(DataAccess(DB_FAILED));
      }
      if replies.address.NoKey? {
        assert o == Registration(Err(DataAccess(ADDRESS_NOT_SAVED)), None, None, None);
        return Err(DataAccess(ADDRESS_NOT_SAVED));
      }
      var a := address.value.(id := Some(replies.address.key));
      assert o == PersonStep(firstName, form, em, pw, a, replies, hash);
      addresses := addresses + [a];
      result := SavePerson(firstName, form, em, pw, a, replies, hash);
      assert o.address == Some(a);
    }

    /** The `try` block of `register`. */
    method Attempt(form: SignUp, pw: Option<seq<char>>, personsByEmail: map<string, Lookup<Person>>,
                   areas: map<int, Lookup<Area>>, replies: WriteReplies,
                   hash: seq<char> -> Option<string>) returns (result: Result<(), Failure>)
      modifies this
      ensures var o := RegisterOutcome(form, pw, personsByEmail, areas, replies, hash);
        && result == o.result
        && addresses == old(addresses) + Stored(o.address)
        && persons == old(persons) + Stored(o.person)
        && users == old(users) + Stored(o.user)
    {
      ghost var o := RegisterOutcome(form, pw, personsByEmail, areas, replies, hash);
      assert old(addresses) + [] == old(addresses) && old(persons) + [] == old(persons) && old(users) + [] == old(users);
      var check := RegisterCheck(form, pw);
      if check.Some? {
        assert o == Registration(Err(check.value), None, None, None);
        return Err(check.value);
      }
      var em := Trim(form.email.value);
      var existing := Fetch(personsByEmail, em);
      if existing.SqlError? {
        assert o == Registration(Err(DataAccess(DB_FAILED)), None, None, None);
        return Err(DataAccess(DB_FAILED));
      }
      if existing.Found? {
        assert o == Registration(Err(Conflict(EMAIL_TAKEN)), None, None, None);
        return Err(Conflict(EMAIL_TAKEN));
      }
      var area := Fetch(areas, form.idArea.value);
      if area.SqlError? {
        assert o == Registration(Err(DataAccess(DB_FAILED)), None, None, None);
        return Err(DataAccess(DB_FAILED));
      }
      if area.Absent? {
        assert o == Registration(Err(NotFound(AREA_UNKNOWN)), None, None, None);
        return Err(NotFound(AREA_UNKNOWN));
      }
      assert o == Persist(Trim(form.firstName.value), form, em, pw.value, area.value, replies, hash);
      result := PersistUser(Trim(form.firstName.value), form, em, pw.value, area.value, replies, hash);
    }

    /** `register(...)`: the rows stored are those `RegisterOutcome` names, and the `finally`
        blanks a non-null password array on every exit, the rejected inputs included. */
    method Register(form: SignUp, password: array?<char>, personsByEmail: map<string, Lookup<Person>>,
                    areas: map<int, Lookup<Area>>, replies: WriteReplies,
                    hash: seq<char> -> Option<string>) returns (result: Result<(), Failure>)
      modifies this, password
      ensures var o := RegisterOutcome(form, if password == null then None else Some(old(password[..])),
                                       personsByEmail, areas, replies, hash);
        && result == o.result
        && addresses == old(addresses) + Stored(o.address)
        && persons == old(persons) + Stored(o.person)
        && users == old(users) + Stored(o.user)
      ensures password != null ==> forall i :: 0 <= i < password.Length ==> password[i] == '\0'
    {
      var pw := if password == null then None else Some(password[..]);
      result := Attempt(form, pw, personsByEmail, areas, replies, hash);
      if password != null {
        ControllerLogin.ZeroFill(password);
      }
    }
  }

  // ----- What register promises -----

  /** Nothing is stored unless the checks pass, the e-mail is free and the area exists. */
  lemma StoresOnlyWhenReached(form: SignUp, password: Option<seq<char>>, persons: map<string, Lookup<Person>>,
                              areas: map<int, Lookup<Area>>, replies: WriteReplies, hash: seq<char> -> Option<string>)
    ensures RegisterOutcome(form, password, persons, areas, replies, hash).address.Some? ==> ReachesPersist(form, password, persons, areas)
  {
  }

  /** A rejected form stores nothing, and its answer does not depend on the database at all:
      no repository is consulted. */
  lemma RejectedFormTouchesNothing(form: SignUp, password: Option<seq<char>>,
                                   persons: map<string, Lookup<Person>>, areas: map<int, Lookup<Area>>, replies: WriteReplies,
                                   persons2: map<string, Lookup<Person>>, areas2: map<int, Lookup<Area>>, replies2: WriteReplies,
                                   hash: seq<char> -> Option<string>)
    requires RegisterCheck(form, password).Some?
    ensures var o := RegisterOutcome(form, password, persons, areas, replies, hash);
      && o == Registration(Err(RegisterCheck(form, password).value), None, None, None)
      && o == RegisterOutcome(form, password, persons2, areas2, replies2, hash)
  {
  }

  /** An e-mail already on file is refused before the area is looked up, and nothing is stored. */
  lemma TakenEmailConflicts(form: SignUp, password: Option<seq<char>>, persons: map<string, Lookup<Person>>,
                            areas: map<int, Lookup<Area>>, areas2: map<int, Lookup<Area>>, replies: WriteReplies,
                            hash: seq<char> -> Option<string>)
    requires RegisterCheck(form, password).None? && Fetch(persons, Trim(form.email.value)).Found?
    ensures var o := RegisterOutcome(form, password, persons, areas, replies, hash);
      && o == Registration(Err(Conflict(EMAIL_TAKEN)), None, None, None)
      && o == RegisterOutcome(form, password, persons, areas2, replies, hash)
  {
  }

  /** An area id with no row is refused before anything is stored. */
  lemma UnknownAreaNotFound(form: SignUp, password: Option<seq<char>>, persons: map<string, Lookup<Person>>,
                            areas: map<int, Lookup<Area>>, replies: WriteReplies, hash: seq<char> -> Option<string>)
    requires RegisterCheck(form, password).None? && Fetch(persons, Trim(form.email.value)).Absent?
    requires Fetch(areas, form.idArea.value).Absent?
    ensures RegisterOutcome(form, password, persons, areas, replies, hash) == Registration(Err(NotFound(AREA_UNKNOWN)), None, None, None)
  {
  }

  /** A successful sign-up stores one linked address, person and user: the person carries the
      address's new key and the trimmed e-mail and name, and the user the person's new key, the
      same e-mail and the hash of the password. */
  lemma SuccessStoresLinkedRows(form: SignUp, password: Option<seq<char>>, persons: map<string, Lookup<Person>>,
                                areas: map<int, Lookup<Area>>, replies: WriteReplies, hash: seq<char> -> Option<string>)
    requires RegisterOutcome(form, password, persons, areas, replies, hash).result.Ok?
    ensures var o := RegisterOutcome(form, password, persons, areas, replies, hash);
      && ReachesPersist(form, password, persons, areas)
      && replies == WriteReplies(NewKey(replies.address.key), NewKey(replies.person.key), Inserted)
      && o.address.Some? && o.person.Some? && o.user.Some?
      && o.address.value.id == Some(replies.address.key)
      && o.address.value.area == Some(Fetch(areas, form.idArea.value).value)
      && o.address.value.street == Trim(form.street.value)
      && o.person.value == Person(Some(replies.person.key), Trim(form.firstName.value), TrimToNull(form.lastName), Trim(form.email.value), o.address)
      && o.user.value.idPerson == Some(replies.person.key)
      && o.user.value.email == Some(Trim(form.email.value))
      && o.user.value.passwordHash == hash(password.value)
  {
    TrimIdempotent(form.firstName.value);
    assert RegisterCheck(form, password).None?;
    var em := Trim(form.email.value);
    assert Fetch(persons, em).Absent?;
    var area := Fetch(areas, form.idArea.value).value;
    var first, pw := Trim(form.firstName.value), password.value;
    assert RegisterOutcome(form, password, persons, areas, replies, hash) == Persist(first, form, em, pw, area, replies, hash);
    var address := CreateAddress(None, Some(area), form.cep, form.street, form.number, form.complement, form.reference);
    assert address.Ok? && replies.address.NewKey?;
    var a := address.value.(id := Some(replies.address.key));
    assert Persist(first, form, em, pw, area, replies, hash) == PersonStep(first, form, em, pw, a, replies, hash);
    var person := CreatePerson(None, Some(first), form.lastName, Some(em), Some(a));
    assert person.Ok? && replies.person.NewKey?;
    var p := person.value.(id := Some(replies.person.key));
    assert PersonStep(first, form, em, pw, a, replies, hash) == UserStep(first, form, em, pw, a, p, replies.user, hash);
    var user := CreateUser(None, p.id, Some(first), form.lastName, Some(em), Some(pw), hash);
    assert user.Ok? && replies.user == Inserted;
    assert UserStep(first, form, em, pw, a, p, replies.user, hash) == Registration(Ok(()), Some(a), Some(p), Some(user.value));
  }

  /** No key for the address: the person and the user are never inserted. */
  lemma NoAddressKeyStopsEarly(form: SignUp, password: Option<seq<char>>, persons: map<string, Lookup<Person>>,
                               areas: map<int, Lookup<Area>>, replies: WriteReplies, hash: seq<char> -> Option<string>)
    requires ReachesPersist(form, password, persons, areas) && replies.address == NoKey
    ensures var o := RegisterOutcome(form, password, persons, areas, replies, hash);
      o.person.None? && o.user.None? && o.address.None? && o.result.Err?
      && (o.result.error == DataAccess(ADDRESS_NOT_SAVED) || o.result.error.Validation?)
  {
  }

  /** A form that passed the checks always yields a person and, with a hash, a user: those
      factories repeat checks already made. */
  lemma LaterFactoriesAccept(form: SignUp, password: Option<seq<char>>, a: Address, idPerson: int,
                             hash: seq<char> -> Option<string>)
    requires RegisterCheck(form, password).None?
    ensures CreatePerson(None, Some(Trim(form.firstName.value)), form.lastName, Some(Trim(form.email.value)), Some(a)).Ok?
    ensures hash(password.value).Some? ==>
      CreateUser(None, Some(idPerson), Some(Trim(form.firstName.value)), form.lastName, Some(Trim(form.email.value)),
                 password, hash).Ok?
  {
    TrimmedNotBlank(form.firstName.value);
    TrimmedNotBlank(form.email.value);
  }

  /** No key for the person: the user is never inserted, and the address row stays behind. */
  lemma NoPersonKeyLeavesAddress(form: SignUp, password: Option<seq<char>>, persons: map<string, Lookup<Person>>,
                                 areas: map<int, Lookup<Area>>, replies: WriteReplies, hash: seq<char> -> Option<string>)
    requires ReachesPersist(form, password, persons, areas)
    requires replies.address.NewKey? && replies.person == NoKey
    requires CreateAddress(None, Some(Fetch(areas, form.idArea.value).value), form.cep, form.street, form.number,
                           form.complement, form.reference).Ok?
    ensures var o := RegisterOutcome(form, password, persons, areas, replies, hash);
      o == Registration(Err(DataAccess(PERSON_NOT_SAVED)), o.address, None, None) && o.address.Some?
  {
    var fn, em := Trim(form.firstName.value), Trim(form.email.value);
    var area := Fetch(areas, form.idArea.value).value;
    var address := CreateAddress(None, Some(area), form.cep, form.street, form.number, form.complement, form.reference).value;
    var a := address.(id := Some(replies.address.key));
    LaterFactoriesAccept(form, password, a, 0, hash);
    ReachedMeansPersist(form, password, persons, areas, replies, hash);
    assert Persist(fn, form, em, password.value, area, replies, hash) == PersonStep(fn, form, em, password.value, a, replies, hash);
  }

  /** `createUser` answering `false`: the call fails, and the address and person rows already
      stored remain; nothing undoes them. */
  lemma UserNotCreatedLeavesRows(form: SignUp, password: Option<seq<char>>, persons: map<string, Lookup<Person>>,
                                 areas: map<int, Lookup<Area>>, replies: WriteReplies, hash: seq<char> -> Option<string>)
    requires ReachesPersist(form, password, persons, areas)
    requires replies.address.NewKey? && replies.person.NewKey? && replies.user == NotInserted
    requires CreateAddress(None, Some(Fetch(areas, form.idArea.value).value), form.cep, form.street, form.number,
                           form.complement, form.reference).Ok?
    requires hash(password.value).Some?
    ensures var o := RegisterOutcome(form, password, persons, areas, replies, hash);
      && o.result == Err(DataAccess(USER_NOT_CREATED))
      && o.address.Some? && o.person.Some? && o.user.None?
  {
    var fn, em := Trim(form.firstName.value), Trim(form.email.value);
    var area := Fetch(areas, form.idArea.value).value;
    var address := CreateAddress(None, Some(area), form.cep, form.street, form.number, form.complement, form.reference).value;
    var a := address.(id := Some(replies.address.key));
    LaterFactoriesAccept(form, password, a, replies.person.key, hash);
    var person := CreatePerson(None, Some(fn), form.lastName, Some(em), Some(a)).value;
    var p := person.(id := Some(replies.person.key));
    ReachedMeansPersist(form, password, persons, areas, replies, hash);
    assert Persist(fn, form, em, password.value, area, replies, hash) == PersonStep(fn, form, em, password.value, a, replies, hash);
    assert PersonStep(fn, form, em, password.value, a, replies, hash) == UserStep(fn, form, em, password.value, a, p, replies.user, hash);
    UserRefused(fn, form, em, password.value, a, p, hash);
  }

  lemma ReachedMeansPersist(form: SignUp, password: Option<seq<char>>, persons: map<string, Lookup<Person>>,
                            areas: map<int, Lookup<Area>>, replies: WriteReplies, hash: seq<char> -> Option<string>)
    requires ReachesPersist(form, password, persons, areas)
    ensures RegisterOutcome(form, password, persons, areas, replies, hash)
      == Persist(Trim(form.firstName.value), form, Trim(form.email.value), password.value, Fetch(areas, form.idArea.value).value, replies, hash)
  {
  }

  lemma UserRefused(fn: string, form: SignUp, em: string, pw: seq<char>, a: Address, p: Person, hash: seq<char> -> Option<string>)
    requires p.id.Some? && CreateUser(None, p.id, Some(fn), form.lastName, Some(em), Some(pw), hash).Ok?
    ensures UserStep(fn, form, em, pw, a, p, NotInserted, hash) == Registration(Err(DataAccess(USER_NOT_CREATED)), Some(a), Some(p), None)
  {
  }
}
