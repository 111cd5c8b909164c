/** The entity factories (package `model.factories`): ordered guard clauses that reject bad
    input with a `ValidationException`, then trimming and blank-to-`null` normalisation. */
module Factories {
  import opened Common
  import opened JavaString
  import opened Entities

  /** The email test shared by the person and user factories and by registration:
      the trimmed address contains "@" and ".com". */
  predicate EmailLooksValid(em: string) {
    Contains(em, "@") && Contains(em, ".com")
  }

  /** `TrimToNull` of a value it produced gives that value back. */
  lemma TrimToNullIdempotent(s: Option<string>)
    ensures TrimToNull(TrimToNull(s)) == TrimToNull(s)
  {
    if s.Some? {
      TrimIdempotent(s.value);
    }
  }

  /** A value `Trim` produced, if it is not empty, is neither null nor blank. */
  lemma TrimmedNotBlank(s: string)
    requires Trim(s) != []
    ensures !NullOrEmptyTrimmed(Some(Trim(s))) && Trim(Trim(s)) == Trim(s)
  {
    TrimIdempotent(s);
  }

  // ----- AddressFactory.create -----

  const STREET_REQUIRED := "Rua é obrigatória."

  function CreateAddress(id: Option<int>, area: Option<Area>, cep: Option<string>, street: Option<string>,
                         number: Option<int>, complement: Option<string>, reference: Option<string>): (r: Result<Address, Failure>)
    ensures r.Ok? <==> area.Some? && !NullOrEmptyTrimmed(street) && (cep.Some? && Trim(cep.value) != [] ==> |Trim(cep.value)| == 8)
    ensures area.None? ==> r == Err(Validation("Bairro/Área é obrigatório."))
    ensures area.Some? && NullOrEmptyTrimmed(street) ==> r == Err(Validation(STREET_REQUIRED))
    ensures area.Some? && !NullOrEmptyTrimmed(street) && cep.Some? && Trim(cep.value) != [] && |Trim(cep.value)| != 8 ==>
      r == Err(Validation("CEP deve ter 8 caracteres (apenas números)."))
    ensures r.Ok? ==>
      && r.value.id == id && r.value.area == area && r.value.number == number
      && r.value.street == Trim(street.value) && r.value.street != []
      && r.value.cep == TrimToNull(cep)
      && r.value.complement == TrimToNull(complement)
      && r.value.reference == TrimToNull(reference)
  {
    if area.None? then Err(Validation("Bairro/Área é obrigatório."))
    else if NullOrEmptyTrimmed(street) then Err(Validation(STREET_REQUIRED))
    else
      var c := if cep.Some? then Some(Trim(cep.value)) else None;
      if c.Some? && c.value != [] && |c.value| != 8 then Err(Validation("CEP deve ter 8 caracteres (apenas números)."))
      else Ok(Address(id, area, TrimToNull(cep), Trim(street.value), number, TrimToNull(complement), TrimToNull(reference)))
  }

  /** Rebuilding an address from its own fields gives the same address: the normalisation is
      already done. */
  lemma AddressRoundTrip(id: Option<int>, area: Option<Area>, cep: Option<string>, street: Option<string>,
                         number: Option<int>, complement: Option<string>, reference: Option<string>)
    requires CreateAddress(id, area, cep, street, number, complement, reference).Ok?
    ensures var a := CreateAddress(id, area, cep, street, number, complement, reference).value;
      CreateAddress(a.id, a.area, a.cep, Some(a.street), a.number, a.complement, a.reference) == Ok(a)
  {
    TrimmedNotBlank(street.value);
    TrimToNullIdempotent(cep);
    TrimToNullIdempotent(complement);
    TrimToNullIdempotent(reference);
  }

  /** The CEP is only measured, never checked for digits: any eight kept chars pass, and a
      blank CEP is stored as `null`. */
  lemma CepOnlyMeasured(area: Area, cep: string, street: string)
    requires !NullOrEmptyTrimmed(Some(street))
    ensures |Trim(cep)| == 8 ==> CreateAddress(None, Some(area), Some(cep), Some(street), None, None, None).Ok?
    ensures AllTrimmable(cep) ==> CreateAddress(None, Some(area), Some(cep), Some(street), None, None, None).value.cep == None
    ensures 0 < |Trim(cep)| != 8 ==> CreateAddress(None, Some(area), Some(cep), Some(street), None, None, None).Err?
  {
  }

  // ----- PersonFactory.create -----

  function CreatePerson(id: Option<int>, firstName: Option<string>, lastName: Option<string>, email: Option<string>,
                        address: Option<Address>): (r: Result<Person, Failure>)
    ensures r.Ok? <==> !NullOrEmptyTrimmed(firstName) && !NullOrEmptyTrimmed(email) && EmailLooksValid(Trim(email.value)) && address.Some?
    ensures NullOrEmptyTrimmed(firstName) ==> r == Err(Validation("Nome é obrigatório."))
    ensures !NullOrEmptyTrimmed(firstName) && NullOrEmptyTrimmed(email) ==> r == Err(Validation("E-mail é obrigatório."))
    ensures !NullOrEmptyTrimmed(firstName) && !NullOrEmptyTrimmed(email) && !EmailLooksValid(Trim(email.value)) ==>
      r == Err(Validation("E-mail inválido."))
    ensures !NullOrEmptyTrimmed(firstName) && !NullOrEmptyTrimmed(email) && EmailLooksValid(Trim(email.value)) && address.None? ==>
      r == Err(Validation("Endereço é obrigatório."))
    ensures r.Ok? ==>
      && r.value.id == id && r.value.address == address
      && r.value.firstName == Trim(firstName.value) && r.value.email == Trim(email.value)
      && r.value.lastName == TrimToNull(lastName)
  {
    if NullOrEmptyTrimmed(firstName) then Err(Validation("Nome é obrigatório."))
    else if NullOrEmptyTrimmed(email) then Err(Validation("E-mail é obrigatório."))
    else
      var em := Trim(email.value);
      if !EmailLooksValid(em) then Err(Validation("E-mail inválido."))
      else if address.None? then Err(Validation("Endereço é obrigatório."))
      else Ok(Person(id, Trim(firstName.value), TrimToNull(lastName), em, address))
  }

  lemma PersonRoundTrip(id: Option<int>, firstName: Option<string>, lastName: Option<string>, email: Option<string>,
                        address: Option<Address>)
    requires CreatePerson(id, firstName, lastName, email, address).Ok?
    ensures var p := CreatePerson(id, firstName, lastName, email, address).value;
      CreatePerson(p.id, Some(p.firstName), p.lastName, Some(p.email), p.address) == Ok(p)
  {
    TrimmedNotBlank(firstName.value);
    TrimmedNotBlank(email.value);
    TrimToNullIdempotent(lastName);
  }

  // ----- UserFactory.createWithPassword -----

  const PASSWORD_TOO_SHORT := "Senha deve ter pelo menos 4 caracteres."

  /** `hash` is the password hashing inside the `User` constructor; `None` means it threw. */
  function CreateUser(idUser: Option<int>, idPerson: Option<int>, firstName: Option<string>, lastName: Option<string>,
                      email: Option<string>, password: Option<seq<char>>, hash: seq<char> -> Option<string>): (r: Result<User, Failure>)
    ensures r.Ok? <==>
      && !NullOrEmptyTrimmed(firstName) && !NullOrEmptyTrimmed(email) && EmailLooksValid(Trim(email.value))
      && password.Some? && |password.value| >= 4 && hash(password.value).Some?
    ensures r.Err? ==> r.error.Validation?
    ensures NullOrEmptyTrimmed(firstName) ==> r == Err(Validation("Nome é obrigatório."))
    ensures !NullOrEmptyTrimmed(firstName) && NullOrEmptyTrimmed(email) ==> r == Err(Validation("E-mail é obrigatório."))
    ensures !NullOrEmptyTrimmed(firstName) && !NullOrEmptyTrimmed(email) && !EmailLooksValid(Trim(email.value)) ==>
      r == Err(Validation("E-mail inválido."))
    ensures (!NullOrEmptyTrimmed(firstName) && !NullOrEmptyTrimmed(email) && EmailLooksValid(Trim(email.value))
             && (password.None? || |password.value| < 4)) ==> r == Err(Validation(PASSWORD_TOO_SHORT))
    ensures (!NullOrEmptyTrimmed(firstName) && !NullOrEmptyTrimmed(email) && EmailLooksValid(Trim(email.value))
             && password.Some? && |password.value| >= 4 && hash(password.value).None?) ==>
      r == Err(Validation("Não foi possível processar a senha. Tente novamente."))
    ensures r.Ok? ==>
      && r.value.idUser == idUser && r.value.idPerson == idPerson
      && r.value.firstName == Trim(firstName.value) && r.value.lastName == TrimToNull(lastName)
      && r.value.email == Some(Trim(email.value)) && r.value.passwordHash == hash(password.value)
  {
    if NullOrEmptyTrimmed(firstName) then Err(Validation("Nome é obrigatório."))
    else if NullOrEmptyTrimmed(email) then Err(Validation("E-mail é obrigatório."))
    else
      var em := Trim(email.value);
      if !EmailLooksValid(em) then Err(Validation("E-mail inválido."))
      else if password.None? || |password.value| < 4 then Err(Validation(PASSWORD_TOO_SHORT))
      else match hash(password.value)
        case None => Err(Validation("Não foi possível processar a senha. Tente novamente."))
        case Some(h) => Ok(User(idUser, idPerson, Trim(firstName.value), TrimToNull(lastName), Some(em), Some(h)))
  }

  // ----- AreaFactory.create -----

  function CreateArea(id: Option<int>, name: Option<string>, fee: Option<int>): (r: Result<Area, Failure>)
    ensures r.Ok? <==> !NullOrEmptyTrimmed(name) && fee.Some? && fee.value >= 0
    ensures NullOrEmptyTrimmed(name) ==> r == Err(Validation("Nome da área é obrigatório."))
    ensures !NullOrEmptyTrimmed(name) && fee.None? ==> r == Err(Validation("Taxa da área é obrigatória."))
    ensures !NullOrEmptyTrimmed(name) && fee.Some? && fee.value < 0 ==> r == Err(Validation("Taxa da área não pode ser negativa."))
    ensures r.Ok? ==> r.value == Area(id, Trim(name.value), fee.value)
  {
    if NullOrEmptyTrimmed(name) then Err(Validation("Nome da área é obrigatório."))
    else if fee.None? then Err(Validation("Taxa da área é obrigatória."))
    else if fee.value < 0 then Err(Validation("Taxa da área não pode ser negativa."))
    else Ok(Area(id, Trim(name.value), fee.value))
  }

  lemma AreaRoundTrip(id: Option<int>, name: Option<string>, fee: Option<int>)
    requires CreateArea(id, name, fee).Ok?
    ensures var a := CreateArea(id, name, fee).value;
      CreateArea(a.id, Some(a.name), Some(a.fee)) == Ok(a) && a.fee >= 0
  {
    TrimmedNotBlank(name.value);
  }

  // ----- SizeFactory.create -----

  function CreateSize(id: Option<int>, name: Option<string>, servings: Option<string>, weight: Option<string>,
                      price: Option<int>): (r: Result<Size, Failure>)
    ensures r.Ok? <==>
      !NullOrEmptyTrimmed(name) && !NullOrEmptyTrimmed(servings) && !NullOrEmptyTrimmed(weight) && price.Some? && price.value >= 0
    ensures NullOrEmptyTrimmed(name) ==> r == Err(Validation("Nome do tamanho é obrigatório."))
    ensures !NullOrEmptyTrimmed(name) && NullOrEmptyTrimmed(servings) ==> r == Err(Validation("Rendimento é obrigatório."))
    ensures !NullOrEmptyTrimmed(name) && !NullOrEmptyTrimmed(servings) && NullOrEmptyTrimmed(weight) ==>
      r == Err(Validation("Peso é obrigatório."))
    ensures !NullOrEmptyTrimmed(name) && !NullOrEmptyTrimmed(servings) && !NullOrEmptyTrimmed(weight) && price.None? ==>
      r == Err(Validation("Preço do tamanho é obrigatório."))
    ensures (!NullOrEmptyTrimmed(name) && !NullOrEmptyTrimmed(servings) && !NullOrEmptyTrimmed(weight)
             && price.Some? && price.value < 0) ==> r == Err(Validation("Preço do tamanho não pode ser negativo."))
    ensures r.Ok? ==> r.value == Size(id, Trim(name.value), Trim(servings.value), Trim(weight.value), price)
  {
    if NullOrEmptyTrimmed(name) then Err(Validation("Nome do tamanho é obrigatório."))
    else if NullOrEmptyTrimmed(servings) then Err(Validation("Rendimento é obrigatório."))
    else if NullOrEmptyTrimmed(weight) then Err(Validation("Peso é obrigatório."))
    else if price.None? then Err(Validation("Preço do tamanho é obrigatório."))
    else if price.value < 0 then Err(Validation("Preço do tamanho não pode ser negativo."))
    else Ok(Size(id, Trim(name.value), Trim(servings.value), Trim(weight.value), price))
  }

  lemma SizeRoundTrip(id: Option<int>, name: Option<string>, servings: Option<string>, weight: Option<string>, price: Option<int>)
    requires CreateSize(id, name, servings, weight, price).Ok?
    ensures var s := CreateSize(id, name, servings, weight, price).value;
      CreateSize(s.id, Some(s.name), Some(s.servings), Some(s.weight), s.price) == Ok(s)
  {
    TrimmedNotBlank(name.value);
    TrimmedNotBlank(servings.value);
    TrimmedNotBlank(weight.value);
  }

  // ----- FlavorFactory.create -----

  function CreateFlavor(id: Option<int>, name: Option<string>, level: Option<FlavorLevel>, description: Option<string>): (r: Result<Flavor, Failure>)
    ensures r.Ok? <==> !NullOrEmptyTrimmed(name) && level.Some?
    ensures NullOrEmptyTrimmed(name) ==> r == Err(Validation("Nome do sabor é obrigatório."))
    ensures !NullOrEmptyTrimmed(name) && level.None? ==> r == Err(Validation("Nível do sabor é obrigatório."))
    ensures r.Ok? ==> r.value == Flavor(id, Trim(name.value), level, TrimToNull(description))
  {
    if NullOrEmptyTrimmed(name) then Err(Validation("Nome do sabor é obrigatório."))
    else if level.None? then Err(Validation("Nível do sabor é obrigatório."))
    else Ok(Flavor(id, Trim(name.value), level, TrimToNull(description)))
  }

  lemma FlavorRoundTrip(id: Option<int>, name: Option<string>, level: Option<FlavorLevel>, description: Option<string>)
    requires CreateFlavor(id, name, level, description).Ok?
    ensures var f := CreateFlavor(id, name, level, description).value;
      CreateFlavor(f.id, Some(f.name), f.level, f.description) == Ok(f)
  {
    TrimmedNotBlank(name.value);
    TrimToNullIdempotent(description);
  }

  // ----- FlavorLevelFactory.create -----

  function CreateFlavorLevel(id: Option<int>, name: Option<string>, price: Option<int>): (r: Result<FlavorLevel, Failure>)
    ensures r.Ok? <==> !NullOrEmptyTrimmed(name) && price.Some? && price.value >= 0
    ensures NullOrEmptyTrimmed(name) ==> r == Err(Validation("Nome do nível de sabor é obrigatório."))
    ensures !NullOrEmptyTrimmed(name) && price.None? ==> r == Err(Validation("Preço do nível de sabor é obrigatório."))
    ensures !NullOrEmptyTrimmed(name) && price.Some? && price.value < 0 ==>
      r == Err(Validation("Preço do nível de sabor não pode ser negativo."))
    ensures r.Ok? ==> r.value == FlavorLevel(id, Trim(name.value), price)
  {
    if NullOrEmptyTrimmed(name) then Err(Validation("Nome do nível de sabor é obrigatório."))
    else if price.None? then Err(Validation("Preço do nível de sabor é obrigatório."))
    else if price.value < 0 then Err(Validation("Preço do nível de sabor não pode ser negativo."))
    else Ok(FlavorLevel(id, Trim(name.value), price))
  }

  lemma FlavorLevelRoundTrip(id: Option<int>, name: Option<string>, price: Option<int>)
    requires CreateFlavorLevel(id, name, price).Ok?
    ensures var l := CreateFlavorLevel(id, name, price).value;
      CreateFlavorLevel(l.id, Some(l.name), l.price) == Ok(l)
  {
    TrimmedNotBlank(name.value);
  }

  // ----- ProductFactory.create -----

  function CreateProduct(id: Option<int>, name: Option<string>, flavor: Option<Flavor>, size: Option<Size>,
                         basePrice: Option<int>, description: Option<string>): (r: Result<Product, Failure>)
    ensures r.Ok? <==> !NullOrEmptyTrimmed(name) && flavor.Some? && size.Some? && basePrice.Some? && basePrice.value >= 0
    ensures NullOrEmptyTrimmed(name) ==> r == Err(Validation("Nome do produto é obrigatório."))
    ensures !NullOrEmptyTrimmed(name) && flavor.None? ==> r == Err(Validation("Sabor é obrigatório."))
    ensures !NullOrEmptyTrimmed(name) && flavor.Some? && size.None? ==> r == Err(Validation("Tamanho é obrigatório."))
    ensures !NullOrEmptyTrimmed(name) && flavor.Some? && size.Some? && basePrice.None? ==>
      r == Err(Validation("Preço base é obrigatório."))
    ensures !NullOrEmptyTrimmed(name) && flavor.Some? && size.Some? && basePrice.Some? && basePrice.value < 0 ==>
      r == Err(Validation("Preço base não pode ser negativo."))
    ensures r.Ok? ==> r.value == Product(id, Trim(name.value), flavor, size, basePrice, TrimToNull(description))
  {
    if NullOrEmptyTrimmed(name) then Err(Validation("Nome do produto é obrigatório."))
    else if flavor.None? then Err(Validation("Sabor é obrigatório."))
    else if size.None? then Err(Validation("Tamanho é obrigatório."))
    else if basePrice.None? then Err(Validation("Preço base é obrigatório."))
    else if basePrice.value < 0 then Err(Validation("Preço base não pode ser negativo."))
    else Ok(Product(id, Trim(name.value), flavor, size, basePrice, TrimToNull(description)))
  }

  lemma ProductRoundTrip(id: Option<int>, name: Option<string>, flavor: Option<Flavor>, size: Option<Size>,
                         basePrice: Option<int>, description: Option<string>)
    requires CreateProduct(id, name, flavor, size, basePrice, description).Ok?
    ensures var p := CreateProduct(id, name, flavor, size, basePrice, description).value;
      CreateProduct(p.id, Some(p.name), p.flavor, p.size, p.basePrice, p.description) == Ok(p)
  {
    TrimmedNotBlank(name.value);
    TrimToNullIdempotent(description);
  }
}
