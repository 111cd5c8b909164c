/** The catalogue, customer and order entities (package `model.entities`) as values.
    Money is in integer cents; a nullable Java field is an `Option`. */
module Entities {
  import opened Common

  datatype FlavorLevel = FlavorLevel(id: Option<int>, name: string, price: Option<int>)

  datatype Flavor = Flavor(id: Option<int>, name: string, level: Option<FlavorLevel>, description: Option<string>)

  /** A cake size; `servings` is the source's `yield` column (a reserved word here). */
  datatype Size = Size(id: Option<int>, name: string, servings: string, weight: string, price: Option<int>)

  datatype Product = Product(
    id: Option<int>,
    name: string,
    flavor: Option<Flavor>,
    size: Option<Size>,
    basePrice: Option<int>,
    description: Option<string>)

  /** A delivery area; its fee is a primitive `double` in the source, so it is never null. */
  datatype Area = Area(id: Option<int>, name: string, fee: int)

  datatype Address = Address(
    id: Option<int>,
    area: Option<Area>,
    cep: Option<string>,
    street: string,
    number: Option<int>,
    complement: Option<string>,
    reference: Option<string>)

  datatype Person = Person(
    id: Option<int>,
    firstName: string,
    lastName: Option<string>,
    email: string,
    address: Option<Address>)

  datatype User = User(
    idUser: Option<int>,
    idPerson: Option<int>,
    firstName: string,
    lastName: Option<string>,
    email: Option<string>,
    passwordHash: Option<string>)
}
