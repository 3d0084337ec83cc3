/** Values shared by every page: optional values, record identifiers and the
    reference records the backend returns (people, vehicles, named entities,
    system users). */
module Domain {

  /** JavaScript's `null`/`undefined` versus a present value. */
  datatype Option<+T> = None | Some(value: T)

  /** A database key. Keys start at 1, so an identifier is always truthy in
      JavaScript and `id || ""` leaves it unchanged. */
  type Id = x: int | 1 <= x witness 1

  /** A person as listed by `GET /pessoas`. `tipo` is the type name the list
      joins in; it may be missing. */
  datatype Person = Person(
    id: Id,
    nome: string,
    documento: string,
    telefone: Option<string>,
    tipoPessoaId: Id,
    tipo: Option<string>)

  /** A vehicle as listed by `GET /veiculos`. Model and colour are nullable. */
  datatype Vehicle = Vehicle(
    id: Id,
    placa: string,
    modelo: Option<string>,
    cor: Option<string>,
    frotaPropria: bool)

  /** A sector, control post or city: an identifier and a name. */
  datatype Named = Named(id: Id, nome: string)

  /** The signed-in system user returned by `POST /login`. */
  datatype User = User(id: Id, nome: Option<string>, email: string, tipoDeUsuario: string)

  /** JavaScript's `s || ""` on a nullable string. */
  function OrEmpty(s: Option<string>): string
  {
    if s.Some? then s.value else ""
  }

  /** A loosely typed field of a record the backend returns, where the page
      copies the value without looking at its type. `Undefined` is a field
      set to `undefined` on the page, which never arrives from the backend. */
  datatype Json = Null | Undefined | Num(n: int) | Str(s: string)

  /** JavaScript truthiness: `null`, `undefined`, `0` and `""` are falsy. */
  predicate Truthy(v: Json)
  {
    match v
    case Null => false
    case Undefined => false
    case Num(n) => n != 0
    case Str(s) => s != ""
  }

  /** `v || ""`: a falsy value becomes the empty string. */
  function OrEmptyJson(v: Json): (r: Json)
    ensures Truthy(r) == Truthy(v)
    ensures Truthy(v) ==> r == v
    ensures !Truthy(v) ==> r == Str("")
  {
    if Truthy(v) then v else Str("")
  }

  /** `JSON.stringify` writes a key unless its value is `undefined`, so only
      such a field is missing from a request body. */
  predicate InBody(v: Json)
  {
    !v.Undefined?
  }
}
