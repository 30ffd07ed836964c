/** The JSON values that `toJSON` produces and `fromJSON` reads back. */
module Json {
  import opened Wrappers

  /** A JSON value. Every number is a JavaScript double, kept here as an exact real. */
  datatype Valor =
    | Nulo
    | Numero(n: real)
    | Texto(s: string)
    | Lista(elementos: seq<Valor>)
    | Objeto(campos: map<string, Valor>)

  /** The value stored under key `k` of an object, if there is one. */
  function Campo(v: Valor, k: string): (r: Option<Valor>)
    ensures r.Some? <==> v.Objeto? && k in v.campos
  {
    if v.Objeto? && k in v.campos then Some(v.campos[k]) else None
  }

  /** A required string field: absent or not a string gives None. */
  function LeerTexto(v: Valor, k: string): (r: Option<string>)
    ensures r.Some? ==> Campo(v, k) == Some(Texto(r.value))
  {
    match Campo(v, k)
    case Some(Texto(s)) => Some(s)
    case _ => None
  }

  /** An integral number. */
  function AEntero(v: Valor): (r: Option<int>)
    ensures r.Some? ==> v == Numero(r.value as real)
  {
    if v.Numero? && v.n.Floor as real == v.n then Some(v.n.Floor) else None
  }

  /**
   * A number field with a destructuring default: an absent key gives
   * `porDefecto`, an integral number gives that number, anything else None.
   */
  function LeerEntero(v: Valor, k: string, porDefecto: int): (r: Option<int>)
    ensures Campo(v, k).None? ==> r == Some(porDefecto)
    ensures Campo(v, k).Some? ==> r == AEntero(Campo(v, k).value)
  {
    match Campo(v, k)
    case None => Some(porDefecto)
    case Some(x) => AEntero(x)
  }

  /** A real number field with a destructuring default. */
  function LeerReal(v: Valor, k: string, porDefecto: real): (r: Option<real>)
    ensures Campo(v, k).None? ==> r == Some(porDefecto)
    ensures Campo(v, k).Some? && Campo(v, k).value.Numero? ==> r == Some(Campo(v, k).value.n)
  {
    match Campo(v, k)
    case None => Some(porDefecto)
    case Some(Numero(x)) => Some(x)
    case Some(_) => None
  }

  /** A string field with a destructuring default. */
  function LeerTextoO(v: Valor, k: string, porDefecto: string): (r: Option<string>)
    ensures Campo(v, k).None? ==> r == Some(porDefecto)
    ensures Campo(v, k).Some? ==> r == LeerTexto(v, k)
  {
    match Campo(v, k)
    case None => Some(porDefecto)
    case Some(Texto(s)) => Some(s)
    case Some(_) => None
  }
}
