/**
 * Inventory items as values: the base item record, the four concrete kinds
 * with their type-specific magnitude, and their JSON form. What an item does
 * to a combatant when used is in module Combatientes, next to the combatant
 * operations it calls.
 */
module Items {
  import opened Wrappers
  import opened Json

  /** The concrete class of an item and its own fields. */
  datatype Efecto =
    | Base                                            // the abstract Item itself
    | Pocion(curacion: int)
    | Energia(bonusEnergia: int)
    | Arma(bonusAtaque: int, bonusVelocidad: int)
    | Armadura(bonusDefensa: int, bonusVida: int)

  /** An item: the five base fields and its kind. */
  datatype Item = Item(id: string, nombre: string, descripcion: string, tipo: string,
                       valor: int, efecto: Efecto)

  /** The type tag each concrete item constructor forces. */
  function TipoDe(e: Efecto): string {
    match e
    case Base => ""
    case Pocion(_) => "pocion"
    case Energia(_) => "energia"
    case Arma(_, _) => "arma"
    case Armadura(_, _) => "armadura"
  }

  /** An item whose tag is the one its constructor would have written. */
  predicate BienFormado(i: Item) {
    i.efecto.Base? || i.tipo == TipoDe(i.efecto)
  }

  // ==================== constructors ====================

  /** `new Item({...})`: stores the fields as given, `valor` defaulting to 0. */
  function NuevoItem(id: string, nombre: string, descripcion: string, tipo: string,
                     valor: Option<int>): (i: Item)
    ensures i.id == id && i.nombre == nombre && i.descripcion == descripcion && i.tipo == tipo
    ensures i.valor == (if valor.Some? then valor.value else 0)
    ensures i.efecto == Base
  {
    Item(id, nombre, descripcion, tipo, valor.GetOr(0), Base)
  }

  /** `new Pocion({...})`: type 'pocion', whatever the options say. */
  function NuevaPocion(id: string, nombre: string, descripcion: string, curacion: int,
                       valor: Option<int>): (i: Item)
    ensures BienFormado(i) && i.tipo == "pocion" && i.efecto == Pocion(curacion)
    ensures i.valor == (if valor.Some? then valor.value else 0)
  {
    NuevoItem(id, nombre, descripcion, "pocion", valor).(efecto := Pocion(curacion))
  }

  /** `new Energia({...})`: type 'energia'. */
  function NuevaEnergia(id: string, nombre: string, descripcion: string, bonusEnergia: int,
                        valor: Option<int>): (i: Item)
    ensures BienFormado(i) && i.tipo == "energia" && i.efecto == Energia(bonusEnergia)
    ensures i.valor == (if valor.Some? then valor.value else 0)
  {
    NuevoItem(id, nombre, descripcion, "energia", valor).(efecto := Energia(bonusEnergia))
  }

  /** `new Arma({...})`: type 'arma'; bonusVelocidad and valor default to 0. */
  function NuevaArma(id: string, nombre: string, descripcion: string, bonusAtaque: int,
                     bonusVelocidad: Option<int>, valor: Option<int>): (i: Item)
    ensures BienFormado(i) && i.tipo == "arma"
    ensures i.efecto == Arma(bonusAtaque, if bonusVelocidad.Some? then bonusVelocidad.value else 0)
    ensures i.valor == (if valor.Some? then valor.value else 0)
  {
    NuevoItem(id, nombre, descripcion, "arma", valor).(efecto := Arma(bonusAtaque, bonusVelocidad.GetOr(0)))
  }

  /** `new Armadura({...})`: type 'armadura'; bonusVida and valor default to 0. */
  function NuevaArmadura(id: string, nombre: string, descripcion: string, bonusDefensa: int,
                         bonusVida: Option<int>, valor: Option<int>): (i: Item)
    ensures BienFormado(i) && i.tipo == "armadura"
    ensures i.efecto == Armadura(bonusDefensa, if bonusVida.Some? then bonusVida.value else 0)
    ensures i.valor == (if valor.Some? then valor.value else 0)
  {
    NuevoItem(id, nombre, descripcion, "armadura", valor).(efecto := Armadura(bonusDefensa, bonusVida.GetOr(0)))
  }

  // ==================== equipping ====================

  /** The bonus record `equipar` returns. */
  datatype Bonos =
    | BonosArma(bonusAtaque: int, bonusVelocidad: int)
    | BonosArmadura(bonusDefensa: int, bonusVida: int)

  /**
   * `equipar` on a weapon or an armour: the item's own bonuses, and nothing
   * about any combatant (the explorer argument is never read or changed).
   */
  function Equipar(i: Item): (b: Bonos)
    requires i.efecto.Arma? || i.efecto.Armadura?
    ensures b.BonosArma? <==> i.efecto.Arma?
    ensures i.efecto.Arma? ==> b == BonosArma(i.efecto.bonusAtaque, i.efecto.bonusVelocidad)
    ensures i.efecto.Armadura? ==> b == BonosArmadura(i.efecto.bonusDefensa, i.efecto.bonusVida)
  {
    match i.efecto
    case Arma(a, v) => BonosArma(a, v)
    case Armadura(d, v) => BonosArmadura(d, v)
  }

  /** Equipping a freshly built weapon or armour gives back the bonuses it was built with, a missing one as 0. */
  lemma EquiparNuevo(id: string, nombre: string, descripcion: string, x: int, y: Option<int>, valor: Option<int>)
    ensures Equipar(NuevaArma(id, nombre, descripcion, x, y, valor)) == BonosArma(x, y.GetOr(0))
    ensures Equipar(NuevaArmadura(id, nombre, descripcion, x, y, valor)) == BonosArmadura(x, y.GetOr(0))
    ensures y.None? ==> Equipar(NuevaArma(id, nombre, descripcion, x, y, valor)).bonusVelocidad == 0
  {
  }

  // ==================== JSON ====================

  function Num(n: int): Valor {
    Numero(n as real)
  }

  /** The five base fields of `Item.toJSON`. */
  function CamposBase(i: Item): map<string, Valor> {
    map["id" := Texto(i.id), "nombre" := Texto(i.nombre), "descripcion" := Texto(i.descripcion),
        "tipo" := Texto(i.tipo), "valor" := Num(i.valor)]
  }

  /** The fields a concrete kind adds to the base ones. */
  function CamposPropios(e: Efecto): map<string, Valor> {
    match e
    case Base => map[]
    case Pocion(c) => map["curacion" := Num(c)]
    case Energia(b) => map["bonusEnergia" := Num(b)]
    case Arma(a, v) => map["bonusAtaque" := Num(a), "bonusVelocidad" := Num(v)]
    case Armadura(d, v) => map["bonusDefensa" := Num(d), "bonusVida" := Num(v)]
  }

  /** The keys `toJSON` writes for each kind. */
  function ClavesDe(e: Efecto): set<string> {
    {"id", "nombre", "descripcion", "tipo", "valor"} +
    match e
    case Base => {}
    case Pocion(_) => {"curacion"}
    case Energia(_) => {"bonusEnergia"}
    case Arma(_, _) => {"bonusAtaque", "bonusVelocidad"}
    case Armadura(_, _) => {"bonusDefensa", "bonusVida"}
  }

  /** `toJSON`: exactly the base fields plus the kind's own. */
  function ToJson(i: Item): (j: Valor)
    ensures j.Objeto? && j.campos.Keys == ClavesDe(i.efecto)
    ensures forall k :: k in CamposBase(i) ==> j.campos[k] == CamposBase(i)[k]
  {
    Objeto(CamposBase(i) + CamposPropios(i.efecto))
  }

  /** Reading an item's JSON back with its own class's `fromJSON` gives the same item. */
  lemma FromJsonToJson(i: Item)
    requires BienFormado(i)
    ensures FromJson(i.efecto, ToJson(i)) == Some(i)
  {
    var j := ToJson(i);
    assert LeerTexto(j, "id") == Some(i.id);
    assert LeerTexto(j, "nombre") == Some(i.nombre);
    assert LeerTexto(j, "descripcion") == Some(i.descripcion);
    assert LeerEntero(j, "valor", 0) == Some(i.valor);
    match i.efecto
    case Base =>
      assert LeerTexto(j, "tipo") == Some(i.tipo);
    case Pocion(c) =>
      assert LeerRequerido(j, "curacion") == Some(c);
    case Energia(b) =>
      assert LeerRequerido(j, "bonusEnergia") == Some(b);
    case Arma(a, v) =>
      assert LeerRequerido(j, "bonusAtaque") == Some(a);
      assert LeerEntero(j, "bonusVelocidad", 0) == Some(v);
    case Armadura(d, v) =>
      assert LeerRequerido(j, "bonusDefensa") == Some(d);
      assert LeerEntero(j, "bonusVida", 0) == Some(v);
  }

  /**
   * `fromJSON` of the class `clase` is of: `new X(data)`. The base fields are
   * required strings, `valor` defaults to 0, the concrete kinds ignore the
   * stored tag and write their own. A required field that is absent or of
   * the wrong type gives None.
   */
  function FromJson(clase: Efecto, j: Valor): (r: Option<Item>)
    ensures r.Some? ==> r.value.efecto.Base? == clase.Base?
    ensures r.Some? && !clase.Base? ==> BienFormado(r.value)
  {
    match (LeerTexto(j, "id"), LeerTexto(j, "nombre"), LeerTexto(j, "descripcion"), LeerEntero(j, "valor", 0))
    case (Some(id), Some(nombre), Some(descripcion), Some(valor)) =>
      (match clase
      case Base =>
        (match LeerTexto(j, "tipo")
         case Some(tipo) => Some(NuevoItem(id, nombre, descripcion, tipo, Some(valor)))
         case None => None)
      case Pocion(_) =>
        (match LeerRequerido(j, "curacion")
         case Some(c) => Some(NuevaPocion(id, nombre, descripcion, c, Some(valor)))
         case None => None)
      case Energia(_) =>
        (match LeerRequerido(j, "bonusEnergia")
         case Some(b) => Some(NuevaEnergia(id, nombre, descripcion, b, Some(valor)))
         case None => None)
      case Arma(_, _) =>
        (match (LeerRequerido(j, "bonusAtaque"), LeerEntero(j, "bonusVelocidad", 0))
         case (Some(a), Some(v)) => Some(NuevaArma(id, nombre, descripcion, a, Some(v), Some(valor)))
         case _ => None)
      case Armadura(_, _) =>
        (match (LeerRequerido(j, "bonusDefensa"), LeerEntero(j, "bonusVida", 0))
         case (Some(d), Some(v)) => Some(NuevaArmadura(id, nombre, descripcion, d, Some(v), Some(valor)))
         case _ => None))
    case _ => None
  }

  /** A number field with no default: absent, or not an integer, gives None. */
  function LeerRequerido(j: Valor, k: string): (r: Option<int>)
    ensures r.Some? ==> Campo(j, k) == Some(Num(r.value))
  {
    match Campo(j, k)
    case Some(x) => AEntero(x)
    case None => None
  }
}
