/**
 * The five combatant archetypes as one tag plus a table: the base stats each
 * subclass constructor writes, and the special abilities each one adds, with
 * their energy cost and damage formula.
 */
module Arquetipos {
  import opened Wrappers

  /** The JavaScript class a combatant was built from: the base class or one of its subclasses. */
  datatype Arquetipo = Generico | Humano | Guerrero | Mago | Arquero | IA

  /** A stat tuple, in the order the constructors list it. */
  datatype Stats = Stats(vida: int, maxVida: int, energia: int, maxEnergia: int,
                         ataque: int, defensa: int, velocidad: int)

  /** The class tag a constructor stores; for the base class, the default of its `clase` option. */
  function ClaseDe(a: Arquetipo): string {
    match a
    case Generico => "Explorador"
    case Humano => "Humano"
    case Guerrero => "Guerrero"
    case Mago => "Mago"
    case Arquero => "Arquero"
    case IA => "IA"
  }

  /**
   * The stats each subclass constructor writes over whatever options it is
   * given; for the base class, the defaults of its options.
   */
  function StatsBase(a: Arquetipo): (s: Stats)
    ensures s.vida == s.maxVida > 0 && s.energia == s.maxEnergia > 0
    ensures s.ataque > 0 && s.defensa > 0 && s.velocidad > 0
  {
    match a
    case Generico => Stats(100, 100, 50, 50, 10, 5, 8)
    case Humano => Stats(120, 120, 60, 60, 12, 8, 7)
    case Guerrero => Stats(150, 150, 40, 40, 18, 12, 5)
    case Mago => Stats(80, 80, 100, 100, 15, 4, 6)
    case Arquero => Stats(100, 100, 60, 60, 14, 6, 12)
    case IA => Stats(100, 100, 70, 70, 10, 6, 9)
  }

  // ==================== random rolls ====================

  /** A draw of `Math.random()`. */
  predicate Unidad(u: real) {
    0.0 <= u < 1.0
  }

  /** `Math.floor(Math.random() * caras)` for the draw `u`. */
  function Dado(u: real, caras: nat): (r: int)
    requires Unidad(u) && caras > 0
    ensures 0 <= r < caras
    ensures r as real <= u * (caras as real) < r as real + 1.0
  {
    assert u * (caras as real) < caras as real by {
      assert (1.0 - u) * (caras as real) > 0.0;
    }
    (u * (caras as real)).Floor
  }

  /** `Math.max(1, x)` on integers. */
  function AlMenosUno(x: int): (m: int)
    ensures m >= 1 && m >= x && (m == 1 || m == x)
  {
    if x > 1 then x else 1
  }

  /** `Math.max(1, x)` on reals. */
  function AlMenosUnoReal(x: real): (m: real)
    ensures m >= 1.0 && m >= x && (m == 1.0 || m == x)
  {
    if x > 1.0 then x else 1.0
  }

  // ==================== the basic attack ====================

  /** Damage of the basic attack: ataque minus the target's defensa plus a roll in [0,4], at least 1. */
  function DanoAtacar(ataque: int, defensa: int, u: real): (d: int)
    requires Unidad(u)
    ensures d >= 1
    ensures ataque - defensa + 4 <= 1 ==> d == 1
    ensures ataque - defensa >= 1 ==> ataque - defensa <= d <= ataque - defensa + 4
  {
    AlMenosUno(ataque - defensa + Dado(u, 5))
  }

  // ==================== the ability table ====================

  /** The special abilities; `Curar` is the Mago self-heal, every other one strikes the target. */
  datatype Habilidad =
    AtaqueDoble | AtaquePrecision | GolpeDevastador | BolaFuego | Curar | LluviaFlechas | FlechaPenetrante

  /** The subclass that defines the ability. */
  function Propietario(h: Habilidad): Arquetipo {
    match h
    case AtaqueDoble => Humano
    case AtaquePrecision => IA
    case GolpeDevastador => Guerrero
    case BolaFuego => Mago
    case Curar => Mago
    case LluviaFlechas => Arquero
    case FlechaPenetrante => Arquero
  }

  /** The energy an ability checks for before acting. */
  function Coste(h: Habilidad): (c: int)
    ensures 6 <= c <= 12
  {
    match h
    case AtaqueDoble => 8
    case AtaquePrecision => 6
    case GolpeDevastador => 10
    case BolaFuego => 12
    case Curar => 8
    case LluviaFlechas => 9
    case FlechaPenetrante => 7
  }

  /** The action id the battle menu uses for the ability. */
  function IdAccion(h: Habilidad): string {
    match h
    case AtaqueDoble => "ataqueDoble"
    case AtaquePrecision => "ataquePrecision"
    case GolpeDevastador => "golpeDevastador"
    case BolaFuego => "bolaFuego"
    case Curar => "curar"
    case LluviaFlechas => "lluviaFlechas"
    case FlechaPenetrante => "flechaPenetrante"
  }

  /** The ability an action id names, if any; the inverse of IdAccion. */
  function HabilidadDeId(s: string): (r: Option<Habilidad>)
    ensures r.Some? ==> IdAccion(r.value) == s
    ensures forall h :: IdAccion(h) == s ==> r == Some(h)
  {
    if s == "ataqueDoble" then Some(AtaqueDoble)
    else if s == "ataquePrecision" then Some(AtaquePrecision)
    else if s == "golpeDevastador" then Some(GolpeDevastador)
    else if s == "bolaFuego" then Some(BolaFuego)
    else if s == "curar" then Some(Curar)
    else if s == "lluviaFlechas" then Some(LluviaFlechas)
    else if s == "flechaPenetrante" then Some(FlechaPenetrante)
    else None
  }

  /** The `accion` label an ability reports on success. */
  function Etiqueta(h: Habilidad): string {
    match h
    case AtaqueDoble => "Ataque Doble"
    case AtaquePrecision => "Ataque de Precisión"
    case GolpeDevastador => "Golpe Devastador"
    case BolaFuego => "Bola de Fuego"
    case Curar => "Curar"
    case LluviaFlechas => "Lluvia de Flechas"
    case FlechaPenetrante => "Flecha Penetrante"
  }

  /** How many separate hits an ability lands on its target. */
  function Golpes(h: Habilidad): (n: nat)
    ensures h == Curar <==> n == 0
    ensures h == AtaqueDoble <==> n == 2
    ensures h == LluviaFlechas <==> n == 3
    ensures h !in {Curar, AtaqueDoble, LluviaFlechas} <==> n == 1
  {
    match h
    case AtaqueDoble => 2
    case LluviaFlechas => 3
    case Curar => 0
    case _ => 1
  }

  /** How many faces the random bonus of each hit has: the bonus lies in [0, Caras(h) - 1]. */
  function Caras(h: Habilidad): (k: nat)
    ensures k > 0
  {
    match h
    case AtaqueDoble => 3
    case AtaquePrecision => 8
    case GolpeDevastador => 10
    case BolaFuego => 12
    case Curar => 1
    case LluviaFlechas => 4
    case FlechaPenetrante => 6
  }

  /**
   * The part of a hit's damage that does not depend on the roll: the attack
   * multiplier (2, 9/5 or 3/2 where the ability has one) minus the target's
   * defense, reduced to floor(defensa/2) for BolaFuego and floor(3·defensa/10)
   * for FlechaPenetrante.
   */
  function Fuerza(h: Habilidad, ataque: int, defensa: int): real
    requires h != Curar
  {
    match h
    case AtaqueDoble => (ataque - defensa) as real
    case LluviaFlechas => (ataque - defensa) as real
    case GolpeDevastador => (2 * ataque - defensa) as real
    case BolaFuego => (9.0 / 5.0) * (ataque as real) - ((defensa / 2) as real)
    case FlechaPenetrante => (3.0 / 2.0) * (ataque as real) - (((3 * defensa) / 10) as real)
    case AtaquePrecision => (3.0 / 2.0) * (ataque as real) - (defensa as real)
  }

  /** Whether every hit of the ability deals a whole number of points. */
  predicate DanoEntero(h: Habilidad) {
    h == AtaqueDoble || h == LluviaFlechas || h == GolpeDevastador
  }

  /**
   * The damage of one hit of ability `h` for the draw `u`: at least 1, the
   * fixed part plus a roll in [0, Caras(h) - 1], whole for the abilities that
   * have no fractional multiplier.
   */
  function DanoGolpe(h: Habilidad, ataque: int, defensa: int, u: real): (d: real)
    requires h != Curar && Unidad(u)
    ensures d >= 1.0
    ensures DanoEntero(h) ==> d == d.Floor as real
    ensures Fuerza(h, ataque, defensa) >= 1.0 ==>
              Fuerza(h, ataque, defensa) <= d <= Fuerza(h, ataque, defensa) + (Caras(h) - 1) as real
    ensures Fuerza(h, ataque, defensa) + (Caras(h) - 1) as real <= 1.0 ==> d == 1.0
  {
    match h
    case AtaqueDoble => AlMenosUno(ataque - defensa + Dado(u, 3)) as real
    case LluviaFlechas => AlMenosUno(ataque - defensa + Dado(u, 4)) as real
    case GolpeDevastador => AlMenosUno(2 * ataque - defensa + Dado(u, 10)) as real
    case BolaFuego =>
      AlMenosUnoReal((9.0 / 5.0) * (ataque as real) - ((defensa / 2) as real) + (Dado(u, 12) as real))
    case FlechaPenetrante =>
      AlMenosUnoReal((3.0 / 2.0) * (ataque as real) - (((3 * defensa) / 10) as real) + (Dado(u, 6) as real))
    case AtaquePrecision =>
      AlMenosUnoReal((3.0 / 2.0) * (ataque as real) - (defensa as real) + (Dado(u, 8) as real))
  }

  /** Some damage is fractional: a Mago whose attack has grown to 16 hits an undefended target for 28.8 with a zero roll. */
  lemma DanoFraccionario()
    ensures DanoGolpe(BolaFuego, 16, 0, 0.0) == 28.8
    ensures DanoGolpe(BolaFuego, 16, 0, 0.0) != DanoGolpe(BolaFuego, 16, 0, 0.0).Floor as real
  {
    assert Dado(0.0, 12) == 0;
  }
}
