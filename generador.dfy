/**
 * The enemy factory: a weighted choice of enemy class from one draw, the
 * generator's own base-stat table, the level-based scaling, the level jitter
 * and the boss recipe. The generator object only holds two constant tables,
 * so they are module constants here and its operations module members.
 */
module Generador {
  import opened Wrappers
  import opened Arquetipos
  import opened Combatientes

  /** An entry of the enemy-type table: a class name and its weight. */
  datatype TipoEnemigo = TipoEnemigo(clase: string, probabilidad: real)

  /** The base names an ordinary enemy's name is drawn from. */
  const NombresEnemigos: seq<string> :=
    ["Drone Espacial", "Robot Asesino", "Alien Depredador", "Pirata Espacial",
     "Mercenario", "Ciborg Rebelde", "Entidad Oscura", "Guerrero Perdido",
     "Mago Caído", "Arquero Fantasma", "Golem Espacial", "Dragón Cósmico"]

  /** The enemy classes in selection order, with weights 0.3, 0.25, 0.25 and 0.2. */
  const TiposEnemigos: seq<TipoEnemigo> :=
    [TipoEnemigo("IA", 3.0 / 10.0), TipoEnemigo("Guerrero", 1.0 / 4.0),
     TipoEnemigo("Mago", 1.0 / 4.0), TipoEnemigo("Arquero", 1.0 / 5.0)]

  /** The names a boss is drawn from. */
  const NombresBoss: seq<string> :=
    ["Señor de la Guerra Espacial", "Emperador Oscuro", "Reina de los Piratas",
     "Gran Dragón Cósmico", "Líder de los Ciborgs", "Maestro de las Sombras"]

  // ==================== type selection ====================

  /** The sum of the first `k` weights of the table. */
  function Acumulada(tipos: seq<TipoEnemigo>, k: nat): real
    requires k <= |tipos|
  {
    if k == 0 then 0.0 else Acumulada(tipos, k - 1) + tipos[k - 1].probabilidad
  }

  /** The running sums of the weights: 0.3, 0.55, 0.8 and exactly 1. */
  lemma SumasDeLosPesos()
    ensures Acumulada(TiposEnemigos, 1) == 3.0 / 10.0
    ensures Acumulada(TiposEnemigos, 2) == 11.0 / 20.0
    ensures Acumulada(TiposEnemigos, 3) == 4.0 / 5.0
    ensures Acumulada(TiposEnemigos, 4) == 1.0
  {
    assert Acumulada(TiposEnemigos, 0) == 0.0;
  }

  /**
   * The class picked for a draw, stated by thresholds: up to 0.3 IA, up to
   * 0.55 Guerrero, up to 0.8 Mago, up to 1 Arquero, and the 'IA' fallback beyond.
   */
  function TipoPorUmbral(r: real): string {
    if r <= 3.0 / 10.0 then "IA"
    else if r <= 11.0 / 20.0 then "Guerrero"
    else if r <= 4.0 / 5.0 then "Mago"
    else if r <= 1.0 then "Arquero"
    else "IA"
  }

  /**
   * `seleccionarTipoEnemigo` for the draw `random`: walks the table adding
   * each weight to a running sum and returns the first class whose sum
   * reaches the draw, 'IA' when none does.
   */
  method SeleccionarTipoEnemigo(random: real) returns (clase: string)
    ensures clase == TipoPorUmbral(random)
  {
    SumasDeLosPesos();
    var acumulado := 0.0;
    var i := 0;
    while i < |TiposEnemigos|
      invariant 0 <= i <= |TiposEnemigos|
      invariant acumulado == Acumulada(TiposEnemigos, i)
      invariant i > 0 ==> random > acumulado
    {
      acumulado := acumulado + TiposEnemigos[i].probabilidad;
      if random <= acumulado {
        return TiposEnemigos[i].clase;
      }
      i := i + 1;
    }
    return "IA";
  }

  /** Exact weights sum to 1, so for a draw in [0, 1] the loop always answers from the table. */
  lemma SinRespaldo(r: real)
    requires 0.0 <= r <= 1.0
    ensures r <= Acumulada(TiposEnemigos, |TiposEnemigos|)
    ensures TipoPorUmbral(r) in {"IA", "Guerrero", "Mago", "Arquero"}
    ensures TipoPorUmbral(r) == "IA" <==> r <= 3.0 / 10.0
  {
    SumasDeLosPesos();
  }

  // ==================== stats ====================

  /** `crearEnemigo`'s switch: the four enemy classes by name, any other name building an IA. */
  function ArquetipoEnemigo(tipo: string): (a: Arquetipo)
    ensures a != Generico && a != Humano
    ensures tipo in {"IA", "Guerrero", "Mago", "Arquero"} ==> ClaseDe(a) == tipo
    ensures tipo !in {"IA", "Guerrero", "Mago", "Arquero"} ==> a == IA
  {
    if tipo == "Guerrero" then Guerrero
    else if tipo == "Mago" then Mago
    else if tipo == "Arquero" then Arquero
    else IA
  }

  /**
   * `obtenerStatsBase`: the generator's own table of base stats, falling back
   * to the IA entry for an unknown name. It agrees entry by entry with the
   * stats the subclass constructors write.
   */
  function ObtenerStatsBase(tipo: string): (s: Stats)
    ensures s == StatsBase(ArquetipoEnemigo(tipo))
    ensures tipo !in {"IA", "Guerrero", "Mago", "Arquero"} ==> s == StatsBase(IA)
  {
    if tipo == "IA" then Stats(100, 100, 70, 70, 10, 6, 9)
    else if tipo == "Guerrero" then Stats(150, 150, 40, 40, 18, 12, 5)
    else if tipo == "Mago" then Stats(80, 80, 100, 100, 15, 4, 6)
    else if tipo == "Arquero" then Stats(100, 100, 60, 60, 14, 6, 12)
    else Stats(100, 100, 70, 70, 10, 6, 9)
  }

  /** `Math.floor(x * m)`: the largest whole number not above the product. */
  function Escalar(x: int, m: real): (y: int)
    ensures y as real <= (x as real) * m < (y + 1) as real
    ensures m == 1.0 ==> y == x
    ensures m >= 1.0 && x >= 0 ==> y >= x
  {
    ProductoNoMenor(x, m);
    ((x as real) * m).Floor
  }

  lemma ProductoNoMenor(x: int, m: real)
    ensures m >= 1.0 && x >= 0 ==> (x as real) * m >= x as real
  {
    if m >= 1.0 && x >= 0 {
      assert (x as real) * (m - 1.0) >= 0.0;
    }
  }

  /** `escalarStats`: every stat multiplied by `m` and floored; the identity at 1, never lower above 1. */
  function EscalarStats(s: Stats, m: real): (e: Stats)
    ensures m == 1.0 ==> e == s
    ensures m >= 1.0 && s.vida >= 0 && s.maxVida >= 0 && s.energia >= 0 && s.maxEnergia >= 0 &&
            s.ataque >= 0 && s.defensa >= 0 && s.velocidad >= 0 ==>
              e.vida >= s.vida && e.maxVida >= s.maxVida && e.energia >= s.energia &&
              e.maxEnergia >= s.maxEnergia && e.ataque >= s.ataque && e.defensa >= s.defensa &&
              e.velocidad >= s.velocidad
  {
    Stats(Escalar(s.vida, m), Escalar(s.maxVida, m), Escalar(s.energia, m), Escalar(s.maxEnergia, m),
          Escalar(s.ataque, m), Escalar(s.defensa, m), Escalar(s.velocidad, m))
  }

  /** The difficulty multiplier 1 + (n - 1)·0.2: exactly 1 at level 1, growing by 1/5 per level. */
  function Multiplicador(nivelJugador: int): (m: real)
    ensures nivelJugador == 1 ==> m == 1.0
    ensures nivelJugador >= 1 ==> m >= 1.0
    ensures m == ((4 + nivelJugador) as real) / 5.0
  {
    1.0 + ((nivelJugador - 1) as real) * (1.0 / 5.0)
  }

  /** At the first level the scaling changes nothing. */
  lemma EscaladoNeutroEnNivelUno(tipo: string)
    ensures EscalarStats(ObtenerStatsBase(tipo), Multiplicador(1)) == ObtenerStatsBase(tipo)
  {
  }

  /** `Math.max(1, n + k - 1)` for the roll k in {0, 1, 2}: at least 1, within one level of n. */
  function NivelEnemigo(nivelJugador: int, u: real): (n: int)
    requires Unidad(u)
    ensures n >= 1
    ensures nivelJugador >= 2 ==> nivelJugador - 1 <= n <= nivelJugador + 1
    ensures nivelJugador == 1 ==> 1 <= n <= 2
  {
    AlMenosUno(nivelJugador + Dado(u, 3) - 1)
  }

  // ==================== names ====================

  /** The character of a decimal digit. */
  function Digito(d: int): (c: char)
    requires 0 <= d < 10
    ensures '0' <= c <= '9' && c as int - '0' as int == d
  {
    "0123456789"[d]
  }

  /** How JavaScript writes a non-negative integer into a template string: its decimal numeral. */
  function Decimal(n: nat): (s: string)
    ensures |s| >= 1 && forall k :: 0 <= k < |s| ==> '0' <= s[k] <= '9'
    ensures n < 10 <==> |s| == 1
    decreases n
  {
    if n < 10 then [Digito(n)] else Decimal(n / 10) + [Digito(n % 10)]
  }

  /** The number a string of decimal digits denotes. */
  function ValorDecimal(s: string): int {
    if |s| == 0 then 0 else 10 * ValorDecimal(s[..|s| - 1]) + (s[|s| - 1] as int - '0' as int)
  }

  /** Reading the numeral back gives the number, so distinct suffixes give distinct names. */
  lemma {:induction false} ValorDeDecimal(n: nat)
    ensures ValorDecimal(Decimal(n)) == n
    decreases n
  {
    if n >= 10 {
      var s := Decimal(n);
      assert s[..|s| - 1] == Decimal(n / 10);
      ValorDeDecimal(n / 10);
    }
  }

  /** `generarNombreEnemigo` for its two draws: a base name from the list, a space, and a number below 1000. */
  function GenerarNombreEnemigo(u1: real, u2: real): (r: string)
    requires Unidad(u1) && Unidad(u2)
    ensures exists k, sufijo :: 0 <= k < |NombresEnemigos| && 0 <= sufijo < 1000 &&
              r == NombresEnemigos[k] + " " + Decimal(sufijo)
  {
    var k := Dado(u1, |NombresEnemigos|);
    var sufijo := Dado(u2, 1000);
    NombresEnemigos[k] + " " + Decimal(sufijo)
  }

  /** `generarNombreBoss`: one of the six boss names. */
  function GenerarNombreBoss(u: real): (r: string)
    requires Unidad(u)
    ensures r in NombresBoss
  {
    NombresBoss[Dado(u, |NombresBoss|)]
  }

  // ==================== enemies ====================

  /** The draws `generarEnemigo` makes, in order: type, base name, name suffix, level jitter. */
  datatype TiradaEnemigo = TiradaEnemigo(tipo: real, nombre: real, sufijo: real, nivel: real)

  predicate TiradaEnemigoValida(t: TiradaEnemigo) {
    Unidad(t.tipo) && Unidad(t.nombre) && Unidad(t.sufijo) && Unidad(t.nivel)
  }

  /** The options object spread into a constructor: id, name, level and a stat tuple. */
  function Datos(id: string, nombre: string, nivel: int, s: Stats): (o: Opciones)
    ensures o.id == id && o.nombre == nombre && o.nivel == Some(nivel)
    ensures o.clase == None && o.experiencia == None
    ensures o.vida == Some(s.vida as real) && o.maxVida == Some(s.maxVida) && o.ataque == Some(s.ataque)
  {
    Opciones(id, nombre, None, Some(nivel), None, Some(s.vida as real), Some(s.maxVida),
             Some(s.energia), Some(s.maxEnergia), Some(s.ataque), Some(s.defensa), Some(s.velocidad))
  }

  /** The combatant holds exactly the base stats of its class, at full health and energy, with no items. */
  ghost predicate ConStatsDeClase(e: Explorador, a: Arquetipo)
    reads e
  {
    e.arquetipo == a && e.clase == ClaseDe(a) &&
    e.vida == StatsBase(a).vida as real && e.maxVida == StatsBase(a).maxVida &&
    e.energia == StatsBase(a).energia && e.maxEnergia == StatsBase(a).maxEnergia &&
    e.ataque == StatsBase(a).ataque && e.defensa == StatsBase(a).defensa &&
    e.velocidad == StatsBase(a).velocidad &&
    e.experiencia == 0 && e.inventario == [] && e.energiaPublica == None
  }

  /** `crearEnemigo`: the subclass named by `tipo`, an IA for any other name, built from `datos`. */
  method CrearEnemigo(tipo: string, datos: Opciones) returns (e: Explorador)
    ensures fresh(e)
    ensures e.arquetipo == ArquetipoEnemigo(tipo) && e.id == datos.id && e.nombre == datos.nombre
    ensures e.Actual() == FichaInicial(ArquetipoEnemigo(tipo), datos)
    ensures datos.experiencia == None ==> ConStatsDeClase(e, ArquetipoEnemigo(tipo))
    ensures datos.experiencia == None && datos.nivel.GetOr(1) >= 1 ==> e.Valido()
  {
    e := new Explorador(ArquetipoEnemigo(tipo), datos);
  }

  /**
   * `generarEnemigo(nivelJugador)` with the draws `t` and the fresh id `id`.
   * The scaled stats it computes are passed to the subclass constructor,
   * which overwrites them: the enemy has its class's base stats at any level.
   */
  method GenerarEnemigo(nivelJugador: int, id: string, t: TiradaEnemigo) returns (e: Explorador)
    requires TiradaEnemigoValida(t)
    ensures fresh(e) && e.Valido()
    ensures ConStatsDeClase(e, ArquetipoEnemigo(TipoPorUmbral(t.tipo)))
    ensures e.id == id && e.nombre == GenerarNombreEnemigo(t.nombre, t.sufijo)
    ensures e.nivel == NivelEnemigo(nivelJugador, t.nivel)
  {
    var tipo := SeleccionarTipoEnemigo(t.tipo);
    var nombre := GenerarNombreEnemigo(t.nombre, t.sufijo);
    var multiplicadorNivel := Multiplicador(nivelJugador);
    var statsBase := ObtenerStatsBase(tipo);
    var statsEscaladas := EscalarStats(statsBase, multiplicadorNivel);
    var datos := Datos(id, nombre, NivelEnemigo(nivelJugador, t.nivel), statsEscaladas);
    e := CrearEnemigo(tipo, datos);
    assert datos.nivel.GetOr(1) >= 1;
  }

  /** Above the first level the scaled stats differ from the ones the enemy ends up with. */
  lemma EscaladoDescartado()
    ensures EscalarStats(ObtenerStatsBase("Guerrero"), Multiplicador(3)).vida == 210
    ensures StatsBase(ArquetipoEnemigo("Guerrero")).vida == 150
  {
    assert Multiplicador(3) == 7.0 / 5.0;
    assert Escalar(150, 7.0 / 5.0) == 210;
  }

  /** The boss multiplier 1.5 + (n - 1)·0.3. */
  function MultiplicadorBoss(nivelJugador: int): (m: real)
    ensures nivelJugador == 1 ==> m == 3.0 / 2.0
    ensures nivelJugador >= 1 ==> m >= 3.0 / 2.0
  {
    3.0 / 2.0 + ((nivelJugador - 1) as real) * (3.0 / 10.0)
  }

  /** The boss stats 200/200/80/80/20/15/10, each multiplied and floored. */
  function StatsBoss(nivelJugador: int): (s: Stats)
    ensures s == EscalarStats(Stats(200, 200, 80, 80, 20, 15, 10), MultiplicadorBoss(nivelJugador))
    ensures nivelJugador == 1 ==> s == Stats(300, 300, 120, 120, 30, 22, 15)
  {
    var m := MultiplicadorBoss(nivelJugador);
    assert nivelJugador == 1 ==> Escalar(15, m) == 22;
    Stats(Escalar(200, m), Escalar(200, m), Escalar(80, m), Escalar(80, m),
          Escalar(20, m), Escalar(15, m), Escalar(10, m))
  }

  /**
   * `generarEnemigoBoss(nivelJugador)` with the name draw `u` and the fresh
   * id `id`: always a Guerrero two levels above the player, holding the
   * Guerrero base stats because its constructor overwrites the boss stats.
   */
  method GenerarEnemigoBoss(nivelJugador: int, id: string, u: real) returns (e: Explorador)
    requires Unidad(u)
    ensures fresh(e)
    ensures ConStatsDeClase(e, Guerrero)
    ensures e.id == id && e.nombre == GenerarNombreBoss(u) && e.nivel == nivelJugador + 2
    ensures nivelJugador >= -1 ==> e.Valido()
  {
    var nombre := GenerarNombreBoss(u);
    var datosBoss := Datos(id, nombre, nivelJugador + 2, StatsBoss(nivelJugador));
    e := new Explorador(Guerrero, datosBoss);
  }
}
