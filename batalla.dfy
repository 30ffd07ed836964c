/**
 * The battle manager (`GestorBatalla`): the action menu each side is offered,
 * the enemy's choice among it, the dispatch of a chosen action to the acting
 * combatant, the winner check, and the battle loop. The prompts the player
 * answers and the draws of `Math.random()` arrive as input: one `Ronda` per
 * turn of the loop.
 */
module Batalla {
  import opened Wrappers
  import opened Arquetipos
  import opened Combatientes

  /** A menu entry: the label shown and the action id it stands for. */
  datatype Accion = Accion(nombre: string, valor: string)

  /** The action ids the dispatch recognises. */
  predicate IdConocido(v: string) {
    v == "atacar" || v == "descansar" || v == "usarItem" || HabilidadDeId(v).Some?
  }

  // ==================== the menu ====================

  /** Whether the menu holds an entry with the id `v`. */
  predicate Ofrece(acciones: seq<Accion>, v: string) {
    exists x :: x in acciones && x.valor == v
  }

  /** The two entries every menu starts with. */
  function Basicas(): (r: seq<Accion>)
    ensures |r| == 2 && r[0].valor == "atacar" && r[1].valor == "descansar"
    ensures forall x :: x in r ==> IdConocido(x.valor) && x.valor != "usarItem" && HabilidadDeId(x.valor).None?
  {
    [Accion("Atacar (5 energía)", "atacar"), Accion("Descansar (recupera 15 energía)", "descansar")]
  }

  /** The item entry, offered when the inventory is not empty. */
  function EntradaItems(conItems: bool): (r: seq<Accion>)
    ensures |r| == (if conItems then 1 else 0)
    ensures forall x :: x in r ==> x.valor == "usarItem" && IdConocido(x.valor) && HabilidadDeId(x.valor).None?
  {
    if conItems then [Accion("Usar item del inventario", "usarItem")] else []
  }

  /**
   * `obtenerAccionesDisponibles`: attack and rest always, first and in that
   * order; each ability exactly when the class tag is its owner's and the
   * energy reaches its cost; the item entry, last, exactly when the
   * inventory is not empty; and nothing else.
   */
  function AccionesDisponibles(clase: string, energia: int, conItems: bool): (acs: seq<Accion>)
    ensures |acs| >= 2 && acs[0].valor == "atacar" && acs[1].valor == "descansar"
    ensures Ofrece(acs, "usarItem") <==> conItems
    ensures conItems ==> acs[|acs| - 1].valor == "usarItem"
    ensures forall x :: x in acs ==> IdConocido(x.valor)
  {
    var acs := Basicas() + Especiales(clase, energia) + EntradaItems(conItems);
    assert conItems ==> acs[|acs| - 1] in acs;
    acs
  }

  /**
   * The ability entries of the menu, in menu order. The class tests are
   * separate `if`s on distinct strings, so at most one class's entries
   * appear; they are written here as one choice on the class.
   */
  function Especiales(clase: string, energia: int): (hs: seq<Accion>)
    ensures forall x :: x in hs ==>
              HabilidadDeId(x.valor).Some? && clase == ClaseDe(Propietario(HabilidadDeId(x.valor).value)) &&
              energia >= Coste(HabilidadDeId(x.valor).value)
  {
    if clase == "Humano" then
      (if energia >= 8 then [Accion("Ataque Doble (8 energía)", "ataqueDoble")] else [])
    else if clase == "IA" then
      (if energia >= 6 then [Accion("Ataque de Precisión (6 energía)", "ataquePrecision")] else [])
    else if clase == "Guerrero" then
      (if energia >= 10 then [Accion("Golpe Devastador (10 energía)", "golpeDevastador")] else [])
    else if clase == "Mago" then
      (if energia >= 12 then [Accion("Bola de Fuego (12 energía)", "bolaFuego")] else []) +
      (if energia >= 8 then [Accion("Curar (8 energía)", "curar")] else [])
    else if clase == "Arquero" then
      (if energia >= 9 then [Accion("Lluvia de Flechas (9 energía)", "lluviaFlechas")] else []) +
      (if energia >= 7 then [Accion("Flecha Penetrante (7 energía)", "flechaPenetrante")] else [])
    else []
  }

  /**
   * The menu offers an ability exactly when the class tag is its owner's and
   * the energy reaches its cost, as the ability table says.
   */
  lemma HabilidadEnMenu(clase: string, energia: int, conItems: bool, h: Habilidad)
    ensures Ofrece(AccionesDisponibles(clase, energia, conItems), IdAccion(h)) <==>
            clase == ClaseDe(Propietario(h)) && energia >= Coste(h)
  {
    var acs := AccionesDisponibles(clase, energia, conItems);
    var hs := Especiales(clase, energia);
    assert acs == Basicas() + hs + EntradaItems(conItems);
    assert HabilidadDeId(IdAccion(h)) == Some(h);
    assert Ofrece(acs, IdAccion(h)) <==> Ofrece(hs, IdAccion(h)) by {
      if Ofrece(acs, IdAccion(h)) {
        var x :| x in acs && x.valor == IdAccion(h);
        assert x !in Basicas() && x !in EntradaItems(conItems);
      }
      if Ofrece(hs, IdAccion(h)) {
        var x :| x in hs && x.valor == IdAccion(h);
        assert x in acs;
      }
    }
    HabilidadEnEspeciales(clase, energia, h);
  }

  lemma HabilidadEnEspeciales(clase: string, energia: int, h: Habilidad)
    ensures Ofrece(Especiales(clase, energia), IdAccion(h)) <==>
            clase == ClaseDe(Propietario(h)) && energia >= Coste(h)
  {
    var hs := Especiales(clase, energia);
    assert HabilidadDeId(IdAccion(h)) == Some(h);
    if clase == ClaseDe(Propietario(h)) && energia >= Coste(h) {
      var x :| x in hs && x.valor == IdAccion(h) by {
        match h
        case AtaqueDoble => assert hs[0].valor == IdAccion(h);
        case AtaquePrecision => assert hs[0].valor == IdAccion(h);
        case GolpeDevastador => assert hs[0].valor == IdAccion(h);
        case BolaFuego => assert hs[0].valor == IdAccion(h);
        case Curar => assert hs[|hs| - 1].valor == IdAccion(h);
        case LluviaFlechas => assert hs[0].valor == IdAccion(h);
        case FlechaPenetrante => assert hs[|hs| - 1].valor == IdAccion(h);
      }
    }
  }

  // ==================== the enemy's choice ====================

  /** `s` matches `p[j..]` from position `i + j` on. */
  predicate CoincideEn(s: string, p: string, i: nat, j: nat)
    requires i + |p| <= |s| && j <= |p|
    decreases |p| - j
  {
    j == |p| || (s[i + j] == p[j] && CoincideEn(s, p, i, j + 1))
  }

  /** `s.slice(i).includes(p)`, for a non-empty `p`: case sensitive. */
  predicate ContieneDesde(s: string, p: string, i: nat)
    decreases |s| - i
  {
    i + |p| <= |s| && (CoincideEn(s, p, i, 0) || ContieneDesde(s, p, i + 1))
  }

  /** The enemy's test for an attack: the id contains one of six fixed words. */
  predicate EsAtaque(v: string) {
    ContieneDesde(v, "atacar", 0) || ContieneDesde(v, "Ataque", 0) || ContieneDesde(v, "Golpe", 0) ||
    ContieneDesde(v, "Bola", 0) || ContieneDesde(v, "Lluvia", 0) || ContieneDesde(v, "Flecha", 0)
  }

  /**
   * Because the test is case sensitive and the ids are camelCase, only two
   * of the menu's ids count as attacks: `atacar` and `lluviaFlechas`.
   * `ataqueDoble`, `ataquePrecision`, `golpeDevastador`, `bolaFuego` and
   * `flechaPenetrante` are never recognised.
   */
  lemma AtaquesReconocidos(v: string)
    requires IdConocido(v)
    ensures EsAtaque(v) <==> v == "atacar" || v == "lluviaFlechas"
  {
    assert IdAccion(FlechaPenetrante) == "flechaPenetrante";
    if v == "atacar" {
      assert CoincideEn("atacar", "atacar", 0, 0);
    } else if v == "lluviaFlechas" {
      assert ContieneDesde("lluviaFlechas", "Flecha", 6);
    } else {
      NoEsAtaque(v);
    }
  }

  /** The ids that are not attacks for the enemy, each checked position by position. */
  lemma NoEsAtaque(v: string)
    requires v in ["descansar", "usarItem", "ataqueDoble", "bolaFuego", "curar",
                   "ataquePrecision", "golpeDevastador", "flechaPenetrante"]
    ensures !EsAtaque(v)
  {
    if v == "ataquePrecision" {
      NoEsAtaqueAtaquePrecision();
    } else if v == "golpeDevastador" {
      NoEsAtaqueGolpeDevastador();
    } else if v == "flechaPenetrante" {
      NoEsAtaqueFlechaPenetrante();
    }
  }

  // The three fifteen-letter ids need each attack word ruled out from position 7 on.

  lemma NoEsAtaqueAtaquePrecision()
    ensures !EsAtaque("ataquePrecision")
  {
    assert !ContieneDesde("ataquePrecision", "atacar", 7);
    assert !ContieneDesde("ataquePrecision", "Ataque", 7);
    assert !ContieneDesde("ataquePrecision", "Golpe", 7);
    assert !ContieneDesde("ataquePrecision", "Bola", 7);
    assert !ContieneDesde("ataquePrecision", "Lluvia", 7);
    assert !ContieneDesde("ataquePrecision", "Flecha", 7);
  }

  lemma NoEsAtaqueGolpeDevastador()
    ensures !EsAtaque("golpeDevastador")
  {
    assert !ContieneDesde("golpeDevastador", "atacar", 7);
    assert !ContieneDesde("golpeDevastador", "Ataque", 7);
    assert !ContieneDesde("golpeDevastador", "Golpe", 7);
    assert !ContieneDesde("golpeDevastador", "Bola", 7);
    assert !ContieneDesde("golpeDevastador", "Lluvia", 7);
    assert !ContieneDesde("golpeDevastador", "Flecha", 7);
  }

  lemma NoEsAtaqueFlechaPenetrante()
    ensures !EsAtaque("flechaPenetrante")
  {
    assert !ContieneDesde("flechaPenetrante", "atacar", 7);
    assert !ContieneDesde("flechaPenetrante", "Ataque", 7);
    assert !ContieneDesde("flechaPenetrante", "Golpe", 7);
    assert !ContieneDesde("flechaPenetrante", "Bola", 7);
    assert !ContieneDesde("flechaPenetrante", "Lluvia", 7);
    assert !ContieneDesde("flechaPenetrante", "Flecha", 7);
  }

  /** The entries of `s` that satisfy `p`, in their order in `s`. */
  function Filtrar(s: seq<Accion>, p: Accion -> bool): (r: seq<Accion>)
    ensures |r| <= |s|
    ensures forall x :: x in r <==> x in s && p(x)
  {
    if s == [] then []
    else (if p(s[0]) then [s[0]] else []) + Filtrar(s[1..], p)
  }

  /** Filtering keeps the order: filtering a concatenation filters each part and concatenates. */
  lemma {:induction false} FiltrarConcatena(a: seq<Accion>, b: seq<Accion>, p: Accion -> bool)
    ensures Filtrar(a + b, p) == Filtrar(a, p) + Filtrar(b, p)
  {
    if a == [] {
      assert a + b == b;
    } else {
      assert (a + b)[0] == a[0] && (a + b)[1..] == a[1..] + b;
      FiltrarConcatena(a[1..], b, p);
      var cabeza := if p(a[0]) then [a[0]] else [];
      assert Filtrar(a + b, p) == cabeza + (Filtrar(a[1..], p) + Filtrar(b, p));
      assert cabeza + (Filtrar(a[1..], p) + Filtrar(b, p)) == (cabeza + Filtrar(a[1..], p)) + Filtrar(b, p);
    }
  }

  /** A single entry is kept exactly when it satisfies the test. */
  lemma FiltrarUno(x: Accion, p: Accion -> bool)
    ensures Filtrar([x], p) == if p(x) then [x] else []
  {
    assert [x][1..] == [];
  }

  /** The three tests of `elegirAccionIA`. */
  predicate EsAtaqueAccion(x: Accion) {
    EsAtaque(x.valor)
  }

  predicate EsCurar(x: Accion) {
    x.valor == "curar"
  }

  predicate EsDescansar(x: Accion) {
    x.valor == "descansar"
  }

  /** Whether the menu holds an entry the enemy counts as an attack. */
  predicate OfreceAtaque(acciones: seq<Accion>) {
    exists x :: x in acciones && EsAtaque(x.valor)
  }

  /**
   * `elegirAccionIA` for the draws r1, r2, r3: with an attack on offer and
   * r1 < 0.7, the attack at index `floor(r2 · n)` of the n attacks on offer,
   * in menu order; else the first heal entry when offered and r3 < 0.3; else
   * the first rest entry; else the first entry. An empty menu has no choice.
   */
  function ElegirAccionIA(acciones: seq<Accion>, r1: real, r2: real, r3: real): (a: Option<Accion>)
    requires Unidad(r1) && Unidad(r2) && Unidad(r3)
    ensures a.Some? <==> |acciones| > 0
    ensures a.Some? ==> a.value in acciones
    ensures OfreceAtaque(acciones) && r1 < 0.7 ==>
              var ataques := Filtrar(acciones, EsAtaqueAccion);
              |ataques| > 0 && a == Some(ataques[Dado(r2, |ataques|)]) && EsAtaque(a.value.valor)
    ensures !(OfreceAtaque(acciones) && r1 < 0.7) && Ofrece(acciones, "curar") && r3 < 0.3 ==>
              var curas := Filtrar(acciones, EsCurar);
              |curas| > 0 && a == Some(curas[0]) && a.value.valor == "curar"
    ensures (!(OfreceAtaque(acciones) && r1 < 0.7) && !(Ofrece(acciones, "curar") && r3 < 0.3) &&
             Ofrece(acciones, "descansar")) ==>
              var descansos := Filtrar(acciones, EsDescansar);
              |descansos| > 0 && a == Some(descansos[0]) && a.value.valor == "descansar"
    ensures (!(OfreceAtaque(acciones) && r1 < 0.7) && !(Ofrece(acciones, "curar") && r3 < 0.3) &&
             !Ofrece(acciones, "descansar") && |acciones| > 0) ==> a == Some(acciones[0])
  {
    var ataques := Filtrar(acciones, EsAtaqueAccion);
    var curas := Filtrar(acciones, EsCurar);
    var descansos := Filtrar(acciones, EsDescansar);
    assert OfreceAtaque(acciones) <==> |ataques| > 0 by {
      if OfreceAtaque(acciones) {
        var x :| x in acciones && EsAtaque(x.valor);
        assert x in ataques;
      }
      if |ataques| > 0 {
        assert ataques[0] in ataques;
      }
    }
    assert Ofrece(acciones, "curar") <==> |curas| > 0 by {
      if Ofrece(acciones, "curar") {
        var x :| x in acciones && x.valor == "curar";
        assert x in curas;
      }
      if |curas| > 0 {
        assert curas[0] in curas;
      }
    }
    assert Ofrece(acciones, "descansar") <==> |descansos| > 0 by {
      if Ofrece(acciones, "descansar") {
        var x :| x in acciones && x.valor == "descansar";
        assert x in descansos;
      }
      if |descansos| > 0 {
        assert descansos[0] in descansos;
      }
    }
    if |ataques| > 0 && r1 < 0.7 then Some(ataques[Dado(r2, |ataques|)])
    else if |curas| > 0 && r3 < 0.3 then Some(curas[0])
    else if |descansos| > 0 then Some(descansos[0])
    else if |acciones| > 0 then Some(acciones[0])
    else None
  }

  /** What a menu offers the enemy: attack and rest, the heal exactly for a Mago with 8 energy, and no attack but `atacar` and `lluviaFlechas`. */
  lemma OfertaDelMenu(clase: string, energia: int, conItems: bool)
    ensures var acs := AccionesDisponibles(clase, energia, conItems);
            OfreceAtaque(acs) && Ofrece(acs, "descansar") &&
            (Ofrece(acs, "curar") <==> clase == "Mago" && energia >= 8) &&
            forall x :: x in acs && EsAtaque(x.valor) ==> x.valor == "atacar" || x.valor == "lluviaFlechas"
  {
    var acs := AccionesDisponibles(clase, energia, conItems);
    AtaquesReconocidos("atacar");
    assert acs[0] in acs && acs[1] in acs;
    HabilidadEnMenu(clase, energia, conItems, Curar);
    forall x | x in acs && EsAtaque(x.valor) ensures x.valor == "atacar" || x.valor == "lluviaFlechas" {
      AtaquesReconocidos(x.valor);
    }
  }

  /**
   * The attacks the enemy sees on a menu, in order: the basic attack, then
   * the rain of arrows for an Arquero with 9 energy, and nothing else.
   */
  lemma AtaquesDelMenu(clase: string, energia: int, conItems: bool)
    ensures Filtrar(AccionesDisponibles(clase, energia, conItems), EsAtaqueAccion) ==
            [Accion("Atacar (5 energía)", "atacar")] +
            (if clase == "Arquero" && energia >= 9 then [Accion("Lluvia de Flechas (9 energía)", "lluviaFlechas")] else [])
  {
    var hs := Especiales(clase, energia);
    FiltrarConcatena(Basicas() + hs, EntradaItems(conItems), EsAtaqueAccion);
    FiltrarConcatena(Basicas(), hs, EsAtaqueAccion);
    AtaquesBasicos();
    AtaquesDeItems(conItems);
    AtaquesDeEspeciales(clase, energia);
  }

  lemma AtaquesBasicos()
    ensures Filtrar(Basicas(), EsAtaqueAccion) == [Accion("Atacar (5 energía)", "atacar")]
  {
    var atacar := Accion("Atacar (5 energía)", "atacar");
    var descansar := Accion("Descansar (recupera 15 energía)", "descansar");
    assert Basicas() == [atacar] + [descansar];
    FiltrarConcatena([atacar], [descansar], EsAtaqueAccion);
    AtaquesReconocidos("atacar");
    FiltrarUno(atacar, EsAtaqueAccion);
    NoEsAtaque("descansar");
    FiltrarUno(descansar, EsAtaqueAccion);
  }

  lemma AtaquesDeItems(conItems: bool)
    ensures Filtrar(EntradaItems(conItems), EsAtaqueAccion) == []
  {
    if conItems {
      NoEsAtaque("usarItem");
      FiltrarUno(Accion("Usar item del inventario", "usarItem"), EsAtaqueAccion);
    }
  }

  lemma AtaquesDeEspeciales(clase: string, energia: int)
    ensures Filtrar(Especiales(clase, energia), EsAtaqueAccion) ==
            if clase == "Arquero" && energia >= 9 then [Accion("Lluvia de Flechas (9 energía)", "lluviaFlechas")] else []
  {
    var hs := Especiales(clase, energia);
    if clase == "Arquero" {
      AtaquesDelArquero(energia);
    } else if clase == "Mago" {
      AtaquesDelMago(energia);
    } else if hs != [] {
      assert |hs| == 1 && hs[0].valor in ["ataqueDoble", "ataquePrecision", "golpeDevastador"];
      NoEsAtaque(hs[0].valor);
      FiltrarUno(hs[0], EsAtaqueAccion);
    }
  }

  lemma AtaquesDelArquero(energia: int)
    ensures Filtrar(Especiales("Arquero", energia), EsAtaqueAccion) ==
            if energia >= 9 then [Accion("Lluvia de Flechas (9 energía)", "lluviaFlechas")] else []
  {
    var lluvia := if energia >= 9 then [Accion("Lluvia de Flechas (9 energía)", "lluviaFlechas")] else [];
    var flecha := if energia >= 7 then [Accion("Flecha Penetrante (7 energía)", "flechaPenetrante")] else [];
    assert Especiales("Arquero", energia) == lluvia + flecha;
    FiltrarConcatena(lluvia, flecha, EsAtaqueAccion);
    if energia >= 9 {
      AtaquesReconocidos("lluviaFlechas");
      FiltrarUno(lluvia[0], EsAtaqueAccion);
    }
    if energia >= 7 {
      NoEsAtaque("flechaPenetrante");
      FiltrarUno(flecha[0], EsAtaqueAccion);
    }
  }

  lemma AtaquesDelMago(energia: int)
    ensures Filtrar(Especiales("Mago", energia), EsAtaqueAccion) == []
  {
    var bola := if energia >= 12 then [Accion("Bola de Fuego (12 energía)", "bolaFuego")] else [];
    var cura := if energia >= 8 then [Accion("Curar (8 energía)", "curar")] else [];
    assert Especiales("Mago", energia) == bola + cura;
    FiltrarConcatena(bola, cura, EsAtaqueAccion);
    if energia >= 12 {
      NoEsAtaque("bolaFuego");
      FiltrarUno(bola[0], EsAtaqueAccion);
    }
    if energia >= 8 {
      NoEsAtaque("curar");
      FiltrarUno(cura[0], EsAtaqueAccion);
    }
  }

  /**
   * On any menu the enemy is offered it always chooses, and only an
   * `atacar`, a `lluviaFlechas`, a `curar` or a rest: never an item and
   * never any other ability. With r1 < 0.7 it attacks: with `lluviaFlechas`
   * exactly when it is an Arquero with 9 energy and r2 ≥ 1/2, and with
   * `atacar` otherwise. With r1 ≥ 0.7 it heals exactly when it is a Mago
   * with 8 energy and r3 < 0.3, and rests in every other case.
   */
  lemma EleccionEnemigo(clase: string, energia: int, conItems: bool, r1: real, r2: real, r3: real)
    requires Unidad(r1) && Unidad(r2) && Unidad(r3)
    ensures var a := ElegirAccionIA(AccionesDisponibles(clase, energia, conItems), r1, r2, r3);
            a.Some? &&
            (r1 < 0.7 ==> a.value.valor == "atacar" || a.value.valor == "lluviaFlechas") &&
            (r1 < 0.7 ==> (a.value.valor == "lluviaFlechas" <==> clase == "Arquero" && energia >= 9 && r2 >= 0.5)) &&
            (r1 >= 0.7 && clase == "Mago" && energia >= 8 && r3 < 0.3 ==> a.value.valor == "curar") &&
            (r1 >= 0.7 && !(clase == "Mago" && energia >= 8 && r3 < 0.3) ==> a.value.valor == "descansar")
  {
    OfertaDelMenu(clase, energia, conItems);
    AtaquesDelMenu(clase, energia, conItems);
    if clase == "Arquero" && energia >= 9 {
      var d := Dado(r2, 2);
      assert d == 1 <==> r2 >= 0.5;
    }
  }

  /** The id the enemy picks from the menu of its state `f`: always one, by `EleccionEnemigo`. */
  function EleccionIA(clase: string, f: Ficha, e: EntradaEnemigo): (v: string)
    requires Unidad(e.r1) && Unidad(e.r2) && Unidad(e.r3)
    ensures v in {"atacar", "lluviaFlechas", "curar", "descansar"}
  {
    EleccionEnemigo(clase, f.energia, |f.inventario| > 0, e.r1, e.r2, e.r3);
    ElegirAccionIA(AccionesDisponibles(clase, f.energia, |f.inventario| > 0), e.r1, e.r2, e.r3).value.valor
  }

  // ==================== the battle ====================

  /** The record `verificarGanador` stores. */
  datatype Ganador = Ganador(tipo: string, nombre: string)

  /** The answers to the player's prompts in one turn, and the draws of the action. */
  datatype EntradaJugador = EntradaJugador(accion: string, indiceItem: int, tirada: Tirada)

  /** The enemy's three choice draws and the draws of its action. */
  datatype EntradaEnemigo = EntradaEnemigo(r1: real, r2: real, r3: real, tirada: Tirada)

  /** What one turn of the battle loop reads. */
  datatype Ronda = Ronda(jugador: EntradaJugador, enemigo: EntradaEnemigo)

  predicate RondaValida(r: Ronda) {
    TiradaValida(r.jugador.tirada) && TiradaValida(r.enemigo.tirada) &&
    Unidad(r.enemigo.r1) && Unidad(r.enemigo.r2) && Unidad(r.enemigo.r3)
  }

  /**
   * How `iniciar` ends: with a winner; with the exception an action threw
   * (which the battle does not catch); or, in the model only, because the
   * input ran out or gave the player an answer that was not on the menu.
   */
  datatype Fin = Decidida(ganador: Ganador) | Interrumpida(resultado: Resultado) | SinEntradas

  /** An outcome the battle cannot go on from. */
  predicate Corta(r: Resultado) {
    r.Excepcion? || r.VidaIndefinida?
  }

  /**
   * What `ejecutarAccion` gives and leaves behind, per action id, for an
   * acting combatant whose runtime class is `aa` and whose state is `fa`,
   * and for its target `fo`: the pair of new states, first the actor's.
   */
  function EfectoAccion(aa: Arquetipo, fa: Ficha, fo: Ficha, accion: string, indiceItem: int, t: Tirada)
    : (p: (Resultado, Ficha, Ficha))
    requires TiradaValida(t)
    ensures !IdConocido(accion) ==> p == (Fallo("Acción desconocida"), fa, fo)
    ensures Corta(p.0) ==> p.1 == fa && p.2 == fo
    ensures accion == "atacar" ==> p == EfectoAtacar(fa, fo, t.u1)
    ensures accion == "descansar" ==> p == (Descanso(15), fa.(energia := Recargada(fa.energia, fa.maxEnergia)), fo)
    ensures accion == "curar" ==> !p.0.Exito() && p.1 == fa && p.2 == fo
    ensures accion == "curar" && aa == Mago ==> p.0 == (if fa.energia < 8 then Fallo("No energy") else Excepcion(DesbordamientoPila))
    ensures accion == "curar" && aa != Mago ==> p.0 == VidaIndefinida
    ensures accion == "usarItem" && |fa.inventario| == 0 ==> p == (Fallo("No tienes items en el inventario"), fa, fo)
    ensures accion == "usarItem" && |fa.inventario| > 0 ==> (p.0, p.1) == UsoItem(fa, aa, indiceItem) && p.2 == fo
    ensures HabilidadDeId(accion).Some? && accion != "curar" ==>
              var h := HabilidadDeId(accion).value;
              (aa != Propietario(h) ==> p == (Excepcion(NoEsFuncion(accion)), fa, fo)) &&
              (aa == Propietario(h) ==> p == EfectoHabilidad(h, fa, fo, t))
    ensures accion != "atacar" && accion != "descansar" ==> p.1.energia == fa.energia
    ensures accion != "usarItem" ==> p.1.vida == fa.vida
    ensures p.2 == fo.(vida := p.2.vida)
    ensures fo.vida >= 0.0 ==> p.2.vida <= fo.vida
    ensures FichaValida(fa) && FichaValida(fo) ==> FichaValida(p.1) && FichaValida(p.2)
  {
    if accion == "atacar" then EfectoAtacar(fa, fo, t.u1)
    else if accion == "descansar" then (Descanso(15), fa.(energia := Recargada(fa.energia, fa.maxEnergia)), fo)
    else if accion == "curar" then
      (if aa != Mago then VidaIndefinida else if fa.energia < 8 then Fallo("No energy") else Excepcion(DesbordamientoPila),
       fa, fo)
    else if accion == "usarItem" then
      (if |fa.inventario| == 0 then (Fallo("No tienes items en el inventario"), fa, fo)
       else var q := UsoItem(fa, aa, indiceItem); (q.0, q.1, fo))
    else match HabilidadDeId(accion)
      case Some(h) =>
        if aa != Propietario(h) then (Excepcion(NoEsFuncion(accion)), fa, fo) else EfectoHabilidad(h, fa, fo, t)
      case None => (Fallo("Acción desconocida"), fa, fo)
  }

  /**
   * One side's action in a turn, on the player's state `fj` and the enemy's
   * `fe`: the player plays its answer; the enemy plays the id it picks from
   * its own menu, on item index 0. Gives the outcome, then the player's and
   * the enemy's new states.
   */
  function Jugada(delJugador: bool, aj: Arquetipo, fj: Ficha, ae: Arquetipo, fe: Ficha, claseEnemigo: string, ronda: Ronda)
    : (q: (Resultado, Ficha, Ficha))
    requires RondaValida(ronda)
    ensures delJugador ==> q.2 == fe.(vida := q.2.vida) && (fe.vida >= 0.0 ==> q.2.vida <= fe.vida)
    ensures !delJugador ==> q.1 == fj.(vida := q.1.vida) && (fj.vida >= 0.0 ==> q.1.vida <= fj.vida)
    ensures Corta(q.0) ==> q.1 == fj && q.2 == fe
    ensures FichaValida(fj) && FichaValida(fe) ==> FichaValida(q.1) && FichaValida(q.2)
  {
    if delJugador then EfectoAccion(aj, fj, fe, ronda.jugador.accion, ronda.jugador.indiceItem, ronda.jugador.tirada)
    else
      var p := EfectoAccion(ae, fe, fj, EleccionIA(claseEnemigo, fe, ronda.enemigo), 0, ronda.enemigo.tirada);
      (p.0, p.2, p.1)
  }

  /**
   * The winner `verificarGanador` finds on a player at `fj` and an enemy at
   * `fe`, the player's defeat being checked first.
   */
  function Veredicto(fj: Ficha, fe: Ficha, nombreJugador: string, nombreEnemigo: string): (g: Option<Ganador>)
    ensures g.Some? <==> fj.vida <= 0.0 || fe.vida <= 0.0
    ensures fj.vida <= 0.0 ==> g == Some(Ganador("Enemigo", nombreEnemigo))
    ensures g == Some(Ganador("Jugador", nombreJugador)) <==> fj.vida > 0.0 && fe.vida <= 0.0
  {
    if fj.vida <= 0.0 then Some(Ganador("Enemigo", nombreEnemigo))
    else if fe.vida <= 0.0 then Some(Ganador("Jugador", nombreJugador))
    else None
  }

  /** The player's state after the winner check: the victory experience exactly when the player has just won. */
  function Premiado(fj: Ficha, fe: Ficha): (g: Ficha)
    ensures fj.vida > 0.0 && fe.vida <= 0.0 ==> g == TrasExperiencia(fj, 50)
    ensures !(fj.vida > 0.0 && fe.vida <= 0.0) ==> g == fj
    ensures FichaValida(fj) ==> FichaValida(g)
    ensures FichaValida(fj) && fj.vida > 0.0 ==> g.vida > 0.0
  {
    if fj.vida > 0.0 && fe.vida <= 0.0 then TrasExperiencia(fj, 50) else fj
  }


  // ==================== the whole battle ====================

  /** The state a battle changes: both combatants and the stored winner. */
  datatype Momento = Momento(jugador: Ficha, enemigo: Ficha, ganador: Option<Ganador>)

  /** What a battle never changes: the runtime classes, class tags and names, and who acts first. */
  datatype Bandos = Bandos(aj: Arquetipo, ae: Arquetipo, claseJugador: string, claseEnemigo: string,
                           nombreJugador: string, nombreEnemigo: string, jugadorPrimero: bool)

  /** Whether slot `k` (0 or 1) of a turn is the player's. */
  function DelJugador(b: Bandos, k: nat): bool {
    (k == 0) == b.jugadorPrimero
  }

  /** A stored winner is the side whose opponent is down. */
  predicate Coherente(b: Bandos, m: Momento) {
    m.ganador.Some? ==>
      (m.ganador.value == Ganador("Enemigo", b.nombreEnemigo) && m.jugador.vida <= 0.0) ||
      (m.ganador.value == Ganador("Jugador", b.nombreJugador) && m.enemigo.vida <= 0.0)
  }

  /** The player's menu in the state `m`. */
  function MenuJugador(b: Bandos, m: Momento): seq<Accion> {
    AccionesDisponibles(b.claseJugador, m.jugador.energia, |m.jugador.inventario| > 0)
  }

  /** Both combatants are valid, and a player stored as the winner is alive. */
  predicate Sano(b: Bandos, m: Momento) {
    FichaValida(m.jugador) && FichaValida(m.enemigo) &&
    (m.ganador == Some(Ganador("Jugador", b.nombreJugador)) ==> m.jugador.vida > 0.0)
  }

  /**
   * One slot of a turn from the state `m`: a player's answer off its menu
   * stops the battle for lack of input; an exception or undefined health
   * stops it with that outcome; either way nothing changes. Otherwise the
   * action is played and the winner check follows.
   */
  function Ranura(b: Bandos, m: Momento, delJugador: bool, ronda: Ronda): (p: (Option<Fin>, Momento))
    requires RondaValida(ronda)
    ensures p.0.Some? ==> p.1 == m && (p.0.value.SinEntradas? || (p.0.value.Interrumpida? && Corta(p.0.value.resultado)))
    ensures p.0 == Some(SinEntradas) <==> delJugador && !Ofrece(MenuJugador(b, m), ronda.jugador.accion)
    ensures p.0.None? ==> Coherente(b, p.1)
    ensures Sano(b, m) ==> Sano(b, p.1)
  {
    if delJugador && !Ofrece(AccionesDisponibles(b.claseJugador, m.jugador.energia, |m.jugador.inventario| > 0), ronda.jugador.accion) then
      (Some(SinEntradas), m)
    else
      var q := Jugada(delJugador, b.aj, m.jugador, b.ae, m.enemigo, b.claseEnemigo, ronda);
      if Corta(q.0) then (Some(Interrumpida(q.0)), m)
      else (None, Momento(Premiado(q.1, q.2), q.2, Veredicto(q.1, q.2, b.nombreJugador, b.nombreEnemigo)))
  }

  /** A slot that is not stopped for lack of input plays `Jugada`, then the winner check. */
  lemma RanuraJugada(b: Bandos, m: Momento, delJugador: bool, ronda: Ronda)
    requires RondaValida(ronda)
    ensures var p, q := Ranura(b, m, delJugador, ronda), Jugada(delJugador, b.aj, m.jugador, b.ae, m.enemigo, b.claseEnemigo, ronda);
            p.0 != Some(SinEntradas) ==>
              p.0 == (if Corta(q.0) then Some(Interrumpida(q.0)) else None) &&
              (p.0.None? ==> p.1.enemigo == q.2 && p.1.jugador == Premiado(q.1, q.2) &&
                             p.1.ganador == Veredicto(q.1, q.2, b.nombreJugador, b.nombreEnemigo))
  {
  }

  /**
   * The first `k` slots of a turn, in turn order: a slot is skipped once a
   * winner is stored, and nothing more is played once the battle stops.
   */
  function Turno(b: Bandos, m: Momento, ronda: Ronda, k: nat): (p: (Option<Fin>, Momento))
    requires RondaValida(ronda) && k <= 2
    ensures m.ganador.Some? ==> p == (None, m)
    ensures p.0.Some? ==> p.1.ganador.None? && (p.0.value.SinEntradas? || (p.0.value.Interrumpida? && Corta(p.0.value.resultado)))
    ensures p.0 == Some(SinEntradas) ==> !Ofrece(MenuJugador(b, p.1), ronda.jugador.accion)
    ensures m.ganador.None? ==> Coherente(b, p.1)
    ensures Sano(b, m) ==> Sano(b, p.1)
    decreases k
  {
    if k == 0 then (None, m)
    else
      var p := Turno(b, m, ronda, k - 1);
      if p.0.Some? || p.1.ganador.Some? then p else Ranura(b, p.1, DelJugador(b, k - 1), ronda)
  }

  /** Once the first slot of a turn decides the battle, the second side does not act. */
  lemma SegundoSeSalta(b: Bandos, m: Momento, ronda: Ronda)
    requires RondaValida(ronda)
    requires Turno(b, m, ronda, 1).1.ganador.Some?
    ensures Turno(b, m, ronda, 2) == Turno(b, m, ronda, 1)
  {
  }

  /**
   * The battle from the state `m` over the rounds `rondas`: turn after turn
   * until a winner is stored, the rounds run out or a slot stops it. Gives
   * how it ends, how many turns were completed, the deciding one included,
   * and the final state.
   */
  function Partida(b: Bandos, m: Momento, rondas: seq<Ronda>): (r: (Fin, nat, Momento))
    requires forall k :: 0 <= k < |rondas| ==> RondaValida(rondas[k])
    ensures r.1 <= |rondas|
    ensures r.0.Decidida? <==> r.2.ganador.Some?
    ensures r.0.Decidida? ==> r.2.ganador == Some(r.0.ganador)
    ensures r.0.Interrumpida? ==> Corta(r.0.resultado) && r.1 < |rondas|
    ensures m.ganador.Some? ==> r == (Decidida(m.ganador.value), 0, m)
    ensures m.ganador.None? && r.0.Decidida? ==> r.1 >= 1
    decreases |rondas|, 2
  {
    if m.ganador.Some? then (Decidida(m.ganador.value), 0, m)
    else if rondas == [] then (SinEntradas, 0, m)
    else Jornada(b, m, rondas)
  }

  /**
   * The battle from `m` when no winner is stored yet and some round is
   * left: the turn `rondas[0]` is played as a whole; it stops the battle, or
   * it is counted and the battle goes on over the other rounds.
   */
  function Jornada(b: Bandos, m: Momento, rondas: seq<Ronda>): (r: (Fin, nat, Momento))
    requires forall k :: 0 <= k < |rondas| ==> RondaValida(rondas[k])
    requires rondas != [] && m.ganador.None?
    ensures r.1 <= |rondas|
    ensures r.0.Decidida? <==> r.2.ganador.Some?
    ensures r.0.Decidida? ==> r.2.ganador == Some(r.0.ganador) && r.1 >= 1
    ensures r.0.Interrumpida? ==> Corta(r.0.resultado) && r.1 < |rondas|
    decreases |rondas|, 1
  {
    var p := Turno(b, m, rondas[0], 2);
    if p.0.Some? then (p.0.value, 0, p.1)
    else
      var r := Partida(b, p.1, rondas[1..]);
      (r.0, r.1 + 1, r.2)
  }

  /**
   * The battle from `m`, when no winner is stored yet and some round is
   * left: the first turn is played as a whole, and the battle stops there or
   * goes on over the other rounds.
   */
  lemma PartidaPaso(b: Bandos, m: Momento, rondas: seq<Ronda>)
    requires forall k :: 0 <= k < |rondas| ==> RondaValida(rondas[k])
    requires rondas != [] && m.ganador.None?
    ensures var p, q := Turno(b, m, rondas[0], 2), Partida(b, m, rondas);
            p.0.Some? ==> q.0 == p.0.value && q.1 == 0 && q.2 == p.1
    ensures var p, q := Turno(b, m, rondas[0], 2), Partida(b, m, rondas);
            var r := Partida(b, p.1, rondas[1..]);
            p.0.None? ==> q.0 == r.0 && q.1 == r.1 + 1 && q.2 == r.2
  {
    assert Partida(b, m, rondas) == Jornada(b, m, rondas);
  }

  /** An outcome `r` of playing `rondas` that ends for lack of input stops past the last round, or at a player's answer off its menu. */
  predicate SinMenu(b: Bandos, r: (Fin, nat, Momento), rondas: seq<Ronda>)
  {
    r.0.SinEntradas? ==> r.1 == |rondas| || (r.1 < |rondas| && !Ofrece(MenuJugador(b, r.2), rondas[r.1].jugador.accion))
  }

  /** The stop for lack of input carries over from the rounds after the first to the whole list. */
  lemma SinMenuDesplazado(b: Bandos, q: (Fin, nat, Momento), r: (Fin, nat, Momento), rondas: seq<Ronda>)
    requires rondas != [] && r.1 <= |rondas| - 1
    requires q.0 == r.0 && q.1 == r.1 + 1 && q.2 == r.2
    requires SinMenu(b, r, rondas[1..])
    ensures SinMenu(b, q, rondas)
  {
    if q.0.SinEntradas? && q.1 < |rondas| {
      assert rondas[q.1] == rondas[1..][r.1];
    }
  }

  /** A battle that ends for lack of input ends at a round past the last one, or at a player's answer off its menu. */
  lemma {:induction false} PartidaMenu(b: Bandos, m: Momento, rondas: seq<Ronda>)
    requires forall k :: 0 <= k < |rondas| ==> RondaValida(rondas[k])
    ensures SinMenu(b, Partida(b, m, rondas), rondas)
    decreases |rondas|
  {
    if m.ganador.None? && rondas != [] {
      PartidaPaso(b, m, rondas);
      var p := Turno(b, m, rondas[0], 2);
      if p.0.None? {
        PartidaMenu(b, p.1, rondas[1..]);
        SinMenuDesplazado(b, Partida(b, m, rondas), Partida(b, p.1, rondas[1..]), rondas);
      }
    }
  }

  /** A battle ends with a coherent winner: the side whose opponent is down. */
  lemma {:induction false} PartidaCoherente(b: Bandos, m: Momento, rondas: seq<Ronda>)
    requires forall k :: 0 <= k < |rondas| ==> RondaValida(rondas[k])
    ensures Coherente(b, m) ==> Coherente(b, Partida(b, m, rondas).2)
    decreases |rondas|
  {
    if m.ganador.None? && rondas != [] {
      PartidaPaso(b, m, rondas);
      var p := Turno(b, m, rondas[0], 2);
      if p.0.None? {
        PartidaCoherente(b, p.1, rondas[1..]);
      }
    }
  }

  /** A battle keeps both combatants valid, and a player who wins is alive. */
  lemma {:induction false} PartidaSana(b: Bandos, m: Momento, rondas: seq<Ronda>)
    requires forall k :: 0 <= k < |rondas| ==> RondaValida(rondas[k])
    ensures Sano(b, m) ==> Sano(b, Partida(b, m, rondas).2)
    decreases |rondas|
  {
    if m.ganador.None? && rondas != [] {
      PartidaPaso(b, m, rondas);
      var p := Turno(b, m, rondas[0], 2);
      if p.0.None? {
        PartidaSana(b, p.1, rondas[1..]);
      }
    }
  }

  /**
   * After the first `j` turns of a battle over `rondas`, in the state `m`:
   * the battle over the rounds still to play gives the whole battle's
   * result `total`, once shifted by the `j` turns played.
   */
  predicate Tramo(b: Bandos, total: (Fin, nat, Momento), rondas: seq<Ronda>, m: Momento, j: nat)
    requires forall k :: 0 <= k < |rondas| ==> RondaValida(rondas[k])
  {
    j <= |rondas| &&
    var r := Partida(b, m, rondas[j..]);
    total.0 == r.0 && total.1 == r.1 + j && total.2 == r.2
  }

  /** Before any turn, the battle still to play is the whole battle. */
  lemma TramoInicial(b: Bandos, m: Momento, rondas: seq<Ronda>)
    requires forall k :: 0 <= k < |rondas| ==> RondaValida(rondas[k])
    ensures Tramo(b, Partida(b, m, rondas), rondas, m, 0)
  {
    assert rondas[0..] == rondas;
  }

  /**
   * Playing turn `j` as a whole from the state `m` either ends the battle
   * there, with the result `total`, or leaves the battle over the rounds
   * from `j + 1`.
   */
  lemma TramoSigue(b: Bandos, total: (Fin, nat, Momento), rondas: seq<Ronda>, m: Momento, j: nat,
                   p: (Option<Fin>, Momento))
    requires forall k :: 0 <= k < |rondas| ==> RondaValida(rondas[k])
    requires Tramo(b, total, rondas, m, j) && j < |rondas| && m.ganador.None?
    requires p == Turno(b, m, rondas[j], 2)
    ensures p.0.Some? ==> total.0 == p.0.value && total.1 == j && total.2 == p.1
    ensures p.0.None? ==> Tramo(b, total, rondas, p.1, j + 1)
  {
    var resto := rondas[j..];
    assert resto[0] == rondas[j] && resto[1..] == rondas[j + 1..];
    PartidaPaso(b, m, resto);
  }

  /** A stored winner, or rounds run out, end the battle where it stands. */
  lemma TramoFinal(b: Bandos, total: (Fin, nat, Momento), rondas: seq<Ronda>, m: Momento, j: nat)
    requires forall k :: 0 <= k < |rondas| ==> RondaValida(rondas[k])
    requires Tramo(b, total, rondas, m, j)
    ensures m.ganador.Some? ==> total.0 == Decidida(m.ganador.value) && total.1 == j && total.2 == m
    ensures m.ganador.None? && j == |rondas| ==> total.0 == SinEntradas && total.1 == j && total.2 == m
  {
  }

  /**
   * A basic attack by a living player with 5 energy on an enemy at 1 health
   * or less always fells it, and the winner check then names the player and
   * gives it the victory experience.
   */
  lemma GolpeDecisivo(aj: Arquetipo, fj: Ficha, ae: Arquetipo, fe: Ficha, claseEnemigo: string, ronda: Ronda,
                      nombreJugador: string, nombreEnemigo: string)
    requires RondaValida(ronda) && ronda.jugador.accion == "atacar"
    requires fj.vida > 0.0 && fj.energia >= 5 && fe.vida <= 1.0
    ensures var q := Jugada(true, aj, fj, ae, fe, claseEnemigo, ronda);
            q.2.vida == 0.0 &&
            Veredicto(q.1, q.2, nombreJugador, nombreEnemigo) == Some(Ganador("Jugador", nombreJugador)) &&
            Premiado(q.1, q.2) == TrasExperiencia(q.1, 50)
  {
    var p := EfectoAtacar(fj, fe, ronda.jugador.tirada.u1);
    assert p.2.vida == TrasDano(fe.vida, p.0.dano);
  }

  class GestorBatalla {
    const jugador: Explorador
    const enemigo: Explorador
    var turno: int
    var ganador: Option<Ganador>
    var ordenTurnos: seq<Explorador>
    /** How many times the player has been given the victory experience. */
    ghost var premios: nat

    constructor (jugador: Explorador, enemigo: Explorador)
      ensures this.jugador == jugador && this.enemigo == enemigo
      ensures turno == 1 && ganador == None && ordenTurnos == [] && premios == 0
    {
      this.jugador, this.enemigo := jugador, enemigo;
      turno, ganador, ordenTurnos, premios := 1, None, [], 0;
    }

    /** `determinarOrdenTurnos`: the faster side acts first, and the player wins a tie. */
    function DeterminarOrdenTurnos(): (o: seq<Explorador>)
      ensures |o| == 2 && multiset(o) == multiset{jugador, enemigo}
      ensures jugador.velocidad >= enemigo.velocidad ==> o[0] == jugador
      ensures jugador.velocidad < enemigo.velocidad ==> o[0] == enemigo
    {
      if jugador.velocidad >= enemigo.velocidad then [jugador, enemigo] else [enemigo, jugador]
    }

    /** Whether a stored winner is the side whose opponent is down. */
    ghost predicate GanadorCoherente()
      reads this, jugador, enemigo
    {
      ganador.Some? ==>
        (ganador.value == Ganador("Enemigo", enemigo.nombre) && !jugador.EstaVivo()) ||
        (ganador.value == Ganador("Jugador", jugador.nombre) && !enemigo.EstaVivo())
    }

    /** What this battle never changes, as the battle functions take it. */
    function Lados(): Bandos {
      Bandos(jugador.arquetipo, enemigo.arquetipo, jugador.clase, enemigo.clase, jugador.nombre, enemigo.nombre,
             jugador.velocidad >= enemigo.velocidad)
    }

    /** The current state, as the battle functions take it. */
    ghost function Ahora(): Momento
      reads this`ganador, jugador, enemigo
    {
      Momento(jugador.Actual(), enemigo.Actual(), ganador)
    }

    /**
     * `usarItem(combatiente)`: with an empty inventory it fails and nothing
     * changes; otherwise the item at the index the player picked is used.
     */
    method UsarItem(combatiente: Explorador, indice: int) returns (r: Resultado)
      modifies combatiente
      ensures |old(combatiente.inventario)| == 0 ==>
                r == Fallo("No tienes items en el inventario") && combatiente.Actual() == old(combatiente.Actual())
      ensures |old(combatiente.inventario)| > 0 ==>
                (r, combatiente.Actual()) == UsoItem(old(combatiente.Actual()), combatiente.arquetipo, indice)
    {
      if |combatiente.inventario| == 0 {
        return Fallo("No tienes items en el inventario");
      }
      r := combatiente.UsarItem(indice);
    }

    /**
     * The ability branches of `ejecutarAccion`: `atacante.<id>(objetivo)`,
     * which throws when the acting object's class does not define the method.
     */
    method EjecutarHabilidad(atacante: Explorador, objetivo: Explorador, h: Habilidad, t: Tirada)
      returns (r: Resultado)
      requires atacante != objetivo && TiradaValida(t) && !h.Curar?
      modifies atacante, objetivo
      ensures atacante.arquetipo != Propietario(h) ==>
                r == Excepcion(NoEsFuncion(IdAccion(h))) &&
                atacante.Actual() == old(atacante.Actual()) && objetivo.Actual() == old(objetivo.Actual())
      ensures atacante.arquetipo == Propietario(h) ==>
                (r, atacante.Actual(), objetivo.Actual()) == EfectoHabilidad(h, old(atacante.Actual()), old(objetivo.Actual()), t)
      ensures atacante.arquetipo == Propietario(h) ==>
                r == Fallo("No energy") || (r.Golpe? && r.accion == Etiqueta(h) && r.energiaUsada == Coste(h))
      ensures Corta(r) ==> atacante.Actual() == old(atacante.Actual()) && objetivo.Actual() == old(objetivo.Actual())
      ensures atacante.energia == old(atacante.energia)
      ensures objetivo.Actual() == old(objetivo.Actual()).(vida := objetivo.vida)
      ensures old(objetivo.vida) >= 0.0 ==> objetivo.vida <= old(objetivo.vida)
      ensures old(atacante.Valido()) && old(objetivo.Valido()) ==> atacante.Valido() && objetivo.Valido()
    {
      if atacante.arquetipo == Propietario(h) {
        r := atacante.UsarHabilidad(h, objetivo, t);
      } else {
        r := Excepcion(NoEsFuncion(IdAccion(h)));
      }
    }

    /**
     * `ejecutarAccion(atacante, objetivo, accion)`: the switch on the action
     * id. An ability is called as a method of the acting object, which throws
     * when its class does not define it; `curar` is called with no argument.
     */
    method EjecutarAccion(atacante: Explorador, objetivo: Explorador, accion: string, indiceItem: int, t: Tirada)
      returns (r: Resultado)
      requires atacante != objetivo && TiradaValida(t)
      modifies atacante, objetivo
      ensures (r, atacante.Actual(), objetivo.Actual()) ==
              EfectoAccion(atacante.arquetipo, old(atacante.Actual()), old(objetivo.Actual()), accion, indiceItem, t)
      ensures old(atacante.Valido()) && old(objetivo.Valido()) ==> atacante.Valido() && objetivo.Valido()
    {
      if accion == "atacar" {
        r := atacante.Atacar(objetivo, t.u1);
      } else if accion == "descansar" {
        r := atacante.Descansar();
      } else if accion == "curar" {
        if atacante.arquetipo == Mago {
          r := atacante.CurarMago(MarcosDePila);
        } else {
          r := VidaIndefinida;
        }
      } else if accion == "usarItem" {
        r := UsarItem(atacante, indiceItem);
      } else if HabilidadDeId(accion).Some? {
        r := EjecutarHabilidad(atacante, objetivo, HabilidadDeId(accion).value, t);
      } else {
        r := Fallo("Acción desconocida");
      }
    }

    /** `turnoJugador`: the player answers the menu prompt; an answer not on the menu is not a possible answer. */
    method TurnoJugador(e: EntradaJugador) returns (valida: bool, r: Resultado)
      requires jugador != enemigo && TiradaValida(e.tirada)
      modifies jugador, enemigo
      ensures valida <==> Ofrece(AccionesDisponibles(jugador.clase, old(jugador.energia), |old(jugador.inventario)| > 0), e.accion)
      ensures valida ==>
                (r, jugador.Actual(), enemigo.Actual()) ==
                EfectoAccion(jugador.arquetipo, old(jugador.Actual()), old(enemigo.Actual()), e.accion, e.indiceItem, e.tirada)
      ensures !valida || Corta(r) ==> jugador.Actual() == old(jugador.Actual()) && enemigo.Actual() == old(enemigo.Actual())
      ensures old(jugador.Valido()) && old(enemigo.Valido()) ==> jugador.Valido() && enemigo.Valido()
    {
      var acciones := AccionesDisponibles(jugador.clase, jugador.energia, |jugador.inventario| > 0);
      if !(exists x :: x in acciones && x.valor == e.accion) {
        return false, Fallo("Acción desconocida");
      }
      valida := true;
      r := EjecutarAccion(jugador, enemigo, e.accion, e.indiceItem, e.tirada);
    }

    /** `turnoEnemigo`: the enemy picks from its menu and acts on the player; returns the id it picked. */
    method TurnoEnemigo(e: EntradaEnemigo) returns (accion: string, r: Resultado)
      requires jugador != enemigo && TiradaValida(e.tirada) && Unidad(e.r1) && Unidad(e.r2) && Unidad(e.r3)
      modifies jugador, enemigo
      ensures var a := ElegirAccionIA(AccionesDisponibles(enemigo.clase, old(enemigo.energia), |old(enemigo.inventario)| > 0),
                                      e.r1, e.r2, e.r3);
              a.Some? && accion == a.value.valor
      ensures accion == EleccionIA(enemigo.clase, old(enemigo.Actual()), e)
      ensures accion == "atacar" || accion == "lluviaFlechas" || accion == "curar" || accion == "descansar"
      ensures (r, enemigo.Actual(), jugador.Actual()) ==
              EfectoAccion(enemigo.arquetipo, old(enemigo.Actual()), old(jugador.Actual()), accion, 0, e.tirada)
      ensures Corta(r) ==> jugador.Actual() == old(jugador.Actual()) && enemigo.Actual() == old(enemigo.Actual())
      ensures old(jugador.Valido()) && old(enemigo.Valido()) ==> jugador.Valido() && enemigo.Valido()
    {
      var acciones := AccionesDisponibles(enemigo.clase, enemigo.energia, |enemigo.inventario| > 0);
      EleccionEnemigo(enemigo.clase, enemigo.energia, |enemigo.inventario| > 0, e.r1, e.r2, e.r3);
      var elegida := ElegirAccionIA(acciones, e.r1, e.r2, e.r3);
      accion := elegida.value.valor;
      r := EjecutarAccion(enemigo, jugador, accion, 0, e.tirada);
    }

    /**
     * `verificarGanador`: a fallen player loses, checked first; otherwise a
     * fallen enemy makes the player the winner, who gains 50 experience.
     */
    method VerificarGanador()
      modifies this, jugador
      ensures !old(jugador.EstaVivo()) ==>
                ganador == Some(Ganador("Enemigo", enemigo.nombre)) && jugador.Actual() == old(jugador.Actual()) &&
                premios == old(premios)
      ensures old(jugador.EstaVivo()) && !enemigo.EstaVivo() ==>
                ganador == Some(Ganador("Jugador", jugador.nombre)) &&
                jugador.Actual() == TrasExperiencia(old(jugador.Actual()), 50) && premios == old(premios) + 1
      ensures old(jugador.EstaVivo()) && enemigo.EstaVivo() ==>
                ganador == old(ganador) && jugador.Actual() == old(jugador.Actual()) && premios == old(premios)
      ensures old(ganador).None? ==>
                ganador == Veredicto(old(jugador.Actual()), enemigo.Actual(), jugador.nombre, enemigo.nombre)
      ensures jugador.Actual() == Premiado(old(jugador.Actual()), enemigo.Actual())
      ensures turno == old(turno) && ordenTurnos == old(ordenTurnos)
      ensures old(ganador).None? ==> GanadorCoherente()
      ensures old(jugador.Valido()) ==> jugador.Valido()
      ensures old(ganador).None? && ganador.Some? && ganador.value.tipo == "Jugador" && old(jugador.Valido()) ==>
                jugador.EstaVivo()
    {
      if !jugador.EstaVivo() {
        ganador := Some(Ganador("Enemigo", enemigo.nombre));
      } else if !enemigo.EstaVivo() {
        ganador := Some(Ganador("Jugador", jugador.nombre));
        var _ := jugador.GanarExperiencia(50);
        premios := premios + 1;
      }
    }

    /**
     * One combatant's slot of a turn: it acts, then the winner is checked.
     * Returns how the battle ends when the action cannot be followed.
     */
    method Actuar(combatiente: Explorador, ronda: Ronda) returns (corte: Option<Fin>)
      requires jugador != enemigo && RondaValida(ronda) && ganador.None?
      requires combatiente == jugador || combatiente == enemigo
      modifies this, jugador, enemigo
      ensures turno == old(turno) && ordenTurnos == old(ordenTurnos)
      ensures corte == Some(SinEntradas) <==>
                combatiente == jugador &&
                !Ofrece(AccionesDisponibles(jugador.clase, old(jugador.energia), |old(jugador.inventario)| > 0), ronda.jugador.accion)
      ensures var q := Jugada(combatiente == jugador, jugador.arquetipo, old(jugador.Actual()), enemigo.arquetipo,
                              old(enemigo.Actual()), enemigo.clase, ronda);
              corte != Some(SinEntradas) ==>
                corte == (if Corta(q.0) then Some(Interrumpida(q.0)) else None) &&
                (corte.None? ==>
                   enemigo.Actual() == q.2 && jugador.Actual() == Premiado(q.1, q.2) &&
                   ganador == Veredicto(q.1, q.2, jugador.nombre, enemigo.nombre))
      ensures corte.Some? ==> jugador.Actual() == old(jugador.Actual()) && enemigo.Actual() == old(enemigo.Actual())
      ensures Ranura(Lados(), old(Ahora()), combatiente == jugador, ronda).0 == corte
      ensures Ranura(Lados(), old(Ahora()), combatiente == jugador, ronda).1 == Ahora()
      ensures corte.Some? ==> ganador.None? && premios == old(premios) && (corte.value.SinEntradas? || corte.value.Interrumpida?)
      ensures corte.Some? && corte.value.Interrumpida? ==> Corta(corte.value.resultado)
      ensures corte.None? ==> GanadorCoherente()
      ensures corte.None? ==> premios == old(premios) + (if ganador.Some? && ganador.value.tipo == "Jugador" then 1 else 0)
      ensures corte.None? && ganador.Some? && ganador.value.tipo == "Jugador" && old(jugador.Valido()) && old(enemigo.Valido()) ==> jugador.EstaVivo()
      ensures old(jugador.Valido()) && old(enemigo.Valido()) ==> jugador.Valido() && enemigo.Valido()
    {
      ghost var inicial := Ahora();
      RanuraJugada(Lados(), inicial, combatiente == jugador, ronda);
      var r;
      if combatiente == jugador {
        var valida;
        valida, r := TurnoJugador(ronda.jugador);
        if !valida {
          return Some(SinEntradas);
        }
      } else {
        var elegida;
        elegida, r := TurnoEnemigo(ronda.enemigo);
      }
      if Corta(r) {
        return Some(Interrumpida(r));
      }
      VerificarGanador();
      corte := None;
    }

    /**
     * One pass of the `for` loop of `iniciar` over the turn order: each side
     * in turn acts and the winner is checked, and the second side is skipped
     * once a winner is stored.
     */
    method JugarTurno(ronda: Ronda) returns (corte: Option<Fin>)
      requires jugador != enemigo && RondaValida(ronda) && ganador.None? && ordenTurnos == DeterminarOrdenTurnos()
      modifies this, jugador, enemigo
      ensures Turno(Lados(), old(Ahora()), ronda, 2) == (corte, Ahora())
      ensures turno == old(turno) && ordenTurnos == old(ordenTurnos)
      ensures premios == old(premios) + (if ganador.Some? && ganador.value.tipo == "Jugador" then 1 else 0)
    {
      ghost var inicio := Ahora();
      var k := 0;
      while k < 2
        invariant 0 <= k <= 2 && ordenTurnos == old(ordenTurnos) && turno == old(turno)
        invariant Turno(Lados(), inicio, ronda, k) == (None, Ahora())
        invariant premios == old(premios) + (if ganador.Some? && ganador.value.tipo == "Jugador" then 1 else 0)
      {
        if ganador.Some? {
          assert k == 1;
          return None;
        }
        assert ordenTurnos[k] == jugador <==> DelJugador(Lados(), k);
        corte := Actuar(ordenTurnos[k], ronda);
        if corte.Some? {
          assert Turno(Lados(), inicio, ronda, k + 1) == (corte, Ahora());
          return;
        }
        k := k + 1;
      }
      corte := None;
    }

    /**
     * `iniciar`: fixes the turn order once, then runs turns until there is a
     * winner. In each turn both sides act in that order, the winner check
     * follows every action, nobody acts once a winner is known, and the turn
     * counter grows after every turn, the deciding one included. The victory
     * experience is given once, exactly when the player wins.
     */
    method Iniciar(rondas: seq<Ronda>) returns (fin: Fin, jugadas: nat)
      requires jugador != enemigo
      requires forall k :: 0 <= k < |rondas| ==> RondaValida(rondas[k])
      modifies this, jugador, enemigo
      ensures (fin, jugadas, Ahora()) == Partida(Lados(), old(Ahora()), rondas)
      ensures ordenTurnos == DeterminarOrdenTurnos()
      ensures turno == old(turno) + jugadas && jugadas <= |rondas|
      ensures fin.Decidida? <==> ganador.Some?
      ensures fin.Decidida? ==> ganador == Some(fin.ganador)
      ensures fin.Interrumpida? ==> Corta(fin.resultado) && jugadas < |rondas|
      ensures fin.SinEntradas? ==>
                jugadas == |rondas| ||
                !Ofrece(AccionesDisponibles(jugador.clase, jugador.energia, |jugador.inventario| > 0), rondas[jugadas].jugador.accion)
      ensures old(ganador).None? && fin.Decidida? ==> jugadas >= 1
      ensures old(ganador).Some? ==>
                fin == Decidida(old(ganador).value) && jugadas == 0 &&
                jugador.Actual() == old(jugador.Actual()) && enemigo.Actual() == old(enemigo.Actual())
      ensures old(ganador).None? ==> GanadorCoherente()
      ensures premios == old(premios) + (if old(ganador).None? && fin.Decidida? && fin.ganador.tipo == "Jugador" then 1 else 0)
      ensures old(ganador).None? && fin.Decidida? && fin.ganador.tipo == "Jugador" && old(jugador.Valido()) && old(enemigo.Valido()) ==> jugador.EstaVivo()
      ensures old(jugador.Valido()) && old(enemigo.Valido()) ==> jugador.Valido() && enemigo.Valido()
    {
      ghost var inicial := Ahora();
      ordenTurnos := DeterminarOrdenTurnos();
      PartidaMenu(Lados(), inicial, rondas);
      PartidaCoherente(Lados(), inicial, rondas);
      PartidaSana(Lados(), inicial, rondas);
      TramoInicial(Lados(), inicial, rondas);
      fin, jugadas := Combatir(Partida(Lados(), inicial, rondas), rondas);
    }

    /**
     * Turn `rondas[j]` of a battle whose whole result is `total`, with `j`
     * turns played: the turn stops the battle with that result, or the rest
     * of the battle is left.
     */
    method Avanzar(ghost total: (Fin, nat, Momento), rondas: seq<Ronda>, j: nat) returns (corte: Option<Fin>)
      requires jugador != enemigo
      requires forall k :: 0 <= k < |rondas| ==> RondaValida(rondas[k])
      requires ordenTurnos == DeterminarOrdenTurnos() && ganador.None?
      requires j < |rondas| && Tramo(Lados(), total, rondas, Ahora(), j)
      modifies this, jugador, enemigo
      ensures corte.Some? ==> total.0 == corte.value && total.1 == j && total.2 == Ahora()
      ensures corte.None? ==> Tramo(Lados(), total, rondas, Ahora(), j + 1)
      ensures turno == old(turno) && ordenTurnos == old(ordenTurnos)
      ensures premios == old(premios) + (if ganador.Some? && ganador.value.tipo == "Jugador" then 1 else 0)
    {
      ghost var antes := Ahora();
      corte := JugarTurno(rondas[j]);
      TramoSigue(Lados(), total, rondas, antes, j, (corte, Ahora()));
    }

    /**
     * The `while` loop of `iniciar`, once the turn order is fixed: turns are
     * played until there is a winner, and the result is the battle's
     * `total`.
     */
    method Combatir(ghost total: (Fin, nat, Momento), rondas: seq<Ronda>) returns (fin: Fin, jugadas: nat)
      requires jugador != enemigo
      requires forall k :: 0 <= k < |rondas| ==> RondaValida(rondas[k])
      requires ordenTurnos == DeterminarOrdenTurnos()
      requires Tramo(Lados(), total, rondas, Ahora(), 0)
      modifies this, jugador, enemigo
      ensures fin == total.0 && jugadas == total.1 && Ahora() == total.2
      ensures ordenTurnos == old(ordenTurnos) && turno == old(turno) + jugadas
      ensures premios == old(premios) + (if old(ganador).None? && ganador.Some? && ganador.value.tipo == "Jugador" then 1 else 0)
    {
      jugadas := 0;
      while ganador.None?
        invariant ordenTurnos == old(ordenTurnos)
        invariant turno == old(turno) + jugadas
        invariant Tramo(Lados(), total, rondas, Ahora(), jugadas)
        invariant premios == old(premios) + (if old(ganador).None? && ganador.Some? && ganador.value.tipo == "Jugador" then 1 else 0)
        decreases |rondas| - jugadas
      {
        if jugadas == |rondas| {
          TramoFinal(Lados(), total, rondas, Ahora(), jugadas);
          return SinEntradas, jugadas;
        }
        var corte := Avanzar(total, rondas, jugadas);
        if corte.Some? {
          return corte.value, jugadas;
        }
        turno := turno + 1;
        jugadas := jugadas + 1;
      }
      TramoFinal(Lados(), total, rondas, Ahora(), jugadas);
      fin := Decidida(ganador.value);
    }
  }
}
