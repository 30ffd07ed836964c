/**
 * The combatant (`Explorador` and its five subclasses) as one class: the
 * private fields it updates in place, and every method of the base class and
 * of the subclasses. Which subclass an object is an instance of is the
 * constant `arquetipo`; the abilities are one method driven by the ability
 * table of module Arquetipos.
 *
 * Each state-changing method states its whole new state as a function of the
 * old one through `Actual()`; the pure functions it uses (TrasDano, Sanacion,
 * TrasExperiencia, EfectoItem, ...) carry the properties the game promises.
 */
module Combatientes {
  import opened Wrappers
  import opened Json
  import opened Arquetipos
  import opened Items

  /**
   * The frames the JavaScript engine can still stack when a combatant's
   * method is called from the battle. Engine dependent; no result depends
   * on its value, since the only unbounded recursion ends in an overflow
   * whatever it is.
   */
  const MarcosDePila: nat := 10000

  /** What a method can throw. */
  datatype Error =
    | DesbordamientoPila            // RangeError: maximum call stack size exceeded
    | NoEsFuncion(metodo: string)   // TypeError: x.metodo is not a function
    | NoImplementado                // the abstract Item.usar

  /** An amount reported as healed: a number, or the record another `curar` returned. */
  datatype Cantidad = Puntos(n: real) | Registro(r: Resultado)

  /** The record a combat or item method returns, or the exception it throws. */
  datatype Resultado =
    | Fallo(razon: string)                                  // success: false, reason
    | Golpe(accion: string, dano: real, energiaUsada: int)  // an attack or ability that hit
    | Descanso(recupera: int)
    | PocionBebida(curacion: Cantidad)
    | EnergiaBebida(energiaRecuperada: int)
    | Equipable                                             // weapons and armour: success: false
    | Excepcion(error: Error)
    | VidaIndefinida                                        // see Batalla: `curar()` reaching the base class
  {
    /** The `success` field. */
    predicate Exito() {
      Golpe? || Descanso? || PocionBebida? || EnergiaBebida?
    }
  }

  /** Three draws of `Math.random()` for one action; hit k of an ability uses draw k. */
  datatype Tirada = Tirada(u1: real, u2: real, u3: real)

  predicate TiradaValida(t: Tirada) {
    Unidad(t.u1) && Unidad(t.u2) && Unidad(t.u3)
  }

  function Sorteo(t: Tirada, k: nat): real
    requires k < 3
  {
    if k == 0 then t.u1 else if k == 1 then t.u2 else t.u3
  }

  /** Every field of a combatant that a method can read and may change, and the stats it cannot. */
  datatype Ficha = Ficha(nivel: int, experiencia: int, vida: real, maxVida: int,
                         energia: int, maxEnergia: int, ataque: int, defensa: int,
                         velocidad: int, inventario: seq<Item>, energiaPublica: Option<int>)

  /** Items whose effect keeps the health and energy bounds: no potion with a negative heal. */
  predicate ItemsSanos(s: seq<Item>) {
    forall k :: 0 <= k < |s| ==> (s[k].efecto.Pocion? ==> s[k].efecto.curacion >= 0)
  }

  /** The combatant invariant: health in [0, maxVida], energy in [0, maxEnergia], sane stats and items. */
  predicate FichaValida(f: Ficha) {
    0.0 <= f.vida <= f.maxVida as real && 0 <= f.energia <= f.maxEnergia &&
    f.nivel >= 1 && f.experiencia >= 0 && f.ataque >= 0 && f.defensa >= 0 &&
    ItemsSanos(f.inventario)
  }

  /** The constructor options; a None is an option left undefined. */
  datatype Opciones = Opciones(id: string, nombre: string, clase: Option<string>,
                               nivel: Option<int>, experiencia: Option<int>,
                               vida: Option<real>, maxVida: Option<int>,
                               energia: Option<int>, maxEnergia: Option<int>,
                               ataque: Option<int>, defensa: Option<int>, velocidad: Option<int>)

  // ==================== construction ====================

  /**
   * The state a constructor builds. A subclass spreads its options and then
   * overwrites every stat with its constants, so only nivel and experiencia
   * (and id and nombre) survive; the base class takes each stat from the
   * options with its own default. The inventory starts empty.
   */
  function FichaInicial(a: Arquetipo, o: Opciones): (f: Ficha)
    ensures f.nivel == o.nivel.GetOr(1) && f.experiencia == o.experiencia.GetOr(0)
    ensures f.inventario == [] && f.energiaPublica == None
    ensures a != Generico ==>
              f.vida == StatsBase(a).vida as real && f.maxVida == StatsBase(a).maxVida &&
              f.energia == StatsBase(a).energia && f.maxEnergia == StatsBase(a).maxEnergia &&
              f.ataque == StatsBase(a).ataque && f.defensa == StatsBase(a).defensa &&
              f.velocidad == StatsBase(a).velocidad
    ensures a != Generico && f.nivel >= 1 && f.experiencia >= 0 ==>
              FichaValida(f) && f.vida == f.maxVida as real && f.energia == f.maxEnergia
  {
    var s := StatsBase(a);
    if a == Generico then
      Ficha(o.nivel.GetOr(1), o.experiencia.GetOr(0), o.vida.GetOr(s.vida as real),
            o.maxVida.GetOr(s.maxVida), o.energia.GetOr(s.energia), o.maxEnergia.GetOr(s.maxEnergia),
            o.ataque.GetOr(s.ataque), o.defensa.GetOr(s.defensa), o.velocidad.GetOr(s.velocidad), [], None)
    else
      Ficha(o.nivel.GetOr(1), o.experiencia.GetOr(0), s.vida as real, s.maxVida, s.energia, s.maxEnergia,
            s.ataque, s.defensa, s.velocidad, [], None)
  }

  /** The class tag a constructor stores: the subclass's own name, or the `clase` option for the base class. */
  function ClaseInicial(a: Arquetipo, o: Opciones): (c: string)
    ensures a != Generico ==> c == ClaseDe(a)
    ensures a == Generico ==> c == o.clase.GetOr("Explorador")
    ensures a != Generico ==> (c == "Mago" <==> a == Mago) && c != "Explorador"
    ensures a != Generico ==> forall a2 :: a2 != Generico && ClaseDe(a2) == c ==> a2 == a
  {
    if a == Generico then o.clase.GetOr("Explorador") else ClaseDe(a)
  }

  // ==================== health, healing, energy ====================

  /** `Math.max(0, vida - dano)`: never negative, and zero exactly when the damage reaches the health. */
  function TrasDano(vida: real, dano: real): (v: real)
    ensures v >= 0.0
    ensures v > 0.0 <==> dano < vida
    ensures v > 0.0 ==> v == vida - dano
    ensures 0.0 <= dano && 0.0 <= vida ==> v <= vida
  {
    if vida - dano > 0.0 then vida - dano else 0.0
  }

  function Suma(ds: seq<real>): real {
    if ds == [] then 0.0 else ds[0] + Suma(ds[1..])
  }

  /** The health left after the hits `ds`, applied one after the other. */
  function TrasGolpes(vida: real, ds: seq<real>): real
    decreases |ds|
  {
    if ds == [] then vida else TrasGolpes(TrasDano(vida, ds[0]), ds[1..])
  }

  /**
   * Applying non-negative hits one by one leaves the same health as one hit
   * of their total: a hit that lands after the target is at 0 changes nothing.
   */
  lemma {:induction false} TrasGolpesEsTrasSuma(vida: real, ds: seq<real>)
    requires vida >= 0.0
    requires forall k :: 0 <= k < |ds| ==> ds[k] >= 0.0
    ensures TrasGolpes(vida, ds) == TrasDano(vida, Suma(ds))
    decreases |ds|
  {
    if ds != [] {
      assert forall k :: 0 <= k < |ds[1..]| ==> ds[1..][k] >= 0.0 by {
        forall k | 0 <= k < |ds[1..]| ensures ds[1..][k] >= 0.0 {
          assert ds[1..][k] == ds[k + 1];
        }
      }
      TrasGolpesEsTrasSuma(TrasDano(vida, ds[0]), ds[1..]);
      SumaNoNegativa(ds[1..]);
    }
  }

  lemma {:induction false} SumaNoNegativa(ds: seq<real>)
    requires forall k :: 0 <= k < |ds| ==> ds[k] >= 0.0
    ensures Suma(ds) >= 0.0
  {
    if ds != [] {
      assert forall k :: 0 <= k < |ds[1..]| ==> ds[1..][k] >= 0.0 by {
        forall k | 0 <= k < |ds[1..]| ensures ds[1..][k] >= 0.0 {
          assert ds[1..][k] == ds[k + 1];
        }
      }
      SumaNoNegativa(ds[1..]);
    }
  }

  /** `Math.min(cantidad, maxVida - vida)`: the heal that stops at maxVida. */
  function Sanacion(vida: real, maxVida: int, cantidad: real): (h: real)
    ensures h <= cantidad && vida + h <= maxVida as real
    ensures h == cantidad || vida + h == maxVida as real
    ensures 0.0 <= cantidad && vida <= maxVida as real ==> 0.0 <= h
    ensures 0.0 <= cantidad && vida == maxVida as real ==> h == 0.0
  {
    if cantidad < maxVida as real - vida then cantidad else maxVida as real - vida
  }

  /** Energy after resting: 15 more, capped at maxEnergia. */
  function Recargada(energia: int, maxEnergia: int): (e: int)
    ensures e <= maxEnergia && e <= energia + 15
    ensures e == energia + 15 || e == maxEnergia
    ensures energia + 15 <= maxEnergia ==> e == energia + 15
    ensures energia <= maxEnergia ==> energia <= e
  {
    if maxEnergia < energia + 15 then maxEnergia else energia + 15
  }

  /** `_setEnergia`'s clamp: `Math.min(maxEnergia, Math.max(0, valor))`. */
  function Acotada(valor: int, maxEnergia: int): (e: int)
    ensures e <= maxEnergia
    ensures 0 <= maxEnergia ==> 0 <= e
    ensures 0 <= valor <= maxEnergia ==> e == valor
    ensures valor < 0 <= maxEnergia ==> e == 0
    ensures 0 <= maxEnergia < valor ==> e == maxEnergia
  {
    var v := if valor > 0 then valor else 0;
    if maxEnergia < v then maxEnergia else v
  }

  // ==================== experience and levels ====================

  /** `subirNivel`: one level more, experience reset, 10% (floored) more maxVida, ataque and defensa, full health. */
  function Subida(f: Ficha): (g: Ficha)
    ensures g.nivel == f.nivel + 1 && g.experiencia == 0
    ensures g.maxVida == f.maxVida + f.maxVida / 10 && g.vida == g.maxVida as real
    ensures g.ataque == f.ataque + f.ataque / 10 && g.defensa == f.defensa + f.defensa / 10
    ensures g.energia == f.energia && g.maxEnergia == f.maxEnergia && g.velocidad == f.velocidad
    ensures g.inventario == f.inventario && g.energiaPublica == f.energiaPublica
    ensures FichaValida(f) ==> FichaValida(g)
  {
    var m := f.maxVida + f.maxVida / 10;
    f.(nivel := f.nivel + 1, experiencia := 0, maxVida := m, vida := m as real,
       ataque := f.ataque + f.ataque / 10, defensa := f.defensa + f.defensa / 10)
  }

  /**
   * `ganarExperiencia(cantidad)`: adds the experience and levels up once,
   * and only once however much was gained, exactly when the new total
   * reaches nivel·100.
   */
  function TrasExperiencia(f: Ficha, cantidad: int): (g: Ficha)
    ensures g.nivel == f.nivel + 1 <==> f.experiencia + cantidad >= f.nivel * 100
    ensures g.nivel == f.nivel + 1 || g.nivel == f.nivel
    ensures g.nivel == f.nivel ==> g == f.(experiencia := f.experiencia + cantidad)
    ensures g.nivel == f.nivel + 1 ==> g == Subida(f)
    ensures FichaValida(f) && cantidad >= 0 ==> FichaValida(g)
  {
    var h := f.(experiencia := f.experiencia + cantidad);
    if h.experiencia >= f.nivel * 100 then Subida(h) else h
  }

  /** The record `subirNivel` returns: the new level and each improvement. */
  datatype Mejoras = Mejoras(nivel: int, vida: int, ataque: int, defensa: int)

  // ==================== inventory ====================

  /** `splice(indice, 1)`: that item removed, the others kept in order. */
  function Quitar(s: seq<Item>, indice: int): (r: seq<Item>)
    requires 0 <= indice < |s|
    ensures |r| == |s| - 1
    ensures forall k :: 0 <= k < indice ==> r[k] == s[k]
    ensures forall k :: indice <= k < |r| ==> r[k] == s[k + 1]
    ensures multiset(r) + multiset{s[indice]} == multiset(s)
    ensures ItemsSanos(s) ==> ItemsSanos(r)
  {
    assert s == s[..indice] + [s[indice]] + s[indice + 1..];
    s[..indice] + s[indice + 1..]
  }

  /**
   * What `item.usar(explorador)` returns and leaves behind, for a combatant
   * of class `a` in state `f`. A potion heals through `curar`, which on a
   * Mago is the no-argument override: it fails when energy is below 8 (and
   * the potion reports that record as its heal) and otherwise recurses until
   * the stack overflows. An energy drink reports the capped amount but
   * writes it through `_setEnergia`, so the real energy never changes, and on
   * the base class, which has no `_setEnergia`, it throws. Weapons and armour
   * are inert. The abstract item throws.
   */
  function EfectoItem(f: Ficha, a: Arquetipo, e: Efecto): (p: (Resultado, Ficha))
    ensures p.1.energia == f.energia && p.1.inventario == f.inventario
    ensures p.0.Exito() ==> e.Pocion? || e.Energia?
    ensures e.Pocion? && a != Mago ==> p.0 == PocionBebida(Puntos(Sanacion(f.vida, f.maxVida, e.curacion as real)))
    ensures e.Pocion? && a == Mago && f.energia < 8 ==> p.0 == PocionBebida(Registro(Fallo("No energy")))
    ensures e.Pocion? && a == Mago && f.energia >= 8 ==> p.0 == Excepcion(DesbordamientoPila)
    ensures e.Energia? && a != Generico ==>
              p.0 == EnergiaBebida(if e.bonusEnergia < f.maxEnergia - f.energia then e.bonusEnergia else f.maxEnergia - f.energia)
    ensures e.Energia? && a == Generico ==> p.0 == Excepcion(NoEsFuncion("_setEnergia"))
    ensures (e.Arma? || e.Armadura?) ==> p.0 == Equipable
    ensures e.Base? ==> p.0 == Excepcion(NoImplementado)
    ensures !(e.Pocion? && a != Mago) && !(e.Energia? && a != Generico) ==> p.1 == f
    ensures FichaValida(f) && (e.Pocion? ==> e.curacion >= 0) ==> FichaValida(p.1)
  {
    match e
    case Base => (Excepcion(NoImplementado), f)
    case Pocion(c) =>
      if a == Mago then
        (if f.energia < 8 then (PocionBebida(Registro(Fallo("No energy"))), f)
         else (Excepcion(DesbordamientoPila), f))
      else
        var h := Sanacion(f.vida, f.maxVida, c as real);
        (PocionBebida(Puntos(h)), f.(vida := f.vida + h))
    case Energia(b) =>
      var recuperada := if b < f.maxEnergia - f.energia then b else f.maxEnergia - f.energia;
      if a == Generico then (Excepcion(NoEsFuncion("_setEnergia")), f)
      else (EnergiaBebida(recuperada), f.(energiaPublica := Some(Acotada(f.energia + recuperada, f.maxEnergia))))
    case Arma(_, _) => (Equipable, f)
    case Armadura(_, _) => (Equipable, f)
  }

  /**
   * `usarItem(indice)`: an index out of range fails and changes nothing;
   * otherwise the item acts, and it is removed, with the others kept in
   * order, exactly when it reports success.
   */
  function UsoItem(f: Ficha, a: Arquetipo, indice: int): (p: (Resultado, Ficha))
    ensures !(0 <= indice < |f.inventario|) ==> p == (Fallo("Item no encontrado"), f)
    ensures 0 <= indice < |f.inventario| ==>
              p.0 == EfectoItem(f, a, f.inventario[indice].efecto).0 &&
              p.1.inventario == (if p.0.Exito() then Quitar(f.inventario, indice) else f.inventario)
    ensures |p.1.inventario| == |f.inventario| - (if p.0.Exito() then 1 else 0)
    ensures p.1.energia == f.energia
    ensures FichaValida(f) ==> FichaValida(p.1)
  {
    if indice < 0 || indice >= |f.inventario| then (Fallo("Item no encontrado"), f)
    else
      var item := f.inventario[indice];
      assert FichaValida(f) ==> (item.efecto.Pocion? ==> item.efecto.curacion >= 0);
      var (r, g) := EfectoItem(f, a, item.efecto);
      if r.Exito() then (r, g.(inventario := Quitar(g.inventario, indice))) else (r, g)
  }

  // ==================== abilities ====================

  /** The damage of each hit of ability `h`, in the order they land. */
  function DanosHabilidad(h: Habilidad, ataque: int, defensa: int, t: Tirada): (ds: seq<real>)
    requires !h.Curar? && TiradaValida(t)
    ensures |ds| == Golpes(h)
    ensures forall k :: 0 <= k < |ds| ==> ds[k] == DanoGolpe(h, ataque, defensa, Sorteo(t, k)) && ds[k] >= 1.0
  {
    seq(Golpes(h), k requires 0 <= k < Golpes(h) => DanoGolpe(h, ataque, defensa, Sorteo(t, k)))
  }

  /** The reported total of a multi-hit ability is at least one point per hit. */
  lemma {:induction false} SumaAlMenosGolpes(ds: seq<real>)
    requires forall k :: 0 <= k < |ds| ==> ds[k] >= 1.0
    ensures Suma(ds) >= |ds| as real
  {
    if ds != [] {
      assert forall k :: 0 <= k < |ds[1..]| ==> ds[1..][k] >= 1.0 by {
        forall k | 0 <= k < |ds[1..]| ensures ds[1..][k] >= 1.0 {
          assert ds[1..][k] == ds[k + 1];
        }
      }
      SumaAlMenosGolpes(ds[1..]);
    }
  }

  /**
   * All the hits of a multi-hit ability land even when an earlier one has
   * already brought the target to 0, so the reported total can exceed the
   * health the target lost: three hits of 5 on a target at 4.
   */
  lemma DanoReportadoExcedeVidaPerdida()
    ensures Suma([5.0, 5.0, 5.0]) == 15.0 && TrasGolpes(4.0, [5.0, 5.0, 5.0]) == 0.0
    ensures 4.0 - TrasGolpes(4.0, [5.0, 5.0, 5.0]) < Suma([5.0, 5.0, 5.0])
  {
    assert [5.0, 5.0, 5.0][1..] == [5.0, 5.0];
    assert [5.0, 5.0][1..] == [5.0];
    assert [5.0][1..] == [];
  }

  // ==================== the effect of a strike ====================

  /**
   * What `atacar` gives and leaves behind, for attacker `fa` and target `fo`:
   * below 5 energy a failure and no change; otherwise the basic damage
   * reported and taken, and 5 energy spent.
   */
  function EfectoAtacar(fa: Ficha, fo: Ficha, u: real): (p: (Resultado, Ficha, Ficha))
    requires Unidad(u)
    ensures fa.energia < 5 <==> p.0 == Fallo("No energy")
    ensures fa.energia < 5 ==> p.1 == fa && p.2 == fo
    ensures fa.energia >= 5 ==> p.0.Golpe? && p.0.dano >= 1.0 && p.0.energiaUsada == 5 &&
                                p.1 == fa.(energia := fa.energia - 5) && p.2 == fo.(vida := TrasDano(fo.vida, p.0.dano))
    ensures FichaValida(fa) && FichaValida(fo) ==> FichaValida(p.1) && FichaValida(p.2)
  {
    if fa.energia < 5 then (Fallo("No energy"), fa, fo)
    else
      var d := DanoAtacar(fa.ataque, fo.defensa, u);
      (Golpe("Atacar", d as real, 5), fa.(energia := fa.energia - 5), fo.(vida := TrasDano(fo.vida, d as real)))
  }

  /**
   * What a striking ability gives and leaves behind: below its cost a failure
   * and no change; otherwise its hits land in order on the target, their
   * total is reported with the cost, and the cost only reaches the stray
   * public `energia` property.
   */
  function EfectoHabilidad(h: Habilidad, fa: Ficha, fo: Ficha, t: Tirada): (p: (Resultado, Ficha, Ficha))
    requires !h.Curar? && TiradaValida(t)
    ensures fa.energia < Coste(h) <==> p.0 == Fallo("No energy")
    ensures fa.energia < Coste(h) ==> p.1 == fa && p.2 == fo
    ensures fa.energia >= Coste(h) ==>
              var ds := DanosHabilidad(h, fa.ataque, fo.defensa, t);
              p.0 == Golpe(Etiqueta(h), Suma(ds), Coste(h)) &&
              p.1 == fa.(energiaPublica := Some(Acotada(fa.energia - Coste(h), fa.maxEnergia))) &&
              p.2 == fo.(vida := TrasGolpes(fo.vida, ds))
    ensures p.1.energia == fa.energia
    ensures fo.vida >= 0.0 ==> 0.0 <= p.2.vida <= fo.vida
    ensures FichaValida(fa) && FichaValida(fo) ==> FichaValida(p.1) && FichaValida(p.2)
  {
    if fa.energia < Coste(h) then (Fallo("No energy"), fa, fo)
    else
      var ds := DanosHabilidad(h, fa.ataque, fo.defensa, t);
      HitsLimitan(fo.vida, ds);
      (Golpe(Etiqueta(h), Suma(ds), Coste(h)),
       fa.(energiaPublica := Some(Acotada(fa.energia - Coste(h), fa.maxEnergia))),
       fo.(vida := TrasGolpes(fo.vida, ds)))
  }

  /** Non-negative hits on a non-negative health leave it in [0, vida]. */
  lemma HitsLimitan(vida: real, ds: seq<real>)
    requires forall k :: 0 <= k < |ds| ==> ds[k] >= 1.0
    ensures vida >= 0.0 ==> 0.0 <= TrasGolpes(vida, ds) <= vida
  {
    if vida >= 0.0 {
      TrasGolpesEsTrasSuma(vida, ds);
      SumaNoNegativa(ds);
    }
  }

  // ==================== the combatant ====================

  /** The record `estado()` returns: the inventory is reported by its length. */
  datatype Vista = Vista(nombre: string, clase: string, nivel: int, vida: real, maxVida: int,
                         energia: int, maxEnergia: int, ataque: int, defensa: int,
                         velocidad: int, experiencia: int, inventario: nat)

  class Explorador {
    const arquetipo: Arquetipo
    const id: string
    const nombre: string
    const clase: string
    var nivel: int
    var experiencia: int
    var vida: real
    var maxVida: int
    var energia: int
    const maxEnergia: int
    var ataque: int
    var defensa: int
    const velocidad: int
    var inventario: seq<Item>
    /** The public `energia` property that every subclass's `_setEnergia` creates and writes. */
    var energiaPublica: Option<int>

    function Actual(): Ficha
      reads this
    {
      Ficha(nivel, experiencia, vida, maxVida, energia, maxEnergia, ataque, defensa, velocidad,
            inventario, energiaPublica)
    }

    ghost predicate Valido()
      reads this
    {
      FichaValida(Actual())
    }

    /** `new Explorador(opts)` when `a` is Generico, else `new ExploradorX(opts)`. */
    constructor (a: Arquetipo, o: Opciones)
      ensures arquetipo == a && id == o.id && nombre == o.nombre && clase == ClaseInicial(a, o)
      ensures Actual() == FichaInicial(a, o)
    {
      var f := FichaInicial(a, o);
      arquetipo, id, nombre, clase := a, o.id, o.nombre, ClaseInicial(a, o);
      maxEnergia, velocidad := f.maxEnergia, f.velocidad;
      nivel, experiencia, vida, maxVida, energia := f.nivel, f.experiencia, f.vida, f.maxVida, f.energia;
      ataque, defensa, inventario, energiaPublica := f.ataque, f.defensa, [], None;
    }

    /** `estaVivo()`. */
    predicate EstaVivo()
      reads this
    {
      vida > 0.0
    }

    /** `estado()`. */
    function Estado(): (v: Vista)
      reads this
      ensures v.inventario == |inventario| && v.vida == vida && v.energia == energia
    {
      Vista(nombre, clase, nivel, vida, maxVida, energia, maxEnergia, ataque, defensa, velocidad,
            experiencia, |inventario|)
    }

    /** `recibirDaño(daño)`: health drops by the damage but not below 0, and is returned. */
    method RecibirDano(dano: real) returns (v: real)
      modifies this
      ensures v == vida
      ensures Actual() == old(Actual()).(vida := TrasDano(old(vida), dano))
    {
      vida := TrasDano(vida, dano);
      v := vida;
    }

    /** The base class's `curar(cantidad)`: heals up to maxVida and returns what it healed. */
    method Curar(cantidad: real) returns (curado: real)
      modifies this
      ensures curado == Sanacion(old(vida), maxVida, cantidad)
      ensures Actual() == old(Actual()).(vida := old(vida) + curado)
    {
      curado := Sanacion(vida, maxVida, cantidad);
      vida := vida + curado;
    }

    /** `descansar()`: 15 more energy up to maxEnergia; always succeeds and reports 15 even when capped. */
    method Descansar() returns (r: Resultado)
      modifies this
      ensures r == Descanso(15)
      ensures Actual() == old(Actual()).(energia := Recargada(old(energia), maxEnergia))
      ensures old(Valido()) ==> Valido()
    {
      energia := Recargada(energia, maxEnergia);
      r := Descanso(15);
    }

    /** `subirNivel()`. */
    method SubirNivel() returns (m: Mejoras)
      modifies this
      ensures Actual() == Subida(old(Actual()))
      ensures m == Mejoras(nivel, old(maxVida) / 10, old(ataque) / 10, old(defensa) / 10)
    {
      nivel := nivel + 1;
      experiencia := 0;
      var mejoraVida, mejoraAtaque, mejoraDefensa := maxVida / 10, ataque / 10, defensa / 10;
      maxVida := maxVida + mejoraVida;
      vida := maxVida as real;
      ataque := ataque + mejoraAtaque;
      defensa := defensa + mejoraDefensa;
      m := Mejoras(nivel, mejoraVida, mejoraAtaque, mejoraDefensa);
    }

    /** `ganarExperiencia(cantidad)`: returns whether the combatant levelled up. */
    method GanarExperiencia(cantidad: int) returns (subio: bool)
      modifies this
      ensures Actual() == TrasExperiencia(old(Actual()), cantidad)
      ensures subio <==> old(experiencia) + cantidad >= old(nivel) * 100
    {
      experiencia := experiencia + cantidad;
      var necesaria := nivel * 100;
      if experiencia >= necesaria {
        var _ := SubirNivel();
        subio := true;
      } else {
        subio := false;
      }
    }

    /** `agregarItem(item)`: appends at the end and reports true. */
    method AgregarItem(item: Item) returns (ok: bool)
      modifies this
      ensures ok
      ensures Actual() == old(Actual()).(inventario := old(inventario) + [item])
    {
      inventario := inventario + [item];
      ok := true;
    }

    /** `_setEnergia(valor)` of every subclass: writes the public `energia`, never the real energy. */
    method SetEnergia(valor: int)
      requires arquetipo != Generico
      modifies this
      ensures Actual() == old(Actual()).(energiaPublica := Some(Acotada(valor, maxEnergia)))
    {
      energiaPublica := Some(Acotada(valor, maxEnergia));
    }

    /**
     * `atacar(enemigo)`: with less than 5 energy it fails and nothing
     * changes; otherwise the target takes the basic damage and 5 energy is
     * spent.
     */
    method Atacar(enemigo: Explorador, u: real) returns (r: Resultado)
      requires enemigo != this && Unidad(u)
      modifies this, enemigo
      ensures old(energia) < 5 ==>
                r == Fallo("No energy") && Actual() == old(Actual()) && enemigo.Actual() == old(enemigo.Actual())
      ensures old(energia) >= 5 ==>
                var d := DanoAtacar(old(ataque), old(enemigo.defensa), u);
                r == Golpe("Atacar", d as real, 5) &&
                enemigo.Actual() == old(enemigo.Actual()).(vida := TrasDano(old(enemigo.vida), d as real)) &&
                Actual() == old(Actual()).(energia := old(energia) - 5)
      ensures (r, Actual(), enemigo.Actual()) == EfectoAtacar(old(Actual()), old(enemigo.Actual()), u)
      ensures old(Valido()) && old(enemigo.Valido()) ==> Valido() && enemigo.Valido()
    {
      if energia < 5 {
        return Fallo("No energy");
      }
      var dano := DanoAtacar(ataque, enemigo.defensa, u);
      var _ := enemigo.RecibirDano(dano as real);
      energia := energia - 5;
      r := Golpe("Atacar", dano as real, 5);
    }

    /**
     * A striking ability of this combatant's subclass (`ataqueDoble`,
     * `golpeDevastador`, `bolaFuego`, `lluviaFlechas`, `flechaPenetrante`,
     * `ataquePrecision`): below its cost it fails and nothing changes;
     * otherwise every hit is computed, each is applied through `recibirDaño`,
     * the total is reported, and the cost goes to `_setEnergia`, so the
     * energy itself is not spent.
     */
    method UsarHabilidad(h: Habilidad, enemigo: Explorador, t: Tirada) returns (r: Resultado)
      requires !h.Curar? && Propietario(h) == arquetipo
      requires enemigo != this && TiradaValida(t)
      modifies this, enemigo
      ensures old(energia) < Coste(h) ==>
                r == Fallo("No energy") && Actual() == old(Actual()) && enemigo.Actual() == old(enemigo.Actual())
      ensures old(energia) >= Coste(h) ==>
                var ds := DanosHabilidad(h, old(ataque), old(enemigo.defensa), t);
                r == Golpe(Etiqueta(h), Suma(ds), Coste(h)) &&
                enemigo.Actual() == old(enemigo.Actual()).(vida := TrasGolpes(old(enemigo.vida), ds)) &&
                Actual() == old(Actual()).(energiaPublica := Some(Acotada(old(energia) - Coste(h), maxEnergia)))
      ensures (r, Actual(), enemigo.Actual()) == EfectoHabilidad(h, old(Actual()), old(enemigo.Actual()), t)
      ensures old(enemigo.vida) >= 0.0 ==> enemigo.vida <= old(enemigo.vida)
      ensures old(Valido()) && old(enemigo.Valido()) ==> Valido() && enemigo.Valido()
    {
      if energia < Coste(h) {
        return Fallo("No energy");
      }
      var ds := DanosHabilidad(h, ataque, enemigo.defensa, t);
      ghost var v0 := enemigo.vida;
      var _ := enemigo.RecibirDano(ds[0]);
      assert TrasGolpes(v0, ds) == TrasGolpes(enemigo.vida, ds[1..]);
      if |ds| > 1 {
        ghost var v1 := enemigo.vida;
        var _ := enemigo.RecibirDano(ds[1]);
        assert TrasGolpes(v1, ds[1..]) == TrasGolpes(enemigo.vida, ds[2..]) by {
          assert ds[1..][0] == ds[1] && ds[1..][1..] == ds[2..];
        }
      }
      if |ds| > 2 {
        ghost var v2 := enemigo.vida;
        var _ := enemigo.RecibirDano(ds[2]);
        assert TrasGolpes(v2, ds[2..]) == TrasGolpes(enemigo.vida, ds[3..]) by {
          assert ds[2..][0] == ds[2] && ds[2..][1..] == ds[3..];
        }
      }
      assert ds[|ds|..] == [];
      if v0 >= 0.0 {
        TrasGolpesEsTrasSuma(v0, ds);
        SumaNoNegativa(ds);
      }
      SetEnergia(energia - Coste(h));
      r := Golpe(Etiqueta(h), Suma(ds), Coste(h));
    }

    /**
     * The Mago's no-argument `curar()` override, entered with `pila` frames
     * left. Below 8 energy it fails. Otherwise it computes its heal and calls
     * `this.curar(curacion)`, which is itself again, on an unchanged
     * receiver: the call recurses until no frame is left and the stack
     * overflows, so the heal and the energy spend after the call never run.
     */
    method CurarMago(pila: nat) returns (r: Resultado)
      requires arquetipo == Mago
      modifies this
      decreases pila
      ensures pila > 0 && old(energia) < 8 ==> r == Fallo("No energy")
      ensures pila == 0 || old(energia) >= 8 ==> r == Excepcion(DesbordamientoPila)
      ensures Actual() == old(Actual())
    {
      if pila == 0 {
        return Excepcion(DesbordamientoPila);
      }
      if energia < 8 {
        return Fallo("No energy");
      }
      r := CurarMago(pila - 1);
    }

    /** `item.usar(this)`. */
    method UsarEfecto(e: Efecto) returns (r: Resultado)
      modifies this
      ensures (r, Actual()) == EfectoItem(old(Actual()), arquetipo, e)
    {
      match e
      case Base =>
        r := Excepcion(NoImplementado);
      case Pocion(c) =>
        if arquetipo == Mago {
          var respuesta := CurarMago(MarcosDePila);
          if respuesta.Excepcion? {
            r := respuesta;
          } else {
            r := PocionBebida(Registro(respuesta));
          }
        } else {
          var curado := Curar(c as real);
          r := PocionBebida(Puntos(curado));
        }
      case Energia(b) =>
        var anterior, maxima := energia, maxEnergia;
        var recuperada := if b < maxima - anterior then b else maxima - anterior;
        if arquetipo == Generico {
          r := Excepcion(NoEsFuncion("_setEnergia"));
        } else {
          SetEnergia(anterior + recuperada);
          r := EnergiaBebida(recuperada);
        }
      case Arma(_, _) =>
        r := Equipable;
      case Armadura(_, _) =>
        r := Equipable;
    }

    /** `usarItem(indice)`. */
    method UsarItem(indice: int) returns (r: Resultado)
      modifies this
      ensures (r, Actual()) == UsoItem(old(Actual()), arquetipo, indice)
      ensures old(Valido()) ==> Valido()
    {
      if indice < 0 || indice >= |inventario| {
        return Fallo("Item no encontrado");
      }
      var item := inventario[indice];
      r := UsarEfecto(item.efecto);
      if r.Exito() {
        inventario := inventario[..indice] + inventario[indice + 1..];
      }
    }

    // ==================== serialisation ====================

    /** `toJSON()`: every scalar field and the inventory's items in order. */
    function ToJson(): (j: Valor)
      reads this
      ensures j.Objeto? && "inventario" in j.campos && j.campos["inventario"].Lista?
      ensures |j.campos["inventario"].elementos| == |inventario|
      ensures forall k :: 0 <= k < |inventario| ==> j.campos["inventario"].elementos[k] == Items.ToJson(inventario[k])
      ensures j.campos.Keys == {"id", "nombre", "clase", "nivel", "experiencia", "vida", "maxVida", "energia",
                                "maxEnergia", "ataque", "defensa", "velocidad", "inventario"}
      ensures j.campos["vida"] == Numero(vida) && j.campos["clase"] == Texto(clase)
    {
      Objeto(map["id" := Texto(id), "nombre" := Texto(nombre), "clase" := Texto(clase),
                 "nivel" := Num(nivel), "experiencia" := Num(experiencia), "vida" := Numero(vida),
                 "maxVida" := Num(maxVida), "energia" := Num(energia), "maxEnergia" := Num(maxEnergia),
                 "ataque" := Num(ataque), "defensa" := Num(defensa), "velocidad" := Num(velocidad),
                 "inventario" := Lista(seq(|inventario|, k requires 0 <= k < |inventario| reads this =>
                                             Items.ToJson(inventario[k])))])
    }

    /** `Explorador.fromJSON(data)`: `new Explorador(data)`, which never reads `inventario`. */
    static method FromJson(data: Valor) returns (e: Option<Explorador>)
      ensures data.Objeto? && OpcionesDeJson(data).Some? <==> e.Some?
      ensures e.Some? ==> fresh(e.value) && e.value.arquetipo == Generico &&
                          e.value.Actual() == FichaInicial(Generico, OpcionesDeJson(data).value)
    {
      var o := OpcionesDeJson(data);
      if o.None? || !data.Objeto? {
        return None;
      }
      var x := new Explorador(Generico, o.value);
      e := Some(x);
    }
  }

  /**
   * The options `new Explorador(data)` reads from a JSON object: id and
   * nombre are required strings, every other field takes the constructor's
   * default when absent.
   */
  function OpcionesDeJson(j: Valor): (o: Option<Opciones>)
    ensures o.Some? ==> LeerTexto(j, "id") == Some(o.value.id) && LeerTexto(j, "nombre") == Some(o.value.nombre)
  {
    var s := StatsBase(Generico);
    match (LeerTexto(j, "id"), LeerTexto(j, "nombre"), LeerTextoO(j, "clase", "Explorador"),
           LeerEntero(j, "nivel", 1), LeerEntero(j, "experiencia", 0), LeerReal(j, "vida", s.vida as real))
    case (Some(id), Some(nombre), Some(clase), Some(nivel), Some(experiencia), Some(vida)) =>
      (match (LeerEntero(j, "maxVida", s.maxVida), LeerEntero(j, "energia", s.energia),
              LeerEntero(j, "maxEnergia", s.maxEnergia), LeerEntero(j, "ataque", s.ataque),
              LeerEntero(j, "defensa", s.defensa), LeerEntero(j, "velocidad", s.velocidad))
       case (Some(maxVida), Some(energia), Some(maxEnergia), Some(ataque), Some(defensa), Some(velocidad)) =>
         Some(Opciones(id, nombre, Some(clase), Some(nivel), Some(experiencia), Some(vida), Some(maxVida),
                       Some(energia), Some(maxEnergia), Some(ataque), Some(defensa), Some(velocidad)))
       case _ => None)
    case _ => None
  }

  /**
   * Saving a combatant and reading it back with `fromJSON` keeps every
   * scalar field and the class tag, but gives a base-class combatant with
   * an empty inventory.
   */
  lemma OpcionesDeSuJson(x: Explorador)
    ensures OpcionesDeJson(x.ToJson()).Some?
    ensures var o := OpcionesDeJson(x.ToJson()).value;
            o.id == x.id && o.nombre == x.nombre && ClaseInicial(Generico, o) == x.clase &&
            FichaInicial(Generico, o) == x.Actual().(inventario := [], energiaPublica := None)
  {
    var j := x.ToJson();
    assert LeerTexto(j, "id") == Some(x.id);
    assert LeerTexto(j, "nombre") == Some(x.nombre);
    assert LeerTextoO(j, "clase", "Explorador") == Some(x.clase);
    assert LeerEntero(j, "nivel", 1) == Some(x.nivel);
    assert LeerEntero(j, "experiencia", 0) == Some(x.experiencia);
    assert LeerReal(j, "vida", 100.0) == Some(x.vida);
    assert LeerEntero(j, "maxVida", 100) == Some(x.maxVida);
    assert LeerEntero(j, "energia", 50) == Some(x.energia);
    assert LeerEntero(j, "maxEnergia", 50) == Some(x.maxEnergia);
    assert LeerEntero(j, "ataque", 10) == Some(x.ataque);
    assert LeerEntero(j, "defensa", 5) == Some(x.defensa);
    assert LeerEntero(j, "velocidad", 8) == Some(x.velocidad);
  }
}
