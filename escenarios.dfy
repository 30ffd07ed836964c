/**
 * Small worked situations, each built from fresh combatants: what the
 * operations give on concrete stats.
 */
module Escenarios {
  import opened Wrappers
  import opened Arquetipos
  import opened Items
  import opened Combatientes

  /** Options that set nothing but the id and the name. */
  function SoloNombre(id: string, nombre: string): (o: Opciones)
    ensures o.id == id && o.nombre == nombre && o.nivel == None && o.energia == None
  {
    Opciones(id, nombre, None, None, None, None, None, None, None, None, None, None)
  }

  /**
   * A Humano (ataque 12) attacks another Humano (defensa 8): the damage is
   * between 4 and 8, the target keeps the rest of its 120 health, and the
   * attacker's energy goes from 60 to 55.
   */
  method AtaqueEntreHumanos(u: real) returns (dano: real, vidaObjetivo: real, energia: int)
    requires Unidad(u)
    ensures 4.0 <= dano <= 8.0
    ensures vidaObjetivo == 120.0 - dano
    ensures energia == 55
  {
    var atacante := new Explorador(Humano, SoloNombre("1", "Ana"));
    var objetivo := new Explorador(Humano, SoloNombre("2", "Bruno"));
    var r := atacante.Atacar(objetivo, u);
    dano, vidaObjetivo, energia := r.dano, objetivo.vida, atacante.energia;
  }

  /**
   * A base combatant with 0 of 60 energy rests five times: 15, 30, 45 and 60
   * after the first four rests, still 60 after the fifth, which also reports 15.
   */
  method CincoDescansos() returns (tras: seq<int>, ultimo: Resultado)
    ensures tras == [15, 30, 45, 60, 60]
    ensures ultimo == Descanso(15)
  {
    var o := SoloNombre("1", "Ana").(energia := Some(0), maxEnergia := Some(60));
    var e := new Explorador(Generico, o);
    var r1 := e.Descansar();
    var e1 := e.energia;
    var r2 := e.Descansar();
    var e2 := e.energia;
    var r3 := e.Descansar();
    var e3 := e.energia;
    var r4 := e.Descansar();
    var e4 := e.energia;
    ultimo := e.Descansar();
    tras := [e1, e2, e3, e4, e.energia];
  }

  /**
   * A potion used by a Mago with its full 100 energy never heals: the
   * override recurses until the stack overflows, and the potion stays.
   */
  method PocionEnMago(curacion: nat) returns (r: Resultado, quedan: nat)
    ensures r == Excepcion(DesbordamientoPila)
    ensures quedan == 1
  {
    var mago := new Explorador(Mago, SoloNombre("1", "Merlín"));
    var p := NuevaPocion("p", "Poción", "", curacion, None);
    var _ := mago.AgregarItem(p);
    r := mago.UsarItem(0);
    quedan := |mago.inventario|;
  }

  /**
   * An energy drink used by a Humano at 60 of 60 reports 0 recovered, and a
   * Humano that used its special attack still shows its full energy.
   */
  method EnergiaSinGasto(t: Tirada) returns (recuperada: Resultado, energiaTrasHabilidad: int)
    requires TiradaValida(t)
    ensures recuperada == EnergiaBebida(0)
    ensures energiaTrasHabilidad == 60
  {
    var humano := new Explorador(Humano, SoloNombre("1", "Ana"));
    var rival := new Explorador(Guerrero, SoloNombre("2", "Bruno"));
    var _ := humano.AgregarItem(NuevaEnergia("e", "Energía", "", 30, None));
    recuperada := humano.UsarItem(0);
    var _ := humano.UsarHabilidad(AtaqueDoble, rival, t);
    energiaTrasHabilidad := humano.energia;
  }
}
