# Galaxy Sprint battle core in Dafny

This project models the turn-based space battle of Galaxy Sprint, a command-line game, and proves properties of that model. It covers the parts the battle runs on:

- **The combatant `Explorador`** (module `Combatientes`). It holds health, energy, stats, level, experience and an ordered inventory. Its operations are attack, take damage, heal, rest, gain experience and level up, add and use items, and save to and load from JSON.
- **The five subclasses** Humano, Guerrero, Mago, Arquero and IA (module `Arquetipos`). Each is a tag plus a table: the base stats its constructor writes, and the special abilities it adds, with their energy cost, number of hits and damage formula.
- **The items** `Item`, `Pocion`, `Energia`, `Arma` and `Armadura` (module `Items`), as values: their constructors, `equipar` and their JSON form. What using an item does to a combatant is in `Combatientes`, next to the combatant operations it calls.
- **The battle manager `GestorBatalla`** (module `Batalla`). It builds the action menu, makes the enemy's weighted choice, dispatches an action by its id, checks for a winner and runs the turn loop.
- **The enemy factory `GeneradorEnemigos`** (module `Generador`). It picks an enemy type by weight and builds ordinary enemies and bosses.

Module `Escenarios` holds a few worked situations on concrete combatants.

The combatant and the battle manager are classes whose methods update their fields in place. Each combatant method states the combatant's new state in full through the snapshot `Actual()`. The battle manager's dispatch and turn methods state both combatants' new snapshots through the pure functions `EfectoAccion`, `Jugada`, `Veredicto` and `Premiado`. The battle loop `Iniciar` is tied to the pure specification `Partida`: its outcome, the number of turns played and both final states are those of `Partida` run from the old state, which plays turn after turn through `Turno` and `Ranura`. Lemmas about `Partida` state how a battle ends. The pure parts are functions: damage formulas, menus, the enemy's choice, item effects, level-ups, JSON, stat tables and names. The lemmas beside them state what those functions promise.

Each `Math.random()` is a parameter `u` with `0 <= u < 1`. A roll `Math.floor(Math.random() * k)` is `Dado(u, k)`. Multipliers such as 1.5, 1.8, 0.2 and 0.3 are exact rationals, and `Math.floor(x * 0.1)` on a non-negative integer is `x / 10`. Health is a `real`, because several abilities deal fractional damage. The player's prompt answers and every draw of a battle arrive as a sequence of `Ronda` values, one per turn.

The model follows what the code does, also where its comments promise something else:

- **Turn order** is fixed once, before the loop, by speed, and the player wins ties. Later changes of speed do not reorder the turns.
- **Abilities never spend energy.** Every subclass's `_setEnergia` assigns a new public property `energia`, not the private field. That property is modelled as `energiaPublica`, and only the basic attack really spends energy, although the comments say the abilities consume it.
- **The Mago's `curar()` override calls itself** through `this.curar(curacion)` with the receiver unchanged. With at least 8 energy it recurses until the stack overflows. It is modelled as a method over the remaining stack frames that always ends in `Excepcion(DesbordamientoPila)`. A potion used by a Mago takes the same path.
- **Subclass constructors overwrite every stat** they were given. So the scaled enemy stats and the boss stats the factory computes are discarded, and every enemy has its class's base stats.
- **The enemy's attack filter is a case-sensitive substring test.** Of the ids the menu produces, only `atacar` and `lluviaFlechas` pass it.
- **The energy an Energia item reports** is the capped amount, but the real energy never changes. On the base class, which has no `_setEnergia`, using it throws.

## Model

| member | source | states |
|---|---|---|
| Arquetipos.StatsBase | src/models/ExploradorHumano.js:33-46 | every class starts at full health and full energy, with positive attack, defense and speed |
| Arquetipos.Dado | src/models/Explorador.js:189 | a roll `floor(u·k)` for a draw in [0,1) is the whole number at or below `u·k` and lies in [0, k-1] |
| Arquetipos.AlMenosUno | src/models/Explorador.js:189 | `Math.max(1, x)` is at least 1 and at least x, and is one of the two |
| Arquetipos.AlMenosUnoReal | src/models/ExploradorIA.js:64 | the same on reals |
| Arquetipos.DanoAtacar | src/models/Explorador.js:189 | basic damage is at least 1; when ataque − defensa ≥ 1 it lies between that and that plus 4; when ataque − defensa + 4 ≤ 1 it is exactly 1 |
| Arquetipos.HabilidadDeId | src/services/GestorBatalla.js:256-304 | the ability an action id names is the unique ability with that id |
| Arquetipos.Golpes | src/models/ExploradorArquero.js:64-75 | exactly Lluvia de Flechas lands three hits, exactly Ataque Doble two, exactly the other four striking abilities one, and exactly Curar none |
| Arquetipos.DanoGolpe | src/models/ExploradorMago.js:64 | one hit deals at least 1; Ataque Doble, Lluvia de Flechas and Golpe Devastador deal whole numbers; when the fixed part is at least 1 the damage lies between it and it plus the largest roll |
| Arquetipos.DanoFraccionario | src/models/ExploradorMago.js:64 | a Bola de Fuego from attack 16 on defense 0 with a zero roll deals 28.8, which is not whole |
| Items.NuevoItem | src/models/items/Item.js:43-49 | the item stores the five fields as given, with valor defaulting to 0 |
| Items.NuevaPocion | src/models/items/Pocion.js:41-45 | a potion gets type 'pocion' whatever it was given, and keeps its heal |
| Items.NuevaEnergia | src/models/items/Energia.js:41-45 | an energy drink gets type 'energia' and keeps its bonus |
| Items.NuevaArma | src/models/items/Arma.js:43-48 | a weapon gets type 'arma'; bonusVelocidad and valor default to 0 |
| Items.NuevaArmadura | src/models/items/Armadura.js:43-48 | an armour gets type 'armadura'; bonusVida and valor default to 0 |
| Items.Equipar | src/models/items/Arma.js:96-103 | `equipar` gives weapon bonuses exactly for a weapon and armour bonuses for an armour, namely the item's own two bonuses, and changes no combatant (see also src/models/items/Armadura.js:96-101) |
| Items.EquiparNuevo | src/models/items/Arma.js:43-103 | equipping a freshly built weapon or armour gives back the bonuses it was built with, a missing one as 0 (see also src/models/items/Armadura.js:43-101) |
| Items.ToJson | src/models/items/Item.js:110-118 | the JSON object has exactly the base keys plus the kind's own keys, and the base keys carry the item's fields |
| Items.FromJsonToJson | src/models/items/Arma.js:113-129 | reading an item's JSON back with its class's `fromJSON` gives back the same item, for every kind |
| Items.FromJson | src/models/items/Item.js:126-128 | `fromJSON` of a concrete class gives an item of that kind carrying the type tag that kind forces |
| Combatientes.FichaInicial | src/models/Explorador.js:58-86 | level and experience come from the options, defaulting to 1 and 0; the inventory is empty; a subclass has exactly its base stats whatever the options say, and starts valid at full health and energy |
| Combatientes.ClaseInicial | src/models/ExploradorGuerrero.js:33-46 | a subclass's class tag is its own name, which no other subclass carries, so it is 'Mago' exactly for the Mago and never 'Explorador'; the base class takes the option, defaulting to 'Explorador' |
| Combatientes.TrasDano | src/models/Explorador.js:212-216 | health after damage is never negative; it is positive exactly when the damage is below the health, and then it is the difference |
| Combatientes.TrasGolpesEsTrasSuma | src/models/ExploradorArquero.js:73-75 | non-negative hits applied one after the other leave the same health as one hit of their total |
| Combatientes.SumaNoNegativa | src/models/ExploradorHumano.js:80 | a total of non-negative hits is non-negative |
| Combatientes.Sanacion | src/models/Explorador.js:224-232 | the heal never passes maxVida; it is the amount asked for or whatever reaches maxVida; it is 0 at full health |
| Combatientes.Recargada | src/models/Explorador.js:241-248 | energy after rest is `min(energia + 15, maxEnergia)`: never above either, equal to energia + 15 whenever that fits, and never below what it was |
| Combatientes.Acotada | src/models/ExploradorHumano.js:94-97 | `_setEnergia`'s clamp stays in [0, maxEnergia], keeps a value already in range, sends a negative value to 0 and one above the cap to maxEnergia |
| Combatientes.Subida | src/models/Explorador.js:282-307 | a level-up adds one level, resets experience, adds maxVida/10 to maxVida, restores full health, adds 10% (floored) to attack and defense, leaves energy, speed and inventory alone, and keeps the combatant valid |
| Combatientes.TrasExperiencia | src/models/Explorador.js:259-272 | the level rises by one exactly when the new experience reaches nivel·100, and never by more; otherwise only the experience changes |
| Combatientes.Quitar | src/models/Explorador.js:343-345 | removing index i keeps the items before i and shifts the ones after it, one item fewer, the same multiset minus that item |
| Combatientes.EfectoItem | src/models/items/Pocion.js:65-75 | per kind: a potion heals by the capped amount on a non-Mago, fails below 8 energy or overflows the stack on a Mago; an energy drink reports the capped bonus and leaves the real energy unchanged, and throws on the base class; weapons and armour are inert; the abstract item throws (see also src/models/items/Energia.js:65-82, src/models/items/Arma.js:77-84, src/models/items/Armadura.js:77-84, src/models/items/Item.js:98-100) |
| Combatientes.UsoItem | src/models/Explorador.js:330-348 | an index out of range fails and changes nothing; otherwise the item acts, and it is removed exactly when it reports success, with the others kept in order; the energy never changes; validity is kept |
| Combatientes.DanosHabilidad | src/models/ExploradorArquero.js:64-70 | an ability lands exactly its number of hits, each computed by the hit formula from its own draw and each at least 1 |
| Combatientes.SumaAlMenosGolpes | src/models/ExploradorArquero.js:84 | the reported total of n hits of at least 1 each is at least n |
| Combatientes.DanoReportadoExcedeVidaPerdida | src/models/ExploradorArquero.js:73-84 | three hits of 5 on a target at 4 report 15 while the target loses only 4 |
| Combatientes.Explorador.constructor | src/models/ExploradorMago.js:33-46 | the state built is the initial one for the class and the options |
| Combatientes.Explorador.Estado | src/models/Explorador.js:367-382 | the status record reports health, energy and the inventory's length |
| Combatientes.Explorador.RecibirDano | src/models/Explorador.js:212-216 | only health changes, to max(0, vida − daño), and the new health is returned |
| Combatientes.Explorador.Curar | src/models/Explorador.js:224-232 | only health changes, by the capped heal, which is returned |
| Combatientes.Explorador.Descansar | src/models/Explorador.js:241-248 | only energy changes, to the capped rest value; the result always reports 15; validity is kept |
| Combatientes.Explorador.SubirNivel | src/models/Explorador.js:282-307 | the new state is the level-up of the old, and the returned record gives the new level and each improvement |
| Combatientes.Explorador.GanarExperiencia | src/models/Explorador.js:259-272 | the new state is the experience gain of the old, and the method reports true exactly when it levelled up |
| Combatientes.Explorador.AgregarItem | src/models/Explorador.js:318-322 | the item is appended at the end, nothing else changes, and it reports true |
| Combatientes.Explorador.SetEnergia | src/models/ExploradorIA.js:90-93 | only the stray public `energia` property is set, to the clamped value; the real energy is untouched |
| Combatientes.Explorador.Atacar | src/models/Explorador.js:182-204 | below 5 energy it fails and neither combatant changes; otherwise the target loses the basic damage, the attacker spends exactly 5 energy, nothing else changes, and both stay valid; the outcome and both new states are the attack's effect on the old states |
| Combatientes.Explorador.UsarHabilidad | src/models/ExploradorHumano.js:57-83 | below the cost it fails and nothing changes; otherwise every hit is applied in order, the total is reported with the cost, the target's health never rises, the attacker's energy is unchanged, and both stay valid; the outcome and both new states are the ability's effect on the old states (also src/models/ExploradorGuerrero.js:57-79, src/models/ExploradorMago.js:57-79, src/models/ExploradorIA.js:57-79, src/models/ExploradorArquero.js:57-120) |
| Combatientes.Explorador.CurarMago | src/models/ExploradorMago.js:89-111 | below 8 energy it fails; with 8 or more it never returns a heal and ends in a stack overflow; the combatant never changes |
| Combatientes.Explorador.UsarEfecto | src/models/items/Energia.js:65-82 | the outcome and new state are the item effect of the old state |
| Combatientes.Explorador.UsarItem | src/models/Explorador.js:330-348 | the outcome and new state are the item use of the old state, and validity is kept |
| Combatientes.Explorador.ToJson | src/models/Explorador.js:392-409 | the saved object has exactly the thirteen keys, holds the health and the class tag as they are, and the inventory as a list whose k-th entry is the k-th item's own JSON |
| Combatientes.Explorador.FromJson | src/models/Explorador.js:417-421 | loading succeeds exactly when the required fields are readable, and builds a fresh base-class combatant from the options read, with an empty inventory |
| Combatientes.OpcionesDeJson | src/models/Explorador.js:58-72 | the options read carry the object's id and name |
| Combatientes.OpcionesDeSuJson | src/models/Explorador.js:392-421 | saving and loading a combatant keeps id, name, class tag and every scalar field, but loses the inventory and gives a base-class combatant |
| Batalla.AccionesDisponibles | src/services/GestorBatalla.js:155-204 | the menu starts with attack and rest whatever the energy; it offers the item entry, last, exactly when the inventory is not empty; every entry is a known action |
| Batalla.Especiales | src/services/GestorBatalla.js:164-197 | every ability entry belongs to the combatant's class and is affordable with its energy |
| Batalla.HabilidadEnMenu | src/services/GestorBatalla.js:155-204 | the menu offers an ability exactly when the class tag is its owner's and the energy reaches its cost |
| Batalla.HabilidadEnEspeciales | src/services/GestorBatalla.js:164-197 | the same for the ability entries alone |
| Batalla.AtaquesReconocidos | src/services/GestorBatalla.js:218-231 | of the known action ids, exactly `atacar` and `lluviaFlechas` pass the case-sensitive attack test |
| Batalla.NoEsAtaque | src/services/GestorBatalla.js:218-226 | rest, item use, heal and the other five abilities' ids contain none of the six attack words |
| Batalla.FiltrarConcatena | src/services/GestorBatalla.js:218-231 | `filter` keeps the order: filtering a concatenation is the concatenation of the filtered parts |
| Batalla.Filtrar | src/services/GestorBatalla.js:218-231 | the filter keeps exactly the entries that satisfy the test, and no more entries than it was given |
| Batalla.ElegirAccionIA | src/services/GestorBatalla.js:215-244 | with an attack on offer and r1 < 0.7 it picks the attack at index `floor(r2·n)` of the n attacks, in menu order; else the first heal entry when offered and r3 < 0.3; else the first rest entry when offered; else the first entry; there is a choice exactly when the menu is not empty |
| Batalla.OfertaDelMenu | src/services/GestorBatalla.js:155-204 | every menu offers an attack and rest; it offers the heal exactly to a Mago with 8 energy; its only attacks are `atacar` and `lluviaFlechas` |
| Batalla.AtaquesDelMenu | src/services/GestorBatalla.js:155-226 | the attacks the enemy sees on any menu are, in order, the basic attack and then the rain of arrows exactly for an Arquero with 9 energy |
| Batalla.AtaquesDeEspeciales | src/services/GestorBatalla.js:164-197 | among the ability entries the only one the attack test accepts is the Arquero's rain of arrows, offered from 9 energy |
| Batalla.EleccionEnemigo | src/services/GestorBatalla.js:215-244 | on any menu the enemy always chooses: with r1 < 0.7 `lluviaFlechas` exactly when it is an Arquero with 9 energy and r2 ≥ 1/2, and `atacar` otherwise; with r1 ≥ 0.7 the heal exactly when it is a Mago with 8 energy and r3 < 0.3, and rest in every other case; never an item or another ability |
| Batalla.EleccionIA | src/services/GestorBatalla.js:134-137 | the id the enemy picks from the menu of its state is always `atacar`, `lluviaFlechas`, `curar` or `descansar` |
| Batalla.EfectoAccion | src/services/GestorBatalla.js:256-304 | per id: an unknown id fails with 'Acción desconocida'; `atacar` is the basic strike; `descansar` reports 15 and recharges; `curar` never heals, fails below 8 energy or overflows the stack on a Mago and gives undefined health on any other class; `usarItem` fails on an empty inventory and otherwise uses the item; an ability the runtime class does not define throws, and otherwise strikes; a stopping outcome changes nothing; only the attack and rest change the real energy and only an item the actor's health; the target changes only in health, which never rises; validity is kept |
| Batalla.Jugada | src/services/GestorBatalla.js:63-76 | in the player's slot the enemy changes only in health, which never rises; in the enemy's slot the same holds for the player; a stopping outcome changes neither side; both sides stay valid |
| Batalla.Veredicto | src/services/GestorBatalla.js:374-390 | there is a winner exactly when one side is down; a fallen player makes the enemy the winner whatever the enemy's health; the player wins exactly when alive with the enemy down |
| Batalla.Premiado | src/services/GestorBatalla.js:380-386 | the player gains the 50 victory experience exactly when alive with the enemy down, and stays valid |
| Batalla.GolpeDecisivo | src/services/GestorBatalla.js:256-390 | a living player's basic attack with 5 energy on an enemy at 1 health or less fells it, and the winner check then names the player and gives the victory experience |
| Combatientes.EfectoAtacar | src/models/Explorador.js:182-204 | below 5 energy `atacar` fails and changes nothing; otherwise it reports at least 1 damage and cost 5, the target takes that damage and the attacker spends 5; validity is kept |
| Combatientes.EfectoHabilidad | src/models/ExploradorHumano.js:57-83 | below the cost a striking ability fails and changes nothing; otherwise its hits land in order, the total and cost are reported, the attacker's real energy is unchanged and only the public property gets the clamped spend, and a non-negative target health stays in [0, what it was]; validity is kept |
| Batalla.GestorBatalla.constructor | src/services/GestorBatalla.js:33-39 | a new battle is at turn 1 with no winner and no turn order |
| Batalla.GestorBatalla.DeterminarOrdenTurnos | src/services/GestorBatalla.js:95-102 | the order holds both combatants once each; the player is first exactly when at least as fast as the enemy |
| Batalla.GestorBatalla.UsarItem | src/services/GestorBatalla.js:315-340 | an empty inventory fails and changes nothing; otherwise the chosen index is used through the combatant's `usarItem` |
| Batalla.GestorBatalla.EjecutarHabilidad | src/services/GestorBatalla.js:267-287 | calling an ability the acting class does not define throws and changes nothing; otherwise the outcome and both new states are the ability's effect on the old states |
| Batalla.GestorBatalla.EjecutarAccion | src/services/GestorBatalla.js:256-304 | the outcome and both combatants' new states are the action effect of their old states, for the actor's runtime class; validity is kept |
| Batalla.GestorBatalla.TurnoJugador | src/services/GestorBatalla.js:110-124 | the turn goes ahead exactly when the answer is on the player's menu, and then the outcome and both new states are the effect of the player's answer on the enemy; an answer off the menu changes nothing; validity is kept |
| Batalla.GestorBatalla.TurnoEnemigo | src/services/GestorBatalla.js:132-144 | the enemy picks by its AI choice from its own menu, always `atacar`, `lluviaFlechas`, `curar` or `descansar`, and the outcome and both new states are the effect of that id on the player, on item index 0 |
| Batalla.GestorBatalla.VerificarGanador | src/services/GestorBatalla.js:374-390 | a fallen player loses, checked first; else a fallen enemy makes the player the winner, who gains 50 experience once; else nothing changes; the winner stored is the verdict on the current states, always the side whose opponent is down |
| Batalla.GestorBatalla.Actuar | src/services/GestorBatalla.js:63-76 | one slot of a turn: an answer off the menu stops with `SinEntradas` and changes nothing; an exception or undefined health stops with that outcome and changes nothing; otherwise the enemy's new state is the action's effect, the player's is that effect plus the victory experience exactly when the player has just won, and the winner is the verdict on those states |
| Batalla.GestorBatalla.Iniciar | src/services/GestorBatalla.js:49-85 | the outcome, the number of turns played and both final states are those of `Partida` from the old state; the order is fixed once; the turn counter grows by the turns played; it ends with a winner exactly when one is stored; it ends for lack of input only when the turns ran out or the next answer is off the player's current menu; a battle decided here plays at least one turn; the player gets the victory experience exactly once, and only on winning, and is alive then; both combatants stay valid |
| Batalla.Ranura | src/services/GestorBatalla.js:67-75 | one side's slot: it stops with `SinEntradas` exactly for a player's answer off its current menu; a stop changes nothing; otherwise the winner stored is coherent; valid states stay valid |
| Batalla.Turno | src/services/GestorBatalla.js:63-76 | a turn plays the sides in speed order, skipping the rest once a winner is stored; with a winner already stored it changes nothing; a stop leaves no winner; a stop for lack of input is an answer off the menu of the state reached |
| Batalla.SegundoSeSalta | src/services/GestorBatalla.js:63-65 | once the first slot of a turn stores a winner, the second side does not act: the whole turn is the first slot |
| Batalla.Partida | src/services/GestorBatalla.js:57-80 | playing the rounds: no more turns than rounds; it ends decided exactly when a winner is stored, and with that winner; an interruption is a stopping outcome before the last round; a winner stored beforehand ends it at once with nothing changed; a battle decided here plays at least one turn |
| Batalla.Jornada | src/services/GestorBatalla.js:57-80 | the battle from a state with no winner and rounds left: the same ends, a decision counting the deciding turn |
| Batalla.PartidaPaso | src/services/GestorBatalla.js:57-80 | a battle is its first turn followed by the battle over the remaining rounds, from the state that turn leaves, with one more turn counted; a turn that stops ends it at zero turns |
| Batalla.SinMenuDesplazado | src/services/GestorBatalla.js:57-80 | a stop for lack of input over the rounds after the first is one over the whole list, a turn later |
| Batalla.PartidaMenu | src/services/GestorBatalla.js:57-80 | a battle that ends for lack of input ends past the last round, or at a round whose player answer is off the menu of the final state |
| Batalla.PartidaCoherente | src/services/GestorBatalla.js:57-80 | from a coherent state the battle ends coherent: a stored winner is the side whose opponent is down |
| Batalla.PartidaSana | src/services/GestorBatalla.js:57-80 | from valid combatants the battle ends with valid combatants |
| Batalla.TramoSigue | src/services/GestorBatalla.js:57-80 | after j rounds, a turn that stops fixes the outcome at j turns and that state; a turn that goes on leaves the rest of the battle to round j + 1 |
| Batalla.TramoFinal | src/services/GestorBatalla.js:57-80 | after j rounds, a stored winner ends the battle decided at j turns; with no winner and no rounds left it ends for lack of input |
| Batalla.GestorBatalla.JugarTurno | src/services/GestorBatalla.js:63-76 | the turn's stop and both new states are those of `Turno` from the old state; the counter and the order are untouched |
| Batalla.GestorBatalla.Avanzar | src/services/GestorBatalla.js:57-80 | playing round j keeps the state on course for the battle outcome: a stop is that outcome at j turns, otherwise the rest is the battle from round j + 1 |
| Batalla.GestorBatalla.Combatir | src/services/GestorBatalla.js:57-80 | the loop ends with the outcome, turn count and final states of the battle it was started on, and counts each turn played |
| Generador.SumasDeLosPesos | src/services/GeneradorEnemigos.js:44-49 | the running sums of the weights are 0.3, 0.55, 0.8 and exactly 1 |
| Generador.SeleccionarTipoEnemigo | src/services/GeneradorEnemigos.js:98-111 | the loop picks IA up to 0.3, Guerrero up to 0.55, Mago up to 0.8, Arquero up to 1, and falls back to IA above |
| Generador.SinRespaldo | src/services/GeneradorEnemigos.js:110 | for a draw in [0, 1] the loop always answers from the table, and IA is picked exactly up to 0.3 |
| Generador.ArquetipoEnemigo | src/services/GeneradorEnemigos.js:218-232 | the four class names build their own class; any other name builds an IA; never a base combatant or a Humano |
| Generador.ObtenerStatsBase | src/services/GeneradorEnemigos.js:141-184 | the generator's table agrees with the subclass constructors' stats, and an unknown name gets the IA stats |
| Generador.Escalar | src/services/GeneradorEnemigos.js:198 | `Math.floor(x·m)` is the largest whole number not above the product; the identity at 1; never lower for m ≥ 1 |
| Generador.EscalarStats | src/services/GeneradorEnemigos.js:196-206 | scaling by 1 changes nothing, and scaling by at least 1 lowers no stat |
| Generador.Multiplicador | src/services/GeneradorEnemigos.js:70 | the multiplier is exactly 1 at level 1 and at least 1 from there on |
| Generador.EscaladoNeutroEnNivelUno | src/services/GeneradorEnemigos.js:70-76 | at player level 1 the scaled stats are the base stats |
| Generador.NivelEnemigo | src/services/GeneradorEnemigos.js:82 | an enemy's level is at least 1 and within one level of the player's |
| Generador.Decimal | src/services/GeneradorEnemigos.js:129 | a numeral is a non-empty string of digits, one digit long exactly below 10 |
| Generador.ValorDeDecimal | src/services/GeneradorEnemigos.js:126-129 | reading a numeral back gives the number |
| Generador.GenerarNombreEnemigo | src/services/GeneradorEnemigos.js:121-130 | an enemy name is a base name from the list, a space and a number below 1000 |
| Generador.GenerarNombreBoss | src/services/GeneradorEnemigos.js:282-291 | a boss name is one of the six boss names |
| Generador.Datos | src/services/GeneradorEnemigos.js:79-84 | the options spread into the constructor carry the id, the name, the level and the stats, and no class tag or experience |
| Generador.CrearEnemigo | src/services/GeneradorEnemigos.js:218-232 | a fresh combatant of the class the name selects, initialised from the options: its class's base stats, full health and energy, no items |
| Generador.GenerarEnemigo | src/services/GeneradorEnemigos.js:61-88 | a fresh, valid enemy of the class the draw selects, with that class's base stats at any player level, the generated name and the jittered level |
| Generador.EscaladoDescartado | src/services/GeneradorEnemigos.js:76-87 | at player level 3 a Guerrero's scaled health is 210, while the built enemy has 150 |
| Generador.MultiplicadorBoss | src/services/GeneradorEnemigos.js:249 | the boss multiplier is 1.5 at level 1 and at least 1.5 from there on |
| Generador.StatsBoss | src/services/GeneradorEnemigos.js:252-260 | the boss stats are 200/200/80/80/20/15/10 scaled by the boss multiplier, which is 300/300/120/120/30/22/15 at level 1 |
| Generador.GenerarEnemigoBoss | src/services/GeneradorEnemigos.js:243-272 | a boss is a fresh Guerrero two levels above the player, named from the boss list, with the Guerrero base stats rather than the boss stats |
| Escenarios.AtaqueEntreHumanos | src/models/Explorador.js:182-204 | a Humano attacking a Humano deals between 4 and 8, the target keeps 120 minus that, and the attacker's energy goes from 60 to 55 |
| Escenarios.CincoDescansos | src/models/Explorador.js:241-248 | from 0 of 60 energy, four rests reach 15, 30, 45 and 60, a fifth stays at 60, and it too reports 15 |
| Escenarios.PocionEnMago | src/models/items/Pocion.js:65-75 | a potion used by a Mago at full energy overflows the stack and stays in the inventory |
| Escenarios.EnergiaSinGasto | src/models/items/Energia.js:65-82 | an energy drink at full energy reports 0, and a Humano's energy is still 60 after its special attack |

## Left out

- Console output: the notifier calls, `mostrarEstado`, `mostrarResultado` and `mostrarResultadoAccion` never change the battle state and are not modelled. `src/services/NotificadorCLI.js` and the interfaces under `src/interfaces/` are not part of this model.
- Prompts: the player's menu answer and item index are inputs in each `Ronda`. In the model, an answer that is not on the menu ends the battle with `SinEntradas`, since the real prompt cannot return one. Running out of inputs ends it the same way.
- Randomness: every `Math.random()` is a parameter in [0, 1). Probabilities are not modelled. The fresh ids from `uuidv4()` are parameters.
- Floating point: all arithmetic is exact. IEEE rounding of 0.3 + 0.25 + 0.25 + 0.2, of the 1.5, 1.8, 0.2 and 0.3 multipliers and of fractional health is not reproduced. So the type fallback is unreachable for draws below 1, while in binary floating point the running sum may fall just short of 1.
- Asynchrony: turns are strictly sequential. The enemy's `ejecutarAccion` (src/services/GestorBatalla.js:143) is not awaited. Its non-item paths run to completion before the call returns, and the enemy never picks `usarItem`, so its state changes happen before the winner check, as in the model.
- Batalla.GestorBatalla.EjecutarAccion: a non-Mago that receives `curar` calls the base `curar()` with no amount, which in the source makes health NaN. The model reports `VidaIndefinida`, leaves the state unchanged and stops the battle there. In the source the battle goes on: `estaVivo()` is false on NaN, so if the player is the one healed, the next `verificarGanador` declares the enemy the winner. The menu offers `curar` only to a combatant tagged 'Mago', so this path needs a base-class combatant carrying that tag, which only `Explorador.fromJSON` or the base constructor with a `clase` option builds.
- Exceptions: a thrown error, such as a missing method, a stack overflow or the abstract `usar`, is an `Excepcion` outcome that ends the battle with `Interrumpida`. On the player's turn this matches the source: the error propagates out of the awaited `turnoJugador` and `iniciar`, which do not catch it. On the enemy's turn it does not: `ejecutarAccion` is async and not awaited, so the error becomes a rejected promise that `iniciar` never sees. There `iniciar` goes on with the winner check and the next turn, until the runtime reports the unhandled rejection (under Node's default since version 15 that ends the process). One input that reaches it is an enemy Mago with 8 energy or more that picks `curar` (r1 ≥ 0.7 and r3 < 0.3): its heal overflows the stack. The model ends the battle at that point instead; the thrown action changes no state, so the winner check it skips would find nothing new.
- Combatientes.Explorador.CurarMago: the JavaScript engine's stack depth is stood in for by the constant `MarcosDePila`. The outcome is a stack overflow for every depth.
- Combatientes.Explorador.Atacar, UsarHabilidad and the battle methods require the two combatants to be distinct objects. Self-targeting is not modelled, and the game never does it.
- Combatientes.Explorador.SetEnergia requires a subclass. On the base class the call does not exist and is modelled as an exception where it is invoked.
- JSON: a JSON object whose required field is absent or of the wrong type gives `None`, where JavaScript would build an object with an `undefined` field. The parameter defaults of `generarEnemigo(nivelJugador = 1)` and `generarEnemigoBoss(nivelJugador = 1)` are not modelled: callers pass the level.
- `getInventario` returns a copy of the inventory. Sequences are values, so no aliasing can arise, and the copy is not a separate member. The getters of every class are the fields of the datatypes and classes.
- `src/services/GestorGuardado.js` (file persistence), `src/main.js` (menus and top-level flow), and `src/services/GestorCarrera.js` with `src/services/GeneradorAcciones.js` (the legacy race mode) are not part of this model.
