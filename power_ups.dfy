/**
  The power-up system of src/utils/powerUpsSystem.ts: the catalogue of four
  power-ups, the availability check (cooldown first, then cost) and the
  activation that applies an effect, pays the cost and stamps the use.

  A power-up's effect is a closure over the game state in the source; here it
  is an `Effect` value and `EffectResult` is its meaning. `Math.random` is a
  `revealPick` argument and `Date.now()` a `now` argument, in milliseconds.
 */
module PowerUps {
  import opened Wrappers
  import opened Seqs
  import opened JsStrings
  import opened ElementData
  import opened GameTypes

  datatype Effect = MultiplierBoost | ElementRevealer | PowerSurge | SmartHint

  /** A power-up; `cooldown` is in seconds, `lastUsed` a millisecond timestamp or `null`. */
  datatype PowerUp = PowerUp(id: string, cost: int, unlocked: bool, cooldown: int, lastUsed: Option<int>, effect: Effect)

  datatype PowerUpsState = PowerUpsState(availablePowerUps: seq<PowerUp>, activePowerUps: seq<string>)

  /** `initializePowerUps`: four unlocked, never used power-ups with distinct ids, and nothing active. */
  function InitializePowerUps(): (r: PowerUpsState)
    ensures |r.availablePowerUps| == 4 && r.activePowerUps == []
    ensures forall i :: 0 <= i < 4 ==>
      && r.availablePowerUps[i].unlocked && r.availablePowerUps[i].lastUsed == None
      && r.availablePowerUps[i].cost > 0 && r.availablePowerUps[i].cooldown > 0
    ensures forall i, j :: 0 <= i < j < 4 ==>
      r.availablePowerUps[i].id != r.availablePowerUps[j].id && r.availablePowerUps[i].effect != r.availablePowerUps[j].effect
  {
    PowerUpsState(
      [ PowerUp("multiplier_boost", 50, true, 60, None, MultiplierBoost),
        PowerUp("element_revealer", 100, true, 180, None, ElementRevealer),
        PowerUp("power_surge", 75, true, 120, None, PowerSurge),
        PowerUp("smart_hint", 30, true, 90, None, SmartHint) ],
      [])
  }

  /** The outcome of `isPowerUpAvailable`; the two refusals carry the numbers their reasons print. */
  datatype Availability = Available | OnCooldown(remainingSeconds: int) | NeedMorePower(shortfall: int)

  /** `if (powerUp.lastUsed)`: a timestamp of 0 is falsy, like `null`. */
  predicate WasUsed(p: PowerUp)
  {
    p.lastUsed.Some? && p.lastUsed.value != 0
  }

  /** Still cooling down: fewer than `cooldown` seconds have passed since the last use. */
  predicate CoolingDown(p: PowerUp, now: int)
  {
    WasUsed(p) && now - p.lastUsed.value < 1000 * p.cooldown
  }

  /**
    `isPowerUpAvailable`: the cooldown is checked before the cost. The
    remaining time is `Math.ceil(cooldown - elapsed / 1000)`, computed here
    on the integer number of milliseconds still to wait.
   */
  function IsPowerUpAvailable(p: PowerUp, gs: GameState, now: int): (r: Availability)
    ensures r.Available? <==> !CoolingDown(p, now) && gs.totalPowerGained >= p.cost
    ensures r.OnCooldown? <==> CoolingDown(p, now)
    ensures r.OnCooldown? ==>
      var wait := 1000 * p.cooldown - (now - p.lastUsed.value);
      r.remainingSeconds > 0 && 1000 * (r.remainingSeconds - 1) < wait <= 1000 * r.remainingSeconds
    ensures r.NeedMorePower? ==> r.shortfall > 0 && gs.totalPowerGained + r.shortfall == p.cost
  {
    if CoolingDown(p, now) then
      var wait := 1000 * p.cooldown - (now - p.lastUsed.value);
      var n := wait + 999;
      assert n == 1000 * (n / 1000) + n % 1000 && 0 <= n % 1000 < 1000;
      OnCooldown(n / 1000)
    else if gs.totalPowerGained < p.cost then
      NeedMorePower(p.cost - gs.totalPowerGained)
    else
      Available
  }

  // ----- Effects -----

  /** `elements.filter(e => !e.discovered)`. */
  function Undiscovered(es: seq<Element>): (r: seq<Element>)
    ensures forall e :: e in r <==> e in es && !e.discovered
    ensures IsSubsequence(r, es)
    ensures forall e {:trigger multiset(r)[e]} :: multiset(r)[e] == if !e.discovered then multiset(es)[e] else 0
  {
    Filter(es, (e: Element) => !e.discovered)
  }

  /** The record the element revealer prepends; its id and timestamp both come from the clock. */
  function RevealRecord(result: Id, now: nat): Discovery
  {
    Discovery("power-up-reveal-" + NatToString(now), result, now, ("power-up", "revealer"))
  }

  /** The element revealer: one undiscovered element, chosen by `revealPick`, is marked discovered and logged. */
  function Reveal(gs: GameState, revealPick: nat, now: nat): (r: GameState)
    ensures |Undiscovered(gs.elements)| == 0 ==> r == gs
    ensures |Undiscovered(gs.elements)| > 0 ==>
      var chosen := Undiscovered(gs.elements)[revealPick % |Undiscovered(gs.elements)|];
      && chosen in gs.elements && !chosen.discovered
      && r == gs.(elements := MarkDiscovered(gs.elements, chosen.id), discoveries := [RevealRecord(chosen.id, now)] + gs.discoveries)
  {
    var undiscovered := Undiscovered(gs.elements);
    if |undiscovered| == 0 then gs
    else
      var chosen := undiscovered[revealPick % |undiscovered|];
      assert chosen in undiscovered;
      gs.(elements := MarkDiscovered(gs.elements, chosen.id), discoveries := [RevealRecord(chosen.id, now)] + gs.discoveries)
  }

  /** The power surge: `level * 5` for every discovered element's power, and as many times that for the total. */
  function Surged(gs: GameState): (r: GameState)
    ensures r == gs.(elementPowers := r.elementPowers, totalPowerGained := r.totalPowerGained)
  {
    var boost := gs.level * 5;
    var discovered := Discovered(gs.elements);
    gs.(elementPowers := AddEach(gs.elementPowers, Ids(discovered), boost),
        totalPowerGained := gs.totalPowerGained + boost * |discovered|)
  }

  /** What each effect closure returns. */
  function EffectResult(e: Effect, gs: GameState, revealPick: nat, now: nat): (r: GameState)
    ensures r == gs.(elements := r.elements, discoveries := r.discoveries, comboMultiplierTenths := r.comboMultiplierTenths,
                     elementPowers := r.elementPowers, totalPowerGained := r.totalPowerGained)
    ensures Ids(r.elements) == Ids(gs.elements)
  {
    match e
    case MultiplierBoost => gs.(comboMultiplierTenths := gs.comboMultiplierTenths * 2)
    case ElementRevealer => Reveal(gs, revealPick, now)
    case PowerSurge => Surged(gs)
    case SmartHint => gs
  }

  /** The power surge, with its `forEach` over the discovered elements run on a copy of the power dictionary. */
  method PowerSurgeEffect(gs: GameState) returns (r: GameState)
    ensures r == Surged(gs)
  {
    var boost := gs.level * 5;
    var discovered := Discovered(gs.elements);
    var powers := AddPowers(gs.elementPowers, Ids(discovered), boost);
    r := gs.(elementPowers := powers, totalPowerGained := gs.totalPowerGained + boost * |discovered|);
  }

  /** `powerUp.effect(gameState)`. */
  method ApplyEffect(e: Effect, gs: GameState, revealPick: nat, now: nat) returns (r: GameState)
    ensures r == EffectResult(e, gs, revealPick, now)
  {
    match e
    case MultiplierBoost => r := gs.(comboMultiplierTenths := gs.comboMultiplierTenths * 2);
    case ElementRevealer => r := Reveal(gs, revealPick, now);
    case PowerSurge => r := PowerSurgeEffect(gs);
    case SmartHint => r := gs;
  }

  // ----- Activation -----

  /** `availablePowerUps.find(p => p.id === id)`, as the index of the first match. */
  function FindPowerUp(ps: seq<PowerUp>, id: string): (r: Option<nat>)
    ensures r.Some? ==> r.value < |ps| && ps[r.value].id == id && forall j :: 0 <= j < r.value ==> ps[j].id != id
    ensures r.None? ==> forall j :: 0 <= j < |ps| ==> ps[j].id != id
  {
    if |ps| == 0 then None
    else if ps[0].id == id then Some(0)
    else match FindPowerUp(ps[1..], id)
      case None => None
      case Some(k) => Some(k + 1)
  }

  /** `availablePowerUps.map(p => p.id === id ? { ...p, lastUsed: now } : p)`. */
  function Stamp(ps: seq<PowerUp>, id: string, now: int): (r: seq<PowerUp>)
    ensures |r| == |ps|
    ensures forall i :: 0 <= i < |ps| ==> r[i] == if ps[i].id == id then ps[i].(lastUsed := Some(now)) else ps[i]
  {
    seq(|ps|, i requires 0 <= i < |ps| => if ps[i].id == id then ps[i].(lastUsed := Some(now)) else ps[i])
  }

  /** The pair `activatePowerUp` returns. */
  datatype Activation = Activation(newGameState: GameState, newPowerUpState: PowerUpsState)

  /**
    `activatePowerUp`: an unknown id or an unavailable power-up leaves both
    states as they were; otherwise the effect is applied, the cost paid, the
    use stamped and the id appended to the active list.
   */
  function Activated(gs: GameState, id: string, st: PowerUpsState, revealPick: nat, now: nat): (r: Activation)
    ensures FindPowerUp(st.availablePowerUps, id).None? ==> r == Activation(gs, st)
    ensures FindPowerUp(st.availablePowerUps, id).Some? ==>
      var p := st.availablePowerUps[FindPowerUp(st.availablePowerUps, id).value];
      && (!IsPowerUpAvailable(p, gs, now).Available? ==> r == Activation(gs, st))
      && (IsPowerUpAvailable(p, gs, now).Available? ==>
            && var effected := EffectResult(p.effect, gs, revealPick, now);
            && r.newGameState == effected.(totalPowerGained := effected.totalPowerGained - p.cost)
            && r.newGameState.totalPowerGained == effected.totalPowerGained - p.cost
            && r.newPowerUpState.activePowerUps == st.activePowerUps + [id]
            && r.newPowerUpState.availablePowerUps == Stamp(st.availablePowerUps, id, now))
  {
    match FindPowerUp(st.availablePowerUps, id)
    case None => Activation(gs, st)
    case Some(k) =>
      var p := st.availablePowerUps[k];
      if !IsPowerUpAvailable(p, gs, now).Available? then Activation(gs, st)
      else
        var updated := EffectResult(p.effect, gs, revealPick, now);
        Activation(updated.(totalPowerGained := updated.totalPowerGained - p.cost),
          PowerUpsState(Stamp(st.availablePowerUps, id, now), st.activePowerUps + [id]))
  }

  /** `activatePowerUp`, running the effect (the power surge's loop included). */
  method ActivatePowerUp(gs: GameState, id: string, st: PowerUpsState, revealPick: nat, now: nat)
    returns (newGameState: GameState, newPowerUpState: PowerUpsState)
    ensures Activation(newGameState, newPowerUpState) == Activated(gs, id, st, revealPick, now)
  {
    var found := FindPowerUp(st.availablePowerUps, id);
    if found.None? {
      return gs, st;
    }
    var p := st.availablePowerUps[found.value];
    if !IsPowerUpAvailable(p, gs, now).Available? {
      return gs, st;
    }
    var updated := ApplyEffect(p.effect, gs, revealPick, now);
    newGameState := updated.(totalPowerGained := updated.totalPowerGained - p.cost);
    newPowerUpState := PowerUpsState(Stamp(st.availablePowerUps, id, now), st.activePowerUps + [id]);
  }

  // ----- Properties -----

  /** Each id gains the boost once per discovered element carrying it; every other entry keeps its value. */
  lemma SurgePowers(gs: GameState, k: Id)
    ensures Get(Surged(gs).elementPowers, k) ==
      Get(gs.elementPowers, k) + gs.level * 5 * |Filter(gs.elements, (e: Element) => e.id == k && e.discovered)|
  {
    AddEachPointwise(gs.elementPowers, Ids(Discovered(gs.elements)), gs.level * 5, k);
    DiscoveredIdCount(gs.elements, k);
  }

  /** The occurrences of an id among the discovered elements' ids are the discovered elements with that id. */
  lemma {:induction false} DiscoveredIdCount(es: seq<Element>, k: Id)
    ensures multiset(Ids(Discovered(es)))[k] == |Filter(es, (e: Element) => e.id == k && e.discovered)|
    decreases |es|
  {
    if |es| > 0 {
      DiscoveredUnfold(es);
      FilterUnfold(es, (e: Element) => e.id == k && e.discovered);
      DiscoveredIdCount(es[1..], k);
      var rest := Discovered(es[1..]);
      if es[0].discovered {
        assert Discovered(es) == [es[0]] + rest;
        IdsCount(es[0], rest, k);
      } else {
        assert Discovered(es) == rest;
      }
    }
  }

  /** Counting an id in the ids of a list with one more element in front. */
  lemma IdsCount(x: Element, es: seq<Element>, k: Id)
    ensures multiset(Ids([x] + es))[k] == (if x.id == k then 1 else 0) + multiset(Ids(es))[k]
  {
    assert Ids([x] + es) == [x.id] + Ids(es);
  }

  /** With distinct ids, a surge adds exactly `level * 5` to each discovered element's power and nothing elsewhere. */
  lemma SurgeDistinct(gs: GameState, k: Id)
    requires DistinctIds(gs.elements)
    ensures Get(Surged(gs).elementPowers, k) ==
      Get(gs.elementPowers, k) + (if exists i :: 0 <= i < |gs.elements| && gs.elements[i].id == k && gs.elements[i].discovered
                                  then gs.level * 5 else 0)
    ensures Surged(gs).totalPowerGained == gs.totalPowerGained + gs.level * 5 * DiscoveredCount(gs.elements)
  {
    SurgePowers(gs, k);
    FilterAtMostOne(gs.elements, (e: Element) => e.id == k && e.discovered);
  }

  /** With distinct ids and something left to find, the revealer discovers exactly one more element and logs it first. */
  lemma RevealerDiscoversOne(gs: GameState, revealPick: nat, now: nat)
    requires DistinctIds(gs.elements) && |Undiscovered(gs.elements)| > 0
    ensures var r := Reveal(gs, revealPick, now);
      && DiscoveredCount(r.elements) == DiscoveredCount(gs.elements) + 1
      && |r.discoveries| == |gs.discoveries| + 1 && r.discoveries[1..] == gs.discoveries
      && r.discoveries[0].elements == ("power-up", "revealer")
      && Ids(r.elements) == Ids(gs.elements)
  {
    var undiscovered := Undiscovered(gs.elements);
    var chosen := undiscovered[revealPick % |undiscovered|];
    assert chosen in undiscovered;
    MarkOneMore(gs.elements, chosen);
    var r := Reveal(gs, revealPick, now);
    assert r.elements == MarkDiscovered(gs.elements, chosen.id);
    assert r.discoveries == [RevealRecord(chosen.id, now)] + gs.discoveries;
  }

  /** Marking the id of an undiscovered member of a list with distinct ids discovers exactly one more element and keeps the ids. */
  lemma MarkOneMore(es: seq<Element>, chosen: Element)
    requires DistinctIds(es) && chosen in es && !chosen.discovered
    ensures DiscoveredCount(MarkDiscovered(es, chosen.id)) == DiscoveredCount(es) + 1
    ensures Ids(MarkDiscovered(es, chosen.id)) == Ids(es)
  {
    var i :| 0 <= i < |es| && es[i] == chosen;
    MarkDiscoveredCount(es, chosen.id);
    UndiscoveredWithIdDistinct(es, chosen.id);
  }

  /** No effect lowers the total when the level is not negative. */
  lemma EffectKeepsTotal(e: Effect, gs: GameState, revealPick: nat, now: nat)
    requires gs.level >= 0
    ensures EffectResult(e, gs, revealPick, now).totalPowerGained >= gs.totalPowerGained
  {
    match e
    case MultiplierBoost =>
    case ElementRevealer =>
      assert Reveal(gs, revealPick, now).totalPowerGained == gs.totalPowerGained;
    case PowerSurge =>
      SurgeKeepsTotal(gs);
    case SmartHint =>
  }

  /** The surge adds a non-negative amount when the level is not negative. */
  lemma SurgeKeepsTotal(gs: GameState)
    requires gs.level >= 0
    ensures Surged(gs).totalPowerGained >= gs.totalPowerGained
  {
    var boost: nat, count: nat := gs.level * 5, |Discovered(gs.elements)|;
    MulNonNegative(boost, count);
    assert Surged(gs).totalPowerGained == gs.totalPowerGained + boost * count;
  }

  lemma MulNonNegative(a: nat, b: nat)
    ensures a * b >= 0
  {
  }

  /** The cost is paid only when it is covered, so activation keeps the total non-negative. */
  lemma ActivationKeepsPowerNonNegative(gs: GameState, id: string, st: PowerUpsState, revealPick: nat, now: nat)
    requires gs.totalPowerGained >= 0 && gs.level >= 0
    ensures Activated(gs, id, st, revealPick, now).newGameState.totalPowerGained >= 0
  {
    var found := FindPowerUp(st.availablePowerUps, id);
    if found.Some? {
      EffectKeepsTotal(st.availablePowerUps[found.value].effect, gs, revealPick, now);
    }
  }

  /**
    Right after a successful activation at a truthy time, the power-up is
    cooling down for its whole cooldown; activated at time 0, the stamp is
    falsy and the cooldown never starts.
   */
  lemma ActivationStartsCooldown(gs: GameState, id: string, st: PowerUpsState, revealPick: nat, now: nat)
    requires FindPowerUp(st.availablePowerUps, id).Some?
    requires IsPowerUpAvailable(st.availablePowerUps[FindPowerUp(st.availablePowerUps, id).value], gs, now).Available?
    ensures var k := FindPowerUp(st.availablePowerUps, id).value;
      var a := Activated(gs, id, st, revealPick, now);
      var p := a.newPowerUpState.availablePowerUps[k];
      && p.lastUsed == Some(now)
      && (now != 0 && p.cooldown > 0 ==> IsPowerUpAvailable(p, a.newGameState, now) == OnCooldown(p.cooldown))
      && (now == 0 ==> !IsPowerUpAvailable(p, a.newGameState, now).OnCooldown?)
  {
    var k := FindPowerUp(st.availablePowerUps, id).value;
    var p := Activated(gs, id, st, revealPick, now).newPowerUpState.availablePowerUps[k];
    if now != 0 && p.cooldown > 0 {
      var r := IsPowerUpAvailable(p, Activated(gs, id, st, revealPick, now).newGameState, now);
      assert 1000 * (r.remainingSeconds - 1) < 1000 * p.cooldown <= 1000 * r.remainingSeconds;
    }
  }

  /** The multiplier boost doubles without the 3.0 cap of a combination, so a capped multiplier goes to 6.0. */
  lemma BoostExceedsCap(gs: GameState, revealPick: nat, now: nat)
    requires gs.comboMultiplierTenths == 30
    ensures EffectResult(MultiplierBoost, gs, revealPick, now).comboMultiplierTenths == 60
  {
  }
}
